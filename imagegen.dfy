/**
 * The image-generation plugin: a fixed list of trigger phrases decides, case-insensitively,
 * whether a message asks for an image; the phrases are then removed case-sensitively to form
 * the Stable Diffusion prompt, and the round is taken over.
 */
module ImageGenPlugin {
  import opened Wrappers
  import opened TextUtil
  import opened Confidence
  import opened PluginBase

  const TriggerPhrases: seq<string> := [
    "generate an image",
    "generate a photo",
    "generate a picture",
    "create an image",
    "create a photo",
    "create a picture",
    "create art",
    "visualize this"
  ]

  /** The float `0.0` returned when no phrase matches. */
  const NoConfidence := Decimal("0", "0")

  /** Some phrase of `phrases` occurs in `s`. */
  function AnyPhrase(s: string, phrases: seq<string>): (r: bool)
    ensures r <==> exists i :: 0 <= i < |phrases| && Contains(s, phrases[i])
    decreases |phrases|
  {
    if |phrases| == 0 then false
    else if Contains(s, phrases[0]) then true
    else
      var r := AnyPhrase(s, phrases[1..]);
      assert forall i :: 1 <= i < |phrases| ==> phrases[i] == phrases[1..][i - 1];
      r
  }

  /** `should_use_stable_diffusion`: `(True, 1.0)` iff a phrase occurs in the lower-cased content. */
  function ShouldUse(content: string): (d: Decision)
    ensures d.accept <==> exists i :: 0 <= i < |TriggerPhrases| && Contains(Lower(content), TriggerPhrases[i])
    ensures d.confidence == if d.accept then One else NoConfidence
  {
    if AnyPhrase(Lower(content), TriggerPhrases) then Decision(true, One) else Decision(false, NoConfidence)
  }

  /** The prompt after removing each phrase of `phrases` in order, stripping after every removal. */
  function RemovePhrases(cont: string, phrases: seq<string>): string
    requires forall i :: 0 <= i < |phrases| ==> |phrases[i]| > 0
    decreases |phrases|
  {
    if |phrases| == 0 then cont else RemovePhrases(Strip(Replace(cont, phrases[0], "")), phrases[1..])
  }

  /** No trigger phrase is empty, so removing one always makes progress. */
  lemma TriggerPhrasesNonEmpty()
    ensures forall i :: 0 <= i < |TriggerPhrases| ==> |TriggerPhrases[i]| > 0
  {
    forall i | 0 <= i < |TriggerPhrases| ensures |TriggerPhrases[i]| > 0 {
      assert |TriggerPhrases[i]| >= 10;
    }
  }

  /** The Stable Diffusion prompt `generate_stable_diffusion_prompt` returns for `content`. */
  function SdPrompt(content: string): (r: string)
    ensures SingleSpaced(r) && Stripped(r)
  {
    TriggerPhrasesNonEmpty();
    NormalizeSpaces(RemovePhrases(content, TriggerPhrases))
  }

  /** One turn of the phrase loop: the phrase at `i` is removed, then the rest. */
  lemma RemovePhrasesStep(cont: string, phrases: seq<string>, i: nat)
    requires forall j :: 0 <= j < |phrases| ==> |phrases[j]| > 0
    requires i < |phrases|
    ensures RemovePhrases(cont, phrases[i..]) == RemovePhrases(Strip(Replace(cont, phrases[i], "")), phrases[i + 1..])
  {
    assert phrases[i..][0] == phrases[i];
    assert phrases[i..][1..] == phrases[i + 1..];
  }

  /** `generate_stable_diffusion_prompt`: the phrase loop, then whitespace runs collapsed. */
  method GeneratePrompt(content: string) returns (cont: string)
    ensures cont == SdPrompt(content)
    ensures SingleSpaced(cont) && Stripped(cont)
  {
    TriggerPhrasesNonEmpty();
    cont := content;
    var i := 0;
    while i < |TriggerPhrases|
      invariant 0 <= i <= |TriggerPhrases|
      invariant RemovePhrases(cont, TriggerPhrases[i..]) == RemovePhrases(content, TriggerPhrases)
    {
      RemovePhrasesStep(cont, TriggerPhrases, i);
      cont := Strip(Replace(cont, TriggerPhrases[i], ""));
      i := i + 1;
    }
    cont := NormalizeSpaces(cont);
  }

  /** Removal only strips text that holds none of the phrases, case-sensitively. */
  lemma {:induction false} RemoveAbsentPhrases(cont: string, phrases: seq<string>)
    requires forall i :: 0 <= i < |phrases| ==> |phrases[i]| > 0 && !Contains(cont, phrases[i])
    requires |phrases| > 0
    ensures RemovePhrases(cont, phrases) == Strip(cont)
    decreases |phrases|
  {
    ReplaceAbsent(cont, phrases[0], "");
    var t := Strip(cont);
    if |phrases| > 1 {
      forall i | 0 <= i < |phrases[1..]|
        ensures !Contains(t, phrases[1..][i])
      {
        StripNotContains(cont, phrases[1..][i]);
      }
      RemoveAbsentPhrases(t, phrases[1..]);
      StripStripped(t);
    }
  }

  /** A capitalised trigger is accepted, because the match is on the lower-cased content. */
  lemma CapitalisedTriggerAccepted()
    ensures ShouldUse("Create art").accept
  {
    var s := "Create art";
    assert Lower(s) == "create art";
    assert OccursAt(Lower(s), TriggerPhrases[6], 0);
  }

  /** None of the phrases occurs in `Create art` as written. */
  lemma CapitalisedTriggerAbsent(i: nat)
    requires i < |TriggerPhrases|
    ensures !Contains("Create art", TriggerPhrases[i])
  {
    var s := "Create art";
    if i == 6 {
      assert forall j: nat :: j <= |s| && OccursAt(s, TriggerPhrases[6], j) ==> j == 0 && s[0] == 'c';
    }
  }

  lemma CapitalisedTriggerStripped(s: string)
    requires s == "Create art"
    ensures Strip(s) == s
  {
    assert !IsSpace(s[0]) && !IsSpace(s[|s| - 1]);
    StripStripped(s);
  }

  /** ... but not removed, because the removal is case-sensitive: `Create art` stays in the prompt. */
  lemma CapitalisedTriggerKept(s: string)
    requires s == "Create art"
    ensures RemovePhrases(s, TriggerPhrases) == s
  {
    forall i | 0 <= i < |TriggerPhrases|
      ensures !Contains(s, TriggerPhrases[i])
    {
      CapitalisedTriggerAbsent(i);
    }
    RemoveAbsentPhrases(s, TriggerPhrases);
    CapitalisedTriggerStripped(s);
  }

  /**
   * What the POST to the local Stable Diffusion API answered: its status and, for a 200, whether
   * `resp.json()`, `["images"][0]`, `["latency"]` and `b64decode` all succeeded.
   */
  datatype SdReply = SdReply(status: int, decodes: bool)

  /**
   * `process`: not triggered gives `None`; once triggered the prompt is posted to the local
   * Stable Diffusion API. An error status is reported and gives `True`. A 200 gives `True` once
   * the image is decoded and the embed built; the embed reads the author's avatar URL, so an
   * author without an avatar, like a reply that does not decode, raises. `sd` stands for that
   * POST; `None` means it raised. No completion is requested.
   */
  function Process(content: string, sd: string -> Option<SdReply>, hasAvatar: bool): (r: PluginResult)
    ensures r.NoneResult? <==> !ShouldUse(content).accept
    ensures r.Taken? <==>
      ShouldUse(content).accept && sd(SdPrompt(content)).Some? &&
      (sd(SdPrompt(content)).value.status == 200 ==> sd(SdPrompt(content)).value.decodes && hasAvatar)
    ensures r.Raised? ==> r == Raised(External)
    ensures !r.Augment? && !r.AugmentWithConfidence?
  {
    var d := ShouldUse(content);
    if !d.accept then NoneResult
    else
      match sd(SdPrompt(content))
      case None => Raised(External)
      case Some(reply) =>
        if reply.status != 200 then Taken
        else if !reply.decodes || !hasAvatar then Raised(External)
        else Taken
  }
}
