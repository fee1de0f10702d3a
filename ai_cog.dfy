/**
 * The AI cog: the per-user context store, the blacklist, owner-only mode and the request
 * counter, the message listener that routes a message into a round, and the admin commands
 * that change that state.
 */
module AICog {
  import opened Wrappers
  import opened TextUtil
  import opened Chat
  import opened PluginBase
  import opened Router

  /** The fields of `ai_config` the cog reads at start-up. */
  datatype AiConfig = AiConfig(systemPrompt: string, blacklist: seq<UserId>, totalRequests: nat, models: Models)

  /** The index of the first `x` in `xs`, if there is one. */
  function FirstIndex(xs: seq<UserId>, x: UserId): (r: Option<nat>)
    ensures r.None? <==> x !in xs
    ensures r.Some? ==> r.value < |xs| && xs[r.value] == x && forall j :: 0 <= j < r.value ==> xs[j] != x
    decreases |xs|
  {
    if |xs| == 0 then None
    else if xs[0] == x then Some(0)
    else
      match FirstIndex(xs[1..], x)
      case None => None
      case Some(i) => Some(i + 1)
  }

  /**
   * `list.remove(x)`: the list without its first `x`, or `None` where Python raises
   * `ValueError` because `x` is absent.
   */
  function Remove(xs: seq<UserId>, x: UserId): (r: Option<seq<UserId>>)
    ensures r.None? <==> x !in xs
    ensures r.Some? ==> |r.value| == |xs| - 1 && multiset(r.value) == multiset(xs) - multiset{x}
    ensures r.Some? ==> exists i :: 0 <= i < |xs| && xs[i] == x && (forall j :: 0 <= j < i ==> xs[j] != x) &&
                                    r.value == xs[..i] + xs[i + 1..]
  {
    match FirstIndex(xs, x)
    case None => None
    case Some(i) =>
      assert xs == xs[..i] + [x] + xs[i + 1..];
      assert multiset(xs) == multiset(xs[..i]) + multiset{x} + multiset(xs[i + 1..]);
      assert xs[i] == x;
      Some(xs[..i] + xs[i + 1..])
  }

  /**
   * Blacklisting an id that was not listed appends it once, so unblacklisting it removes it
   * and gives back the list, and the second removal then fails.
   */
  lemma RemoveAppended(xs: seq<UserId>, x: UserId)
    requires x !in xs
    ensures Remove(xs + [x], x) == Some(xs)
    ensures Remove(xs, x).None?
    ensures multiset(xs + [x])[x] == 1
  {
    assert multiset(xs)[x] == 0;
    var i := FirstIndex(xs + [x], x).value;
    assert i == |xs|;
    assert (xs + [x])[..i] + (xs + [x])[i + 1..] == xs;
  }

  /** Taking `x` out twice, one at a time, is taking out two copies; with one copy, the second does nothing. */
  lemma MinusTwice(m: multiset<UserId>, x: UserId)
    requires m[x] > 0
    ensures m - multiset{x} - multiset{x} == m - multiset{x, x}
    ensures m[x] == 1 ==> m - multiset{x} == m - multiset{x, x}
  {
    assert multiset{x, x} == multiset{x} + multiset{x};
  }

  datatype BlacklistOutcome = AlreadyListed | Added

  /**
   * How `unblacklist` ends: the id was not listed; it was removed twice (it was listed more
   * than once); or the first removal went through and the second one raised.
   */
  datatype UnblacklistOutcome = NotListed | Removed | RemovedThenRaised

  /**
   * `unblacklist`'s effect on the list: nothing when `id` is absent; otherwise the first
   * occurrence is removed, then the first occurrence of what is left, and when none is left
   * the second removal raises with the first one kept.
   */
  function UnblacklistOf(list: seq<UserId>, id: UserId): (r: (UnblacklistOutcome, seq<UserId>))
    ensures r.0 == NotListed <==> id !in list
    ensures r.0 == NotListed ==> r.1 == list
  {
    if id !in list then (NotListed, list)
    else
      var once := Remove(list, id).value;
      match Remove(once, id)
      case None => (RemovedThenRaised, once)
      case Some(twice) => (Removed, twice)
  }

  /**
   * Counted: an absent id leaves the list alone; an id listed once is removed and the second
   * removal raises; an id listed more often is removed twice. Either way two copies are gone.
   */
  lemma UnblacklistCounts(list: seq<UserId>, id: UserId)
    ensures var o := UnblacklistOf(list, id);
      (o.0 == NotListed <==> id !in list) &&
      (o.0 == RemovedThenRaised <==> multiset(list)[id] == 1) &&
      (o.0 == Removed <==> multiset(list)[id] >= 2) &&
      multiset(o.1) == multiset(list) - multiset{id, id}
    ensures var o := UnblacklistOf(list, id);
      (o.0 == NotListed ==> o.1 == list) &&
      (o.0 == RemovedThenRaised ==> Remove(list, id) == Some(o.1) && id !in o.1)
  {
    var m := multiset(list);
    if id !in list {
      assert m[id] == 0;
      assert m - multiset{id, id} == m;
    } else {
      var once := Remove(list, id).value;
      assert multiset(once) == m - multiset{id};
      assert multiset(once)[id] == m[id] - 1;
      MinusTwice(m, id);
      var second := Remove(once, id);
      if second.None? {
        assert m[id] == 1;
        assert UnblacklistOf(list, id) == (RemovedThenRaised, once);
      } else {
        assert multiset(second.value) == multiset(once) - multiset{id};
        assert m[id] >= 2;
        assert UnblacklistOf(list, id) == (Removed, second.value);
      }
    }
  }

  /** What `get_context` does: refuse, report that there is no context, or send the redacted context. */
  datatype Export = Refused | NoContext(target: UserId) | Exported(target: UserId, entries: seq<Entry>)

  /** The name used for `system_prompt`'s date. */
  const DateField := "{date}"

  /** The redaction loop's inner loop: every inline image URL in the entry's part list becomes the placeholder. */
  method RedactParts(e: Entry) returns (r: Entry)
    ensures r == RedactEntry(e)
  {
    if e.content.Text? {
      return e;
    }
    var ps := e.content.parts;
    var i := 0;
    while i < |ps|
      invariant 0 <= i <= |ps| == |e.content.parts|
      invariant forall j :: 0 <= j < i ==> ps[j] == RedactPart(e.content.parts[j])
      invariant forall j :: i <= j < |ps| ==> ps[j] == e.content.parts[j]
    {
      if IsInlineImage(ps[i]) {
        ps := ps[i := ImageUrlPart(Placeholder)];
      }
      i := i + 1;
    }
    r := Entry(e.role, Parts(ps));
    assert r.content.parts == RedactEntry(e).content.parts;
  }

  /** `get_context`'s loop over the entries of the (shallow) copy. */
  method RedactStored(stored: seq<Entry>) returns (entries: seq<Entry>)
    ensures entries == Redact(stored)
  {
    entries := stored;
    var i := 0;
    while i < |entries|
      invariant 0 <= i <= |entries| == |stored|
      invariant forall j :: 0 <= j < i ==> entries[j] == RedactEntry(stored[j])
      invariant forall j :: i <= j < |entries| ==> entries[j] == stored[j]
    {
      var redacted := RedactParts(entries[i]);
      entries := entries[i := redacted];
      i := i + 1;
    }
  }

  class Cog {
    /** `self.context`: each user's stored turns. */
    var context: map<UserId, seq<Entry>>
    /** `self.blacklist_ids`, which is the very list `ai_config["blacklist"]`. */
    var blacklist: seq<UserId>
    var ownerOnly: bool
    /** `ai_config["total_requests"]`. */
    var totalRequests: nat
    /** The content of the single entry of `self.system_prompt`. */
    var systemText: string
    /** `ai_config["system_prompt"]`, the stored prompt before its date is filled in. */
    var configPrompt: string
    /** `ai_config["models"]`. */
    var models: Models
    const gptChannel: int
    const chain: seq<PluginKind>

    /** Every stored context is one or more whole rounds: a user turn, then the reply to it. */
    predicate Valid()
      reads this
    {
      forall u :: u in context ==> Paired(context[u]) && |context[u]| >= 2
    }

    /** `__init__`: no contexts, the configured blacklist, the date filled into the prompt, the default chain. */
    constructor(config: AiConfig, date: string, gptChannel: int)
      ensures Valid()
      ensures context == map[] && blacklist == config.blacklist && !ownerOnly
      ensures totalRequests == config.totalRequests && models == config.models
      ensures systemText == Replace(config.systemPrompt, DateField, date) && configPrompt == config.systemPrompt
      ensures this.gptChannel == gptChannel && chain == DefaultChain
    {
      context := map[];
      blacklist := config.blacklist;
      ownerOnly := false;
      totalRequests := config.totalRequests;
      systemText := Replace(config.systemPrompt, DateField, date);
      configPrompt := config.systemPrompt;
      models := config.models;
      this.gptChannel := gptChannel;
      chain := DefaultChain;
    }

    /** `increment_requests`: one more request counted, nothing else changed. */
    method IncrementRequests()
      modifies this
      ensures totalRequests == old(totalRequests) + 1
      ensures context == old(context) && blacklist == old(blacklist) && ownerOnly == old(ownerOnly)
      ensures systemText == old(systemText) && configPrompt == old(configPrompt) && models == old(models)
    {
      totalRequests := totalRequests + 1;
    }

    /**
     * `handle_gpt`: the plugin loop, then the takeover, the failure or the completion; the
     * context is extended before the reply is sent and the counter only after it was.
     */
    method HandleGpt(msg: Message, w: World) returns (outcome: Outcome)
      requires Valid()
      modifies this
      ensures Valid()
      ensures var r := RoundOf(old(context), old(systemText), old(models), chain, msg, w);
        outcome == r.outcome && context == r.context &&
        totalRequests == old(totalRequests) + (if r.counted then 1 else 0)
      ensures blacklist == old(blacklist) && ownerOnly == old(ownerOnly)
      ensures systemText == old(systemText) && configPrompt == old(configPrompt) && models == old(models)
    {
      ghost var ctx := context;
      var input := InputOf(context, msg);
      var sel, invoked := Dispatch(chain, RunAll(input, w));
      var route := RouteOf(chain, sel, input.content);
      assert route == RouteFor(ctx, chain, msg, w);
      RouteForIsSound(ctx, chain, msg, w);
      outcome := Respond(msg, w, route);
      CompleteKeepsPaired(ctx, old(systemText), old(models), msg, w, route);
    }

    /** The two appends of a completed round: the user turn, then the reply. */
    method Record(author: UserId, turn: Entry, reply: Entry)
      modifies this
      ensures context == old(context)[author := StoredOf(old(context), author) + [turn, reply]]
      ensures totalRequests == old(totalRequests) && blacklist == old(blacklist) && ownerOnly == old(ownerOnly)
      ensures systemText == old(systemText) && configPrompt == old(configPrompt) && models == old(models)
    {
      if author in context {
        context := context[author := context[author] + [turn]];
      } else {
        context := context[author := [turn]];
      }
      assert context[author] == StoredOf(old(context), author) + [turn];
      context := context[author := context[author] + [reply]];
      assert StoredOf(old(context), author) + [turn] + [reply] == StoredOf(old(context), author) + [turn, reply];
    }

    /** What `handle_gpt` does once the loop has decided the route. */
    method Respond(msg: Message, w: World, route: Route) returns (outcome: Outcome)
      requires Valid()
      requires route.RouteFailed? ==> route.fault.PluginRaised? || route.fault == NotAPrompt
      requires route.RoutePrompt? ==> route.entry.role == User
      modifies this
      ensures Valid()
      ensures var r := Complete(old(context), old(systemText), old(models), msg, w, route);
        outcome == r.outcome && context == r.context &&
        totalRequests == old(totalRequests) + (if r.counted then 1 else 0)
      ensures blacklist == old(blacklist) && ownerOnly == old(ownerOnly)
      ensures systemText == old(systemText) && configPrompt == old(configPrompt) && models == old(models)
    {
      ghost var ctx := context;
      CompleteKeepsPaired(ctx, systemText, models, msg, w, route);
      match route {
        case RouteFailed(f) =>
          outcome := Failed(f);
        case RouteTaken =>
          IncrementRequests();
          outcome := TakenOver;
        case RoutePrompt(fragment) =>
          var stored := StoredOf(context, msg.author);
          var request := RequestOf(systemText, models, msg, stored, fragment);
          var completion := w.complete(request);
          if completion.None? {
            outcome := Failed(CompletionRaised);
          } else if completion.value.elapsedThousandths == 0 {
            outcome := Failed(ZeroElapsed);
          } else {
            var response := completion.value.text;
            Record(msg.author, fragment, AssistantReply(response));
            if Delivers(response, msg, w) {
              IncrementRequests();
              outcome := Answered(response);
            } else {
              outcome := Failed(SendFailed);
            }
          }
      }
    }

    /** `on_message`: the gate, then a round for a message that passes it. */
    method OnMessage(msg: Message, w: World) returns (gate: Gate, outcome: Option<Outcome>)
      requires Valid()
      modifies this
      ensures Valid()
      ensures gate == GateOf(msg, old(blacklist), old(ownerOnly), gptChannel)
      ensures gate == Route ==>
        var r := RoundOf(old(context), old(systemText), old(models), chain, msg, w);
        outcome == Some(r.outcome) && context == r.context &&
        totalRequests == old(totalRequests) + (if r.counted then 1 else 0)
      ensures gate != Route ==> outcome.None? && context == old(context) && totalRequests == old(totalRequests)
      ensures blacklist == old(blacklist) && ownerOnly == old(ownerOnly)
      ensures systemText == old(systemText) && configPrompt == old(configPrompt) && models == old(models)
    {
      gate := GateOf(msg, blacklist, ownerOnly, gptChannel);
      if gate == Route {
        var o := HandleGpt(msg, w);
        outcome := Some(o);
      } else {
        outcome := None;
      }
    }

    /** `ai` (reset): drop the caller's context, if there is one. */
    method Reset(caller: UserId) returns (cleared: bool)
      requires Valid()
      modifies this
      ensures Valid()
      ensures cleared <==> caller in old(context)
      ensures context == old(context) - {caller}
      ensures caller !in context && forall u :: u in old(context) && u != caller ==> u in context && context[u] == old(context)[u]
      ensures blacklist == old(blacklist) && ownerOnly == old(ownerOnly) && totalRequests == old(totalRequests)
      ensures systemText == old(systemText) && configPrompt == old(configPrompt) && models == old(models)
    {
      if caller !in context {
        assert context - {caller} == context;
        return false;
      }
      context := context - {caller};
      return true;
    }

    /** `resetall`, for the owner: every context dropped. */
    method ResetAll(callerIsOwner: bool)
      requires Valid()
      modifies this
      ensures Valid()
      ensures context == (if callerIsOwner then map[] else old(context))
      ensures blacklist == old(blacklist) && ownerOnly == old(ownerOnly) && totalRequests == old(totalRequests)
      ensures systemText == old(systemText) && configPrompt == old(configPrompt) && models == old(models)
    {
      if callerIsOwner {
        context := map[];
      }
    }

    /**
     * `set_prompt`, for the owner: the new text is used as it is (no date filled in), stored
     * in the configuration, and every context is dropped. Returns the prompt it replaced.
     */
    method SetPrompt(callerIsOwner: bool, prompt: string) returns (before: Option<string>)
      requires Valid()
      modifies this
      ensures Valid()
      ensures callerIsOwner ==> before == Some(old(systemText)) && systemText == prompt && configPrompt == prompt && context == map[]
      ensures !callerIsOwner ==> before.None? && systemText == old(systemText) && configPrompt == old(configPrompt) && context == old(context)
      ensures blacklist == old(blacklist) && ownerOnly == old(ownerOnly) && totalRequests == old(totalRequests)
      ensures models == old(models)
    {
      if !callerIsOwner {
        return None;
      }
      before := Some(systemText);
      systemText := prompt;
      configPrompt := prompt;
      context := map[];
    }

    /** `set_model`, for the owner: both model names replaced. */
    method SetModel(callerIsOwner: bool, text: string, vision: string)
      requires Valid()
      modifies this
      ensures Valid()
      ensures models == (if callerIsOwner then Models(text, vision) else old(models))
      ensures context == old(context) && blacklist == old(blacklist) && ownerOnly == old(ownerOnly)
      ensures totalRequests == old(totalRequests) && systemText == old(systemText) && configPrompt == old(configPrompt)
    {
      if callerIsOwner {
        models := Models(text, vision);
      }
    }

    /** `blacklist`, for the owner: an id already listed is refused, any other is appended once. */
    method Blacklist(callerIsOwner: bool, id: UserId) returns (r: Option<BlacklistOutcome>)
      requires Valid()
      modifies this
      ensures Valid()
      ensures !callerIsOwner ==> r.None? && blacklist == old(blacklist)
      ensures callerIsOwner && id in old(blacklist) ==> r == Some(AlreadyListed) && blacklist == old(blacklist)
      ensures callerIsOwner && id !in old(blacklist) ==> r == Some(Added) && blacklist == old(blacklist) + [id]
      ensures id in blacklist <==> id in old(blacklist) || callerIsOwner
      ensures context == old(context) && ownerOnly == old(ownerOnly) && totalRequests == old(totalRequests)
      ensures systemText == old(systemText) && configPrompt == old(configPrompt) && models == old(models)
    {
      if !callerIsOwner {
        return None;
      }
      if id in blacklist {
        return Some(AlreadyListed);
      }
      blacklist := blacklist + [id];
      r := Some(Added);
    }

    /**
     * `unblacklist`, for the owner. The id is removed from `ai_config["blacklist"]` and then
     * from `blacklist_ids`, which is the same list, so an id listed once is gone after the
     * first removal and the second one raises.
     */
    method Unblacklist(callerIsOwner: bool, id: UserId) returns (r: Option<UnblacklistOutcome>)
      requires Valid()
      modifies this
      ensures Valid()
      ensures !callerIsOwner ==> r.None? && blacklist == old(blacklist)
      ensures callerIsOwner ==> r == Some(UnblacklistOf(old(blacklist), id).0) && blacklist == UnblacklistOf(old(blacklist), id).1
      ensures context == old(context) && ownerOnly == old(ownerOnly) && totalRequests == old(totalRequests)
      ensures systemText == old(systemText) && configPrompt == old(configPrompt) && models == old(models)
    {
      if !callerIsOwner {
        return None;
      }
      var o := UnblacklistOf(blacklist, id);
      blacklist := o.1;
      r := Some(o.0);
    }

    /** `toggle_owner_only`, for the owner: owner-only mode flipped. */
    method ToggleOwnerOnly(callerIsOwner: bool)
      requires Valid()
      modifies this
      ensures Valid()
      ensures ownerOnly == (if callerIsOwner then !old(ownerOnly) else old(ownerOnly))
      ensures context == old(context) && blacklist == old(blacklist) && totalRequests == old(totalRequests)
      ensures systemText == old(systemText) && configPrompt == old(configPrompt) && models == old(models)
    {
      if callerIsOwner {
        ownerOnly := !ownerOnly;
      }
    }

    /**
     * `get_context`: the named user's context (the caller's by default; another user's only
     * for the owner) with its inline images redacted. The copy is shallow, so the redaction
     * rewrites the stored entries too.
     */
    method GetContext(caller: UserId, callerIsOwner: bool, user: Option<UserId>) returns (e: Export)
      requires Valid()
      modifies this
      ensures Valid()
      ensures e == Refused <==> user.Some? && !callerIsOwner && user.value != caller
      ensures var target := if user.Some? then user.value else caller;
        e.NoContext? <==> e != Refused && target !in old(context)
      ensures e.NoContext? ==> e.target == (if user.Some? then user.value else caller)
      ensures !e.Exported? ==> context == old(context)
      ensures e.Exported? ==> var target := if user.Some? then user.value else caller;
        e.target == target && target in old(context) && e.entries == Redact(old(context)[target]) &&
        context == old(context)[target := e.entries]
      ensures e.Exported? ==> NoInlineImage(e.entries)
      ensures blacklist == old(blacklist) && ownerOnly == old(ownerOnly) && totalRequests == old(totalRequests)
      ensures systemText == old(systemText) && configPrompt == old(configPrompt) && models == old(models)
    {
      var target := if user.Some? then user.value else caller;
      if user.Some? && !callerIsOwner && user.value != caller {
        return Refused;
      }
      if target !in context {
        return NoContext(target);
      }
      ghost var stored := context[target];
      var entries := RedactStored(context[target]);
      RedactProperties(stored);
      context := context[target := entries];
      e := Exported(target, entries);
    }
  }
}
