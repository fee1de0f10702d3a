/**
 * One round of `handle_gpt`: the plugins are asked in order, the first to answer decides
 * the round, and otherwise the message goes to the completion with the user's stored context.
 * Also the gate of `on_message` that decides whether a message starts a round.
 */
module Router {
  import opened Wrappers
  import opened TextUtil
  import opened Base64
  import opened Chat
  import opened PluginBase
  import opened ResponseSplit
  import ImagesPlugin
  import RedditPlugin
  import YouTubePlugin
  import ImageGenPlugin
  import ShellPlugin
  import WebPlugin
  import TwitterPlugin

  /** The plugin list built by the cog's constructor, in order. */
  const DefaultChain: seq<PluginKind> := [Images, Reddit, YouTube, ImageGen, Shell, Web]

  /** The chat-completion request: the model and the message list. */
  datatype Request = Request(model: string, messages: seq<Entry>)

  /** A completion: its text and the elapsed time as `round(_, 3)` gives it, in thousandths of a second. */
  datatype Completion = Completion(text: string, elapsedThousandths: nat)

  /**
   * Everything outside the bot a round depends on: each plugin's remote calls, the
   * completion (`None` when it raised), and whether the Discord edits and replies of
   * `send_response` and the SSH connection it opens for code blocks succeed.
   */
  datatype World = World(
    download: string -> Option<seq<Byte>>,
    redditFetch: string -> Option<RedditPlugin.Post>,
    transcribe: string -> Option<YouTubePlugin.Video>,
    sd: string -> Option<ImageGenPlugin.SdReply>,
    shellCheck: string -> Option<string>,
    shellGenerate: string -> Option<string>,
    shellHost: ShellPlugin.Host,
    web: WebPlugin.Remote,
    profile: string -> Option<TwitterPlugin.ProfilePage>,
    complete: Request -> Option<Completion>,
    discordOk: bool,
    sshOk: bool)

  /** The arguments of `process`: the message, its content without leading `;`, and the recent context. */
  datatype Input = Input(msg: Message, content: string, recent: seq<Entry>)

  /** `plugin.process(...)` for each kind of plugin. */
  function Run(k: PluginKind, input: Input, w: World): (r: PluginResult)
    ensures r.Taken? ==> NormalTakeover(k)
    ensures r.Augment? || r.AugmentWithConfidence? ==> !NormalTakeover(k) && r.entry.role == User
    ensures r.AugmentWithConfidence? ==> k == Web
    ensures r == Raised(UnpackBool) ==> k == Web && ImagesPlugin.HasImageFirst(input.msg.attachments)
    ensures k == Images && r == NoneResult ==> !ImagesPlugin.HasImageFirst(input.msg.attachments)
  {
    TakeoverKinds(k);
    match k
    case Images => ImagesPlugin.Process(input.msg, input.content, w.download)
    case Reddit => RedditPlugin.Process(input.content, w.redditFetch)
    case YouTube => YouTubePlugin.Process(input.content, w.transcribe)
    case ImageGen => ImageGenPlugin.Process(input.content, w.sd, input.msg.hasAvatar)
    case Shell => ShellPlugin.Process(input.content, w.shellCheck, w.shellGenerate, w.shellHost, input.msg.hasAvatar).result
    case Web => WebPlugin.Process(input.msg, input.content, input.recent, w.web)
    case Twitter => TwitterPlugin.Process(input.content, w.profile)
  }

  /** A result that ends the loop: a truthy value, or an exception that leaves it. */
  predicate Stops(r: PluginResult) {
    Truthy(r) || r.Raised?
  }

  /** Which plugin ended the loop, with its result, or none of them. */
  datatype Selection = NoneAccepted | Stopped(index: nat, result: PluginResult)

  function SelectFrom(chain: seq<PluginKind>, i: nat, run: PluginKind -> PluginResult): (s: Selection)
    requires i <= |chain|
    ensures s.Stopped? ==> i <= s.index < |chain| && s.result == run(chain[s.index]) && Stops(s.result)
    ensures s.Stopped? ==> forall j :: i <= j < s.index ==> run(chain[j]) == NoneResult
    ensures s.NoneAccepted? <==> forall j :: i <= j < |chain| ==> run(chain[j]) == NoneResult
    decreases |chain| - i
  {
    if i == |chain| then NoneAccepted
    else if Stops(run(chain[i])) then Stopped(i, run(chain[i]))
    else SelectFrom(chain, i + 1, run)
  }

  /**
   * The `for ... else` over the chain: the first plugin whose result is truthy or raised;
   * `run` gives each plugin's result for the round's input.
   */
  function Select(chain: seq<PluginKind>, run: PluginKind -> PluginResult): (s: Selection)
    ensures s.Stopped? ==> s.index < |chain| && s.result == run(chain[s.index]) && Stops(s.result)
    ensures s.Stopped? ==> forall j :: 0 <= j < s.index ==> run(chain[j]) == NoneResult
    ensures s.NoneAccepted? <==> forall j :: 0 <= j < |chain| ==> run(chain[j]) == NoneResult
  {
    SelectFrom(chain, 0, run)
  }

  /** The loop itself: plugins are invoked in order, and none after the one that ends it. */
  method Dispatch(chain: seq<PluginKind>, run: PluginKind -> PluginResult) returns (sel: Selection, invoked: seq<PluginKind>)
    ensures sel == Select(chain, run)
    ensures sel.Stopped? ==> invoked == chain[..sel.index + 1]
    ensures sel.NoneAccepted? ==> invoked == chain
  {
    invoked := [];
    var i := 0;
    while i < |chain|
      invariant 0 <= i <= |chain|
      invariant invoked == chain[..i]
      invariant SelectFrom(chain, i, run) == Select(chain, run)
    {
      var r := run(chain[i]);
      invoked := invoked + [chain[i]];
      if Stops(r) {
        assert invoked == chain[..i + 1];
        return Stopped(i, r), invoked;
      }
      i := i + 1;
    }
    return NoneAccepted, invoked;
  }

  /** Each plugin's result on the round's input. */
  function RunAll(input: Input, w: World): PluginKind -> PluginResult {
    k => Run(k, input, w)
  }

  /** In the default chain Web comes after Images, which has already claimed every image, so no round unpacks a bare `False`. */
  lemma DefaultChainNoUnpackBool(input: Input, w: World)
    ensures Select(DefaultChain, RunAll(input, w)).Stopped? ==>
              Select(DefaultChain, RunAll(input, w)).result != Raised(UnpackBool)
  {
    var run := RunAll(input, w);
    var s := Select(DefaultChain, run);
    if s.Stopped? {
      assert s.result == Run(DefaultChain[s.index], input, w);
      if s.index > 0 {
        assert run(DefaultChain[0]) == NoneResult;
        assert Run(Images, input, w) == NoneResult;
      }
    }
  }

  /** The prompt list a non-takeover plugin gave: the entry of a one-element list or of a pair. */
  function PromptOf(r: PluginResult): Option<Entry> {
    match r
    case Augment(e) => Some(e)
    case AugmentWithConfidence(e, _) => Some(e)
    case _ => None
  }

  /** The entry of the round: a plugin's, or the content as a plain user turn when none answered. */
  function FragmentOf(sel: Selection, content: string): Option<Entry> {
    if sel.Stopped? then PromptOf(sel.result) else Some(UserText(content))
  }

  /** Why a round ended without an answer. */
  datatype RoundFault =
    | PluginRaised(fault: Fault)   // a plugin's `process` raised
    | NotAPrompt                   // a truthy result of a non-takeover plugin that is no prompt list
    | CompletionRaised             // the completion call raised
    | ZeroElapsed                  // `round(time, 3)` gave 0.0, so tokens per second divides by zero
    | SendFailed                   // `send_response` raised

  /** What the loop decided: the round failed, was taken over, or goes on with an entry. */
  datatype Route = RouteFailed(fault: RoundFault) | RouteTaken | RoutePrompt(entry: Entry)

  /** The branch after the loop: takeover, the unpack of the result, or the `else` fallback. */
  function RouteOf(chain: seq<PluginKind>, sel: Selection, content: string): (r: Route)
    requires sel.Stopped? ==> sel.index < |chain| && Stops(sel.result)
    ensures r == RouteTaken <==> (sel.Stopped? && Truthy(sel.result) &&
                                  (chain[sel.index] == Shell || chain[sel.index] == ImageGen))
    ensures sel.NoneAccepted? ==> r == RoutePrompt(UserText(content))
    ensures sel.Stopped? && sel.result.Raised? ==> r == RouteFailed(PluginRaised(sel.result.fault))
    ensures r == RouteFailed(NotAPrompt) ==> sel.Stopped? && sel.result.Taken? && !NormalTakeover(chain[sel.index])
    ensures r.RoutePrompt? && sel.Stopped? ==> PromptOf(sel.result) == Some(r.entry)
    ensures r.RouteFailed? ==> r.fault.PluginRaised? || r.fault == NotAPrompt
  {
    if sel.NoneAccepted? then RoutePrompt(UserText(content))
    else
      TakeoverKinds(chain[sel.index]);
      if sel.result.Raised? then RouteFailed(PluginRaised(sel.result.fault))
      else if NormalTakeover(chain[sel.index]) then RouteTaken
      else
        match PromptOf(sel.result)
        case None => RouteFailed(NotAPrompt)
        case Some(e) => RoutePrompt(e)
  }

  datatype Outcome = TakenOver | Answered(response: string) | Failed(fault: RoundFault)

  /** The result of one round: how it ended, the contexts after it, whether it was counted, and the request sent. */
  datatype Round = Round(outcome: Outcome, context: map<UserId, seq<Entry>>, counted: bool, request: Option<Request>)

  datatype Models = Models(text: string, vision: string)

  function StoredOf(ctx: map<UserId, seq<Entry>>, user: UserId): seq<Entry> {
    if user in ctx then ctx[user] else []
  }

  function InputOf(ctx: map<UserId, seq<Entry>>, msg: Message): (input: Input)
    ensures input.recent == Recent(StoredOf(ctx, msg.author)) && |input.recent| <= 4
    ensures input.content == LStripChar(msg.content, ';')
  {
    Input(msg, LStripChar(msg.content, ';'), Recent(StoredOf(ctx, msg.author)))
  }

  /** The route a message takes through the plugin chain. */
  function RouteFor(ctx: map<UserId, seq<Entry>>, chain: seq<PluginKind>, msg: Message, w: World): Route {
    RouteOf(chain, Select(chain, RunAll(InputOf(ctx, msg), w)), InputOf(ctx, msg).content)
  }

  /** A plugin never hands back a bare `True` unless it takes over, and its entries are user turns. */
  lemma RouteForIsSound(ctx: map<UserId, seq<Entry>>, chain: seq<PluginKind>, msg: Message, w: World)
    ensures RouteFor(ctx, chain, msg, w) != RouteFailed(NotAPrompt)
    ensures RouteFor(ctx, chain, msg, w).RoutePrompt? ==> RouteFor(ctx, chain, msg, w).entry.role == User
  {
    var input := InputOf(ctx, msg);
    var run := RunAll(input, w);
    var sel := Select(chain, run);
    var r := RouteOf(chain, sel, input.content);
    assert RouteFor(ctx, chain, msg, w) == r;
    if sel.Stopped? {
      var k := chain[sel.index];
      assert sel.result == run(k) == Run(k, input, w);
      ResultRouteIsSound(k, input, w);
    }
  }

  /** What a single plugin hands back never makes a `RouteFailed(NotAPrompt)` or a non-user entry. */
  lemma ResultRouteIsSound(k: PluginKind, input: Input, w: World)
    ensures Run(k, input, w).Taken? ==> NormalTakeover(k)
    ensures PromptOf(Run(k, input, w)).Some? ==> PromptOf(Run(k, input, w)).value.role == User
  {
  }

  /** `send_response` completes: a message to edit, an avatar for the colour, and SSH when code is offered. */
  predicate Delivers(response: string, msg: Message, w: World) {
    |Chunks(response)| > 0 && msg.hasAvatar && w.discordOk && (CodeBlocks(response) == [] || w.sshOk)
  }

  /** The request of a round: the system turn, the whole stored context (not the recent window), the entry. */
  function RequestOf(systemText: string, models: Models, msg: Message, stored: seq<Entry>, fragment: Entry): (req: Request)
    ensures req.model == (if |msg.attachments| > 0 then models.vision else models.text)
    ensures |req.messages| == |stored| + 2
    ensures req.messages[0] == Entry(System, Text(systemText))
    ensures req.messages[1..|stored| + 1] == stored && req.messages[|stored| + 1] == fragment
  {
    var ms := [Entry(System, Text(systemText))] + stored + [fragment];
    assert ms[1..|stored| + 1] == stored;
    Request(if |msg.attachments| > 0 then models.vision else models.text, ms)
  }

  /** The round after the route is known. */
  function Complete(ctx: map<UserId, seq<Entry>>, systemText: string, models: Models, msg: Message, w: World,
                    route: Route): (r: Round)
    requires route.RouteFailed? ==> route.fault.PluginRaised? || route.fault == NotAPrompt
    ensures r.counted <==> r.outcome.TakenOver? || r.outcome.Answered?
    ensures r.outcome.TakenOver? <==> route == RouteTaken
    ensures r.outcome.TakenOver? ==> r.context == ctx && r.request.None?
    ensures route.RouteFailed? ==> r == Round(Failed(route.fault), ctx, false, None)
    ensures r.outcome.Failed? && r.outcome.fault != SendFailed ==> r.context == ctx
    ensures route.RoutePrompt? ==> r.request == Some(RequestOf(systemText, models, msg, StoredOf(ctx, msg.author), route.entry))
    ensures r.outcome.Answered? || r.outcome == Failed(SendFailed) ==>
      route.RoutePrompt? && w.complete(r.request.value).Some? && w.complete(r.request.value).value.elapsedThousandths > 0 &&
      r.context == ctx[msg.author := StoredOf(ctx, msg.author) + [route.entry, AssistantReply(w.complete(r.request.value).value.text)]]
    ensures r.outcome.Answered? <==>
      (route.RoutePrompt? && w.complete(r.request.value).Some? && w.complete(r.request.value).value.elapsedThousandths > 0 &&
       Delivers(w.complete(r.request.value).value.text, msg, w))
    ensures r.outcome.Answered? ==> r.outcome.response == w.complete(r.request.value).value.text
    ensures r.context == ctx || r.outcome.Answered? || r.outcome == Failed(SendFailed)
  {
    match route
    case RouteFailed(f) => Round(Failed(f), ctx, false, None)
    case RouteTaken => Round(TakenOver, ctx, true, None)
    case RoutePrompt(fragment) =>
      var stored := StoredOf(ctx, msg.author);
      var req := RequestOf(systemText, models, msg, stored, fragment);
      match w.complete(req)
      case None => Round(Failed(CompletionRaised), ctx, false, Some(req))
      case Some(c) =>
        if c.elapsedThousandths == 0 then Round(Failed(ZeroElapsed), ctx, false, Some(req))
        else
          var ctx' := ctx[msg.author := stored + [fragment, AssistantReply(c.text)]];
          if Delivers(c.text, msg, w) then Round(Answered(c.text), ctx', true, Some(req))
          else Round(Failed(SendFailed), ctx', false, Some(req))
  }

  /** `handle_gpt` for one message, as a function of the state before it. */
  function RoundOf(ctx: map<UserId, seq<Entry>>, systemText: string, models: Models, chain: seq<PluginKind>,
                   msg: Message, w: World): (r: Round)
  {
    Complete(ctx, systemText, models, msg, w, RouteFor(ctx, chain, msg, w))
  }

  /** Exactly the takeover plugins take the round over, and only with a truthy result. */
  lemma TakeoverIffTakeoverPlugin(ctx: map<UserId, seq<Entry>>, systemText: string, models: Models,
                                  chain: seq<PluginKind>, msg: Message, w: World)
    ensures var sel := Select(chain, RunAll(InputOf(ctx, msg), w));
      RoundOf(ctx, systemText, models, chain, msg, w).outcome.TakenOver? <==>
        (sel.Stopped? && Truthy(sel.result) && (chain[sel.index] == Shell || chain[sel.index] == ImageGen))
  {
  }

  /** Without a plugin answering, the request ends with the content as a plain user turn. */
  lemma FallbackRequest(ctx: map<UserId, seq<Entry>>, systemText: string, models: Models,
                        chain: seq<PluginKind>, msg: Message, w: World)
    requires forall j :: 0 <= j < |chain| ==> Run(chain[j], InputOf(ctx, msg), w) == NoneResult
    ensures RoundOf(ctx, systemText, models, chain, msg, w).request ==
      Some(RequestOf(systemText, models, msg, StoredOf(ctx, msg.author), UserText(LStripChar(msg.content, ';'))))
  {
    var run := RunAll(InputOf(ctx, msg), w);
    assert forall j :: 0 <= j < |chain| ==> run(chain[j]) == NoneResult;
    assert Select(chain, run).NoneAccepted?;
  }

  /** Other users' contexts are never touched, and the author's changes only by a completed round. */
  lemma RoundTouchesOnlyAuthor(ctx: map<UserId, seq<Entry>>, systemText: string, models: Models,
                               chain: seq<PluginKind>, msg: Message, w: World)
    ensures var r := RoundOf(ctx, systemText, models, chain, msg, w);
      r.context.Keys <= ctx.Keys + {msg.author} &&
      forall u :: u in ctx && u != msg.author ==> u in r.context && r.context[u] == ctx[u]
  {
  }

  /** A completed round appends a user entry and the reply, so contexts stay whole rounds. */
  lemma CompleteKeepsPaired(ctx: map<UserId, seq<Entry>>, systemText: string, models: Models, msg: Message,
                            w: World, route: Route)
    requires route.RouteFailed? ==> route.fault.PluginRaised? || route.fault == NotAPrompt
    requires route.RoutePrompt? ==> route.entry.role == User
    requires forall u :: u in ctx ==> Paired(ctx[u])
    ensures var r := Complete(ctx, systemText, models, msg, w, route);
      forall u :: u in r.context ==> Paired(r.context[u])
    ensures var r := Complete(ctx, systemText, models, msg, w, route);
      forall u :: u in r.context ==> (u in ctx && r.context[u] == ctx[u]) || |r.context[u]| >= 2
  {
    var r := Complete(ctx, systemText, models, msg, w, route);
    if r.context != ctx {
      var stored := StoredOf(ctx, msg.author);
      assert Paired(stored);
      PairedAppend(stored, route.entry, AssistantReply(w.complete(r.request.value).value.text));
    }
  }

  /** Every stored context stays a sequence of whole user/assistant rounds. */
  lemma RoundKeepsPaired(ctx: map<UserId, seq<Entry>>, systemText: string, models: Models,
                         chain: seq<PluginKind>, msg: Message, w: World)
    requires forall u :: u in ctx ==> Paired(ctx[u])
    ensures var r := RoundOf(ctx, systemText, models, chain, msg, w);
      forall u :: u in r.context ==> Paired(r.context[u])
  {
    RouteForIsSound(ctx, chain, msg, w);
    CompleteKeepsPaired(ctx, systemText, models, msg, w, RouteFor(ctx, chain, msg, w));
  }

  /** What `on_message` does with a message. */
  datatype Gate = Ignore | VoiceMessage | Route

  const VoiceFile := "voice-message.ogg"

  /** `on_message`'s checks, in order: a guild and no bot, not blacklisted, owner-only mode, a voice note, the channel and `;`. */
  function GateOf(msg: Message, blacklist: seq<UserId>, ownerOnly: bool, gptChannel: int): (g: Gate)
    ensures g == Route <==> (msg.inGuild && !msg.authorIsBot && msg.author !in blacklist &&
                             (!ownerOnly || msg.authorIsOwner) &&
                             !(|msg.attachments| > 0 && msg.attachments[0].filename == VoiceFile) &&
                             msg.channel == gptChannel && StartsWith(msg.content, ";"))
    ensures g == VoiceMessage ==> |msg.attachments| > 0 && msg.author !in blacklist
  {
    if !msg.inGuild || msg.authorIsBot then Ignore
    else if msg.author in blacklist then Ignore
    else if ownerOnly && !msg.authorIsOwner then Ignore
    else if |msg.attachments| > 0 && msg.attachments[0].filename == VoiceFile then VoiceMessage
    else if msg.channel != gptChannel || !StartsWith(msg.content, ";") then Ignore
    else Route
  }
}
