/**
 * The shell plugin: a classifier reply at or above 0.60 takes the round over; generated
 * commands are cut out of code fences and run one by one in a fresh container over SSH, and
 * the transcript is shown inline or as a file.
 */
module ShellPlugin {
  import opened Wrappers
  import opened TextUtil
  import opened Confidence
  import opened PluginBase

  /** The threshold of `should_use_plugin`, in hundredths. */
  const Threshold: nat := 60

  /** `should_use_plugin` once the classifier has replied with `reply`. */
  function ShouldUse(reply: string): (d: Decision)
    ensures d.accept <==> FirstNumeral(Strip(reply)).Some? && AtLeast(FirstNumeral(Strip(reply)).value, Threshold)
    ensures FirstNumeral(Strip(reply)).None? ==> d == Decision(false, Zero)
  {
    Decide(Strip(reply), Threshold)
  }

  const Fence := "```"

  /** The text between fences after the bash and shell openers become bare fences, first piece dropped. */
  function Segments(generated: string): seq<string> {
    var t := Replace(Replace(generated, "```bash", Fence), "```shell", Fence);
    Split(t, Fence)[1..]
  }

  /** `cmd.strip().split("```")[0].strip()` for one segment. */
  function CommandOf(seg: string): (c: string)
    ensures Stripped(c) && !Contains(c, Fence)
  {
    var pieces := Split(Strip(seg), Fence);
    StripNotContains(pieces[0], Fence);
    Strip(pieces[0])
  }

  /** A segment that came out of the split holds no fence, so its command is just the stripped segment. */
  lemma CommandOfFenceFree(seg: string)
    requires !Contains(seg, Fence)
    ensures CommandOf(seg) == Strip(seg)
  {
    StripNotContains(seg, Fence);
    assert Find(Strip(seg), Fence).None?;
    assert Split(Strip(seg), Fence) == [Strip(seg)];
    StripStripped(Strip(seg));
  }

  /** The non-empty commands of the segments, in order. */
  function CommandsFrom(segs: seq<string>): (cmds: seq<string>)
    ensures forall j :: 0 <= j < |cmds| ==> |cmds[j]| > 0 && Stripped(cmds[j]) && !Contains(cmds[j], Fence)
    decreases |segs|
  {
    if |segs| == 0 then []
    else
      var c := CommandOf(segs[0]);
      if c == "" then CommandsFrom(segs[1..]) else [c] + CommandsFrom(segs[1..])
  }

  /** Every segment, text between two code blocks included, yields its stripped text as a command when that is non-empty. */
  lemma {:induction false} CommandsAreStrippedSegments(segs: seq<string>)
    requires forall j :: 0 <= j < |segs| ==> !Contains(segs[j], Fence)
    ensures CommandsFrom(segs) == NonEmptyStripped(segs)
    decreases |segs|
  {
    if |segs| > 0 {
      CommandOfFenceFree(segs[0]);
      CommandsAreStrippedSegments(segs[1..]);
    }
  }

  function NonEmptyStripped(segs: seq<string>): seq<string>
    decreases |segs|
  {
    if |segs| == 0 then []
    else if Strip(segs[0]) == "" then NonEmptyStripped(segs[1..])
    else [Strip(segs[0])] + NonEmptyStripped(segs[1..])
  }

  lemma SegmentsFenceFree(generated: string)
    ensures forall j :: 0 <= j < |Segments(generated)| ==> !Contains(Segments(generated)[j], Fence)
  {
    var t := Replace(Replace(generated, "```bash", Fence), "```shell", Fence);
    var all := Split(t, Fence);
    assert forall j :: 0 <= j < |all| - 1 ==> all[1..][j] == all[j + 1];
  }

  /** What one `exec_in_container` reports: stdout, stderr and the exit status. */
  datatype ExecOutput = ExecOutput(output: string, error: string, exitCode: int)

  /** One entry of `results`: the command as given and what it produced. */
  datatype ExecResult = ExecResult(command: string, output: string, error: string, exitCode: int)

  /** The results collected, and whether an exec raised and ended the loop. */
  datatype RunOutcome = RunOutcome(results: seq<ExecResult>, failed: bool)

  function Prepend(done: seq<ExecResult>, o: RunOutcome): RunOutcome {
    RunOutcome(done + o.results, o.failed)
  }

  /** The command each segment yields, `""` for a segment that yields none. */
  function SegmentCommands(segs: seq<string>): seq<string> {
    seq(|segs|, j requires 0 <= j < |segs| => CommandOf(segs[j]))
  }

  /** The command loop over the segments' commands: `exec` stands for `exec_in_container`; `None` means it raised. */
  function RunAll(cmds: seq<string>, exec: string -> Option<ExecOutput>): RunOutcome
    decreases |cmds|
  {
    if |cmds| == 0 then RunOutcome([], false)
    else if cmds[0] == "" then RunAll(cmds[1..], exec)
    else
      match exec(cmds[0])
      case None => RunOutcome([], true)
      case Some(o) => Prepend([ExecResult(cmds[0], o.output, o.error, o.exitCode)], RunAll(cmds[1..], exec))
  }

  /** What the loop over `segs` collects. */
  function RunSegments(segs: seq<string>, exec: string -> Option<ExecOutput>): RunOutcome {
    RunAll(SegmentCommands(segs), exec)
  }

  /** The results of `o` ran `cmds` in order: a prefix of them, all of them unless an exec raised. */
  predicate RanInOrder(o: RunOutcome, cmds: seq<string>) {
    |o.results| <= |cmds| &&
    (forall j :: 0 <= j < |o.results| ==> o.results[j].command == cmds[j]) &&
    (!o.failed ==> |o.results| == |cmds|)
  }

  lemma RanInOrderCons(r: ExecResult, o: RunOutcome, cmds: seq<string>)
    requires RanInOrder(o, cmds)
    ensures RanInOrder(Prepend([r], o), [r.command] + cmds)
  {
    var o2, cmds2 := Prepend([r], o), [r.command] + cmds;
    forall j | 0 <= j < |o2.results| ensures o2.results[j].command == cmds2[j] {
      if j > 0 {
        assert o2.results[j] == o.results[j - 1] && cmds2[j] == cmds[j - 1];
      }
    }
  }

  /** The commands run are the extracted ones, in order; all of them unless an exec raised. */
  lemma {:induction false} RunRunsCommandsInOrder(segs: seq<string>, exec: string -> Option<ExecOutput>)
    ensures RanInOrder(RunSegments(segs, exec), CommandsFrom(segs))
    decreases |segs|
  {
    if |segs| > 0 {
      var rest := segs[1..];
      RunRunsCommandsInOrder(rest, exec);
      var cs := SegmentCommands(segs);
      assert cs[1..] == SegmentCommands(rest);
      var c := cs[0];
      assert RunSegments(segs, exec) == RunAll(cs, exec);
      if c != "" && exec(c).Some? {
        var o := exec(c).value;
        RanInOrderCons(ExecResult(c, o.output, o.error, o.exitCode), RunSegments(rest, exec), CommandsFrom(rest));
      }
    }
  }

  lemma PrependAssoc(a: seq<ExecResult>, b: seq<ExecResult>, o: RunOutcome)
    ensures Prepend(a, Prepend(b, o)) == Prepend(a + b, o)
  {
    assert a + (b + o.results) == a + b + o.results;
  }

  /** One step of the command loop: an empty command runs nothing, a failing exec stops. */
  lemma RunAllStep(cmds: seq<string>, i: nat, exec: string -> Option<ExecOutput>, done: seq<ExecResult>)
    requires i < |cmds|
    requires RunAll(cmds, exec) == Prepend(done, RunAll(cmds[i..], exec))
    ensures var c := cmds[i];
      RunAll(cmds, exec) ==
        if c == "" then Prepend(done, RunAll(cmds[i + 1..], exec))
        else if exec(c).None? then RunOutcome(done, true)
        else Prepend(done + [ExecResult(c, exec(c).value.output, exec(c).value.error, exec(c).value.exitCode)],
                     RunAll(cmds[i + 1..], exec))
  {
    assert cmds[i..][1..] == cmds[i + 1..];
    assert done + [] == done;
    var c := cmds[i];
    if c != "" && exec(c).Some? {
      PrependAssoc(done, [ExecResult(c, exec(c).value.output, exec(c).value.error, exec(c).value.exitCode)],
                   RunAll(cmds[i + 1..], exec));
    }
  }

  /** The loop of `process` that runs the commands of the segments of the generated text, `Segments(generated)`, in order. */
  method RunCommands(segs: seq<string>, exec: string -> Option<ExecOutput>) returns (results: seq<ExecResult>, failed: bool)
    ensures RunOutcome(results, failed) == RunSegments(segs, exec)
  {
    ghost var cmds := SegmentCommands(segs);
    results := [];
    failed := false;
    var i := 0;
    assert cmds[0..] == cmds;
    while i < |segs|
      invariant 0 <= i <= |segs|
      invariant RunAll(cmds, exec) == Prepend(results, RunAll(cmds[i..], exec))
    {
      RunAllStep(cmds, i, exec, results);
      var cmd := CommandOf(segs[i]);
      assert cmd == cmds[i];
      if cmd != "" {
        var r := exec(cmd);
        if r.None? {
          failed := true;
          return;
        }
        results := results + [ExecResult(cmd, r.value.output, r.value.error, r.value.exitCode)];
      }
      i := i + 1;
    }
    assert results + [] == results;
  }

  /** The two lines one result contributes to the transcript. */
  function Block(r: ExecResult): string {
    "$ " + r.command + "\n" + r.output + r.error + "\n"
  }

  /** The transcript of `results`, in order. */
  function TranscriptOf(rs: seq<ExecResult>): (r: string)
    ensures r == "" <==> |rs| == 0
    decreases |rs|
  {
    if |rs| == 0 then "" else TranscriptOf(rs[..|rs| - 1]) + Block(rs[|rs| - 1])
  }

  /** The transcript of two runs is the two transcripts one after the other. */
  lemma {:induction false} TranscriptAppend(a: seq<ExecResult>, b: seq<ExecResult>)
    ensures TranscriptOf(a + b) == TranscriptOf(a) + TranscriptOf(b)
    decreases |b|
  {
    if |b| == 0 {
      assert a + b == a;
    } else {
      var b' := b[..|b| - 1];
      var last := b[|b| - 1];
      assert (a + b)[..|a + b| - 1] == a + b';
      assert (a + b)[|a + b| - 1] == last;
      assert TranscriptOf(a + b) == TranscriptOf(a + b') + Block(last);
      assert TranscriptOf(b) == TranscriptOf(b') + Block(last);
      TranscriptAppend(a, b');
      assert TranscriptOf(a) + TranscriptOf(b') + Block(last) == TranscriptOf(a) + (TranscriptOf(b') + Block(last));
    }
  }

  /** The transcript is exactly as long as the blocks of the commands together. */
  lemma {:induction false} TranscriptLength(rs: seq<ExecResult>)
    ensures |TranscriptOf(rs)| == Sum(rs)
    decreases |rs|
  {
    if |rs| > 0 {
      TranscriptLength(rs[..|rs| - 1]);
      SumSnoc(rs);
    }
  }

  function Sum(rs: seq<ExecResult>): nat
    decreases |rs|
  {
    if |rs| == 0 then 0 else |Block(rs[0])| + Sum(rs[1..])
  }

  lemma {:induction false} SumSnoc(rs: seq<ExecResult>)
    requires |rs| > 0
    ensures Sum(rs) == Sum(rs[..|rs| - 1]) + |Block(rs[|rs| - 1])|
    decreases |rs|
  {
    if |rs| > 1 {
      SumSnoc(rs[1..]);
      assert rs[1..][..|rs[1..]| - 1] == rs[..|rs| - 1][1..];
    }
  }

  /** The transcript loop: `out +=` one block per result. */
  method BuildTranscript(results: seq<ExecResult>) returns (out: string)
    ensures out == TranscriptOf(results)
  {
    out := "";
    var i := 0;
    while i < |results|
      invariant 0 <= i <= |results|
      invariant out == TranscriptOf(results[..i])
    {
      assert results[..i + 1][..i] == results[..i];
      out := out + ("$ " + results[i].command + "\n");
      out := out + (results[i].output + results[i].error + "\n");
      i := i + 1;
    }
    assert results[..i] == results;
  }

  /** What `send_split_message` puts in the message: a notice with the transcript as a file, or the transcript in a bash fence. */
  datatype ShellDisplay = AsFile(notice: string, file: string) | Inline(text: string)

  const TooLongNotice := "Your shell output was too long and has been written to a text file."

  /** The longest message Discord accepts, the cap `send_response` chunks to. */
  const MessageLimit: nat := 2000

  /** `send_split_message` as written: more than 1990 characters go to a file, the rest inline in a bash fence. */
  function SplitMessageAsWritten(content: string): (d: ShellDisplay)
    ensures d.AsFile? <==> |content| > 1990
    ensures d.AsFile? ==> d == AsFile(TooLongNotice, content)
    ensures d.Inline? ==> |d.text| == |content| + 12 && d.text == "```bash\n" + content + "\n```"
  {
    if |content| > 1990 then AsFile(TooLongNotice, content) else Inline("```bash\n" + content + "\n```")
  }

  /** Discord takes the edit only when the message text fits its limit. */
  predicate Fits(d: ShellDisplay) {
    match d
    case AsFile(notice, _) => |notice| <= MessageLimit
    case Inline(text) => |text| <= MessageLimit
  }

  /** The 12 characters of the fence leave a 1990-character transcript 2 characters over the limit. */
  lemma SplitMessageAsWrittenOverflows(content: string)
    requires |content| == 1990
    ensures SplitMessageAsWritten(content).Inline?
    ensures |SplitMessageAsWritten(content).text| == 2002 > MessageLimit
  {
  }

  /** As written, exactly the transcripts of 1989 and 1990 characters give a message Discord refuses. */
  lemma AsWrittenFitsIff(content: string)
    ensures Fits(SplitMessageAsWritten(content)) <==> |content| <= MessageLimit - 12 || |content| > 1990
  {
    var d := SplitMessageAsWritten(content);
    if d.AsFile? {
      assert |TooLongNotice| <= MessageLimit;
    }
  }

  /** The same choice with the fence counted: at most 1988 characters are shown inline. */
  function SplitMessage(content: string): (d: ShellDisplay)
    ensures d.AsFile? <==> |content| > MessageLimit - 12
    ensures d.AsFile? ==> d == AsFile(TooLongNotice, content)
    ensures d.Inline? ==> |d.text| <= MessageLimit && StartsWith(d.text, "```bash\n") && EndsWith(d.text, "\n```")
    ensures d.Inline? ==> |d.text| == |content| + 12 && d.text[8..|d.text| - 4] == content
    ensures Fits(d)
  {
    if |content| > MessageLimit - 12 then
      assert |TooLongNotice| <= MessageLimit;
      AsFile(TooLongNotice, content)
    else
      var t := "```bash\n" + content + "\n```";
      assert t[..8] == "```bash\n" && t[|t| - 4..] == "\n```" && t[8..|t| - 4] == content;
      Inline(t)
  }

  /** The SSH side of one accepted request. */
  datatype Host = Host(connectOk: bool, startOk: bool, exec: string -> Option<ExecOutput>, stopOk: bool)

  /** What the session did: the results collected, whether the container was removed, and what was shown. */
  datatype Session = Session(results: seq<ExecResult>, stopIssued: bool, shown: Option<ShellDisplay>)

  /**
   * The `try` block of `process`: connect, start a container, run the commands, force-remove the
   * container, then show the transcript with `send_split_message` as written. Any exception ends
   * the block with an error status and nothing shown; there is no `finally`, so a failed exec
   * leaves the container running. The status embed needs the author's avatar URL, and an edit
   * Discord refuses for its length raises inside the block too.
   */
  function RunSession(commands: string, host: Host, hasAvatar: bool): (s: Session)
    ensures s.stopIssued <==> host.connectOk && host.startOk && !RunSegments(Segments(commands), host.exec).failed
    ensures s.shown.Some? <==> s.stopIssued && host.stopOk && hasAvatar && Fits(SplitMessageAsWritten(TranscriptOf(s.results)))
    ensures s.shown.Some? ==> s.shown.value == SplitMessageAsWritten(TranscriptOf(s.results))
  {
    if !host.connectOk || !host.startOk then Session([], false, None)
    else
      var run := RunSegments(Segments(commands), host.exec);
      if run.failed then Session(run.results, false, None)
      else
        var d := SplitMessageAsWritten(TranscriptOf(run.results));
        if !host.stopOk || !hasAvatar || !Fits(d) then Session(run.results, true, None)
        else Session(run.results, true, Some(d))
  }

  datatype Outcome = Outcome(result: PluginResult, session: Option<Session>)

  /**
   * `process`: `check` and `generate` stand for the classifier and command-generation
   * completions (`None` means they raised; both are outside the `try`). Once accepted the
   * plugin returns `True` whatever the session did.
   */
  function Process(content: string, check: string -> Option<string>, generate: string -> Option<string>,
                   host: Host, hasAvatar: bool): (o: Outcome)
    ensures check(content).None? ==> o.result == Raised(External)
    ensures check(content).Some? ==>
      (o.result.NoneResult? <==> !ShouldUse(check(content).value).accept)
    ensures o.result.Taken? <==>
      check(content).Some? && ShouldUse(check(content).value).accept && generate(content).Some?
    ensures o.result.Taken? ==> o.session == Some(RunSession(Strip(generate(content).value), host, hasAvatar))
    ensures !o.result.Taken? ==> o.session.None?
    ensures !o.result.Augment? && !o.result.AugmentWithConfidence?
    ensures o.result.Raised? ==> o.result == Raised(External)
  {
    match check(content)
    case None => Outcome(Raised(External), None)
    case Some(reply) =>
      if !ShouldUse(reply).accept then Outcome(NoneResult, None)
      else
        match generate(content)
        case None => Outcome(Raised(External), None)
        case Some(g) => Outcome(Taken, Some(RunSession(Strip(g), host, hasAvatar)))
  }
}
