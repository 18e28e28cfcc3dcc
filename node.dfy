/**
 * `Node` of the bundled pyeapi client: a handle on one switch that rewrites
 * command batches before they leave (the `enable` prefix, `MULTILINE:`
 * commands, the `configure terminal` / `configure session` preamble), drops the
 * outputs of what it prepended, retries command variants and text encodings,
 * and keeps the client-side session name and cached configurations.
 *
 * The switch is a channel: given the batches already run and the next one, it
 * returns the outputs or the exception the call raises. It stands for either
 * `connection.execute(...)["result"]` or the aioeapi `Device.cli`.
 */
module PyeapiNode {

  import opened Wrappers
  import opened Json
  import opened Text
  import opened Rpc

  /** The exceptions a node operation can raise. */
  datatype Failure =
      /** The connection's command error, with the eAPI error code. */
    | CommandError(code: int, message: string)
    | TypeError(message: string)
    | KeyError(key: string)
      /** Any other exception of the channel, passed through untouched. */
    | Raised(message: string)

  /** One batch handed to the channel, with the encoding asked for. */
  datatype Run = Run(cmds: seq<Command>, encoding: string)

  type Channel = (seq<Run>, Run) -> Result<seq<Json>, Failure>

  /** The batches an operation ran, in order, and what it returned or raised. */
  datatype Trace<T> = Trace(runs: seq<Run>, reply: Result<T, Failure>)

  /** A channel that answers a batch with one output per command, as eAPI does. */
  ghost predicate Honest(ch: Channel)
  {
    forall h, q :: ch(h, q).Success? ==> |ch(h, q).value| == |q.cmds|
  }

  // ---------------------------------------------------------------- run_commands

  const Marker := "MULTILINE:"

  /**
   * One command as `run_commands` sends it: a command holding `MULTILINE:` is
   * split there into an interactive command whose input is the stripped text
   * after the marker plus a newline; any other command goes as it is.
   */
  function Rewrite(c: string): (r: Command)
    ensures !Contains(c, Marker) <==> r == Cmd(c)
    ensures Contains(c, Marker) ==> r.Interactive? && r.cmd == c[..IndexOf(c, Marker).value]
  {
    if Contains(c, Marker) then
      var parts := Split(c, Marker);
      Interactive(parts[0], Strip(parts[1]) + "\n")
    else Cmd(c)
  }

  /** No marker starts before the end of `x` in `x + Marker + y` when `x` holds none. */
  lemma NoEarlierMarker(x: string, y: string, i: nat)
    requires !Contains(x, Marker) && i < |x|
    ensures !OccursAt(x + Marker + y, Marker, i)
  {
    var s := x + Marker + y;
    if i + |Marker| <= |x| {
      assert s[..|x|] == x;
      assert s[i..i + |Marker|] == s[..|x|][i..i + |Marker|];
      assert !OccursAt(x, Marker, i);
    } else {
      // The occurrence would end inside the marker, before its closing ':'.
      var d := i + 9 - |x|;
      assert 0 <= d < 9 && s[i + 9] == Marker[d];
      assert Marker[d] != ':' by {
        assert d == 0 || d == 1 || d == 2 || d == 3 || d == 4 || d == 5 || d == 6 || d == 7 || d == 8;
      }
      assert i + |Marker| <= |s| ==> s[i..i + |Marker|][9] == s[i + 9];
    }
  }

  /** Splitting at the markers of `x + Marker + y`, when `x` holds none, gives `x` and the pieces of `y`. */
  lemma FirstMarker(x: string, y: string)
    requires !Contains(x, Marker)
    ensures Split(x + Marker + y, Marker) == [x] + Split(y, Marker)
  {
    var s := x + Marker + y;
    assert OccursAt(s, Marker, |x|) by {
      assert s[|x|..|x| + |Marker|] == Marker;
    }
    forall i: nat | i < |x|
      ensures !OccursAt(s, Marker, i)
    {
      NoEarlierMarker(x, y, i);
    }
    assert IndexOf(s, Marker) == Some(|x|);
    assert s[..|x|] == x;
    assert s[|x| + |Marker|..] == y;
  }

  /** `X MULTILINE: Y` becomes the command `X ` with input `Y` stripped, plus a newline. */
  lemma MultilineRewrite(x: string, y: string)
    requires !Contains(x, Marker) && !Contains(y, Marker)
    ensures Rewrite(x + Marker + y) == Interactive(x, Strip(y) + "\n")
  {
    FirstMarker(x, y);
  }

  /**
   * With a second marker, `X MULTILINE: Y MULTILINE: Z` sends only the text
   * between the two markers: the command `X ` with input `Y` stripped, plus a
   * newline; `Z` is dropped.
   */
  lemma TwoMarkerRewrite(x: string, y: string, z: string)
    requires !Contains(x, Marker) && !Contains(y, Marker)
    ensures Rewrite(x + Marker + y + Marker + z) == Interactive(x, Strip(y) + "\n")
  {
    assert x + Marker + y + Marker + z == x + Marker + (y + Marker + z);
    FirstMarker(x, y + Marker + z);
    FirstMarker(y, z);
  }

  /** The `enable` command `run_commands` puts in front, with the password when one is set. */
  function EnableCommand(pwd: Option<string>): Command
  {
    if Truthy(pwd) then Interactive("enable", pwd.value) else Cmd("enable")
  }

  /** Each command rewritten, in order. */
  function RewriteAll(commands: seq<string>): (r: seq<Command>)
    ensures |r| == |commands|
  {
    if commands == [] then [] else [Rewrite(commands[0])] + RewriteAll(commands[1..])
  }

  /** Command `i` of the batch is the caller's command `i`, rewritten. */
  lemma {:induction false} RewriteAllAt(commands: seq<string>, i: nat)
    requires i < |commands|
    ensures RewriteAll(commands)[i] == Rewrite(commands[i])
  {
    if i > 0 {
      RewriteAllAt(commands[1..], i - 1);
    }
  }

  /** The batch `run_commands` sends: each command rewritten, behind `enable` when asked. */
  function RunBatch(commands: seq<string>, sendEnable: bool, pwd: Option<string>): (r: seq<Command>)
    ensures |r| == |commands| + (if sendEnable then 1 else 0)
    ensures sendEnable ==> r[0] == EnableCommand(pwd)
    ensures r[if sendEnable then 1 else 0..] == RewriteAll(commands)
  {
    var cmds := RewriteAll(commands);
    if sendEnable then
      var r := [EnableCommand(pwd)] + cmds;
      assert r[1..] == cmds;
      r
    else cmds
  }

  /**
   * What `run_commands` returns: the channel's outputs without the one for the
   * prepended `enable`, so there is exactly one output per caller's command.
   */
  function RunReply(ch: Channel, h: seq<Run>, commands: seq<string>, encoding: string, sendEnable: bool, pwd: Option<string>): (r: Result<seq<Json>, Failure>)
    requires Honest(ch)
    ensures var out := ch(h, Run(RunBatch(commands, sendEnable, pwd), encoding));
      && (r.Failure? <==> out.Failure?)
      && (r.Failure? ==> r.error == out.error)
      && (r.Success? ==> |r.value| == |commands| && r.value == out.value[|out.value| - |commands|..])
  {
    var out := ch(h, Run(RunBatch(commands, sendEnable, pwd), encoding));
    if out.Failure? then Failure(out.error)
    else if sendEnable then Success(out.value[1..])
    else out
  }

  // ---------------------------------------------------------------- enable

  /** One entry of `enable`'s result; `response` is only filled in strict mode. */
  datatype EnableResult = EnableResult(command: string, result: Json, response: Option<Json>, encoding: string)

  /** True when `e` is a command error with eAPI's code 1003 (the output cannot be encoded). */
  predicate Unconvertible(e: Failure)
  {
    e.CommandError? && e.code == 1003
  }

  /**
   * `e` is the answer of run `q`, sent after the runs `hist`: the run ends with
   * `e`'s command, is in `e`'s encoding, and `e.result` is the channel's output
   * for that last command.
   */
  ghost predicate AnswerOf(ch: Channel, hist: seq<Run>, q: Run, e: EnableResult)
  {
    var out := ch(hist, q);
    && out.Success? && out.value != [] && q.cmds != []
    && q.cmds[|q.cmds| - 1] == Rewrite(e.command)
    && q.encoding == e.encoding
    && e.result == out.value[|out.value| - 1]
  }

  /** `e` is the answer of one of the runs `runs` sent after `h`. */
  ghost predicate AnsweredBy(ch: Channel, h: seq<Run>, runs: seq<Run>, e: EnableResult)
  {
    exists j :: 0 <= j < |runs| && AnswerOf(ch, h + runs[..j], runs[j], e)
  }

  /** Every result is the answer of one of the runs. */
  ghost predicate AllAnswered(ch: Channel, h: seq<Run>, runs: seq<Run>, results: seq<EnableResult>)
  {
    forall i :: 0 <= i < |results| ==> AnsweredBy(ch, h, runs, results[i])
  }

  /** Runs sent later do not change which run answered. */
  lemma AnsweredByExtend(ch: Channel, h: seq<Run>, runs: seq<Run>, more: seq<Run>, e: EnableResult)
    requires AnsweredBy(ch, h, runs, e)
    ensures AnsweredBy(ch, h, runs + more, e)
  {
    var j :| 0 <= j < |runs| && AnswerOf(ch, h + runs[..j], runs[j], e);
    assert (runs + more)[..j] == runs[..j] && (runs + more)[j] == runs[j];
  }

  /** The answer of the last of the runs sent after `prev` is the answer of one of `prev + runs`. */
  lemma AnsweredByLast(ch: Channel, h: seq<Run>, prev: seq<Run>, runs: seq<Run>, e: EnableResult)
    requires runs != [] && AnswerOf(ch, h + prev + runs[..|runs| - 1], runs[|runs| - 1], e)
    ensures AnsweredBy(ch, h, prev + runs, e)
  {
    var j := |prev| + |runs| - 1;
    assert (prev + runs)[..j] == prev + runs[..|runs| - 1];
    Assoc(h, prev, runs[..|runs| - 1]);
    assert (prev + runs)[j] == runs[|runs| - 1];
  }

  /** One more result, answered by the last of the runs sent after `prev`, keeps every result answered. */
  lemma AllAnsweredSnoc(ch: Channel, h: seq<Run>, prev: seq<Run>, runs: seq<Run>, results: seq<EnableResult>, e: EnableResult)
    requires AllAnswered(ch, h, prev, results)
    requires runs != [] && AnswerOf(ch, h + prev + runs[..|runs| - 1], runs[|runs| - 1], e)
    ensures AllAnswered(ch, h, prev + runs, results + [e])
  {
    forall i | 0 <= i < |results| + 1
      ensures AnsweredBy(ch, h, prev + runs, (results + [e])[i])
    {
      if i < |results| {
        AnsweredByExtend(ch, h, prev, runs, results[i]);
      } else {
        AnsweredByLast(ch, h, prev, runs, e);
      }
    }
  }

  /** The batch for one command ends with that command, rewritten. */
  lemma OneCommandBatch(command: string, sendEnable: bool, pwd: Option<string>)
    ensures var b := RunBatch([command], sendEnable, pwd);
      b != [] && b[|b| - 1] == Rewrite(command)
  {
    assert RewriteAll([command]) == [Rewrite(command)];
  }

  /**
   * One command of non-strict `enable`: run it in the requested encoding and,
   * when that fails with code 1003, once more in text.
   */
  function EnableOne(ch: Channel, h: seq<Run>, command: string, encoding: string, sendEnable: bool, pwd: Option<string>): (t: Trace<EnableResult>)
    requires Honest(ch)
    ensures 1 <= |t.runs| <= 2
    ensures t.reply.Success? ==>
      && t.reply.value.command == command
      && t.reply.value.response.None?
      && t.reply.value.encoding == (if |t.runs| == 2 then "text" else encoding)
  {
    var q := Run(RunBatch([command], sendEnable, pwd), encoding);
    var first := RunReply(ch, h, [command], encoding, sendEnable, pwd);
    if first.Success? then
      Trace([q], Success(EnableResult(command, first.value[0], None, encoding)))
    else if Unconvertible(first.error) then
      var q' := Run(RunBatch([command], sendEnable, pwd), "text");
      var second := RunReply(ch, h + [q], [command], "text", sendEnable, pwd);
      Trace([q, q'], if second.Success? then Success(EnableResult(command, second.value[0], None, "text")) else Failure(second.error))
    else
      Trace([q], Failure(first.error))
  }

  /** The result of one command is the channel's output for the run that answered, the last one. */
  lemma EnableOneAnswers(ch: Channel, h: seq<Run>, command: string, encoding: string, sendEnable: bool, pwd: Option<string>)
    requires Honest(ch)
    ensures var t := EnableOne(ch, h, command, encoding, sendEnable, pwd);
      t.reply.Success? ==> AnswerOf(ch, h + t.runs[..|t.runs| - 1], t.runs[|t.runs| - 1], t.reply.value)
  {
    var first := RunReply(ch, h, [command], encoding, sendEnable, pwd);
    if first.Success? {
      FirstAnswers(ch, h, command, encoding, sendEnable, pwd);
    } else if Unconvertible(first.error) {
      RetryAnswers(ch, h, command, encoding, sendEnable, pwd);
    }
  }

  /** When the first attempt succeeds, one command is answered by that attempt. */
  lemma FirstAnswers(ch: Channel, h: seq<Run>, command: string, encoding: string, sendEnable: bool, pwd: Option<string>)
    requires Honest(ch)
    requires RunReply(ch, h, [command], encoding, sendEnable, pwd).Success?
    ensures var t := EnableOne(ch, h, command, encoding, sendEnable, pwd);
      t.reply.Success? && AnswerOf(ch, h + t.runs[..|t.runs| - 1], t.runs[|t.runs| - 1], t.reply.value)
  {
    ReplyAnswers(ch, h, command, encoding, sendEnable, pwd);
    var t := EnableOne(ch, h, command, encoding, sendEnable, pwd);
    assert h + t.runs[..0] == h;
  }

  /** After a 1003 error, a success of one command is the answer of the retry in text. */
  lemma RetryAnswers(ch: Channel, h: seq<Run>, command: string, encoding: string, sendEnable: bool, pwd: Option<string>)
    requires Honest(ch)
    requires var first := RunReply(ch, h, [command], encoding, sendEnable, pwd);
      first.Failure? && Unconvertible(first.error)
    ensures var t := EnableOne(ch, h, command, encoding, sendEnable, pwd);
      t.reply.Success? ==> AnswerOf(ch, h + t.runs[..|t.runs| - 1], t.runs[|t.runs| - 1], t.reply.value)
  {
    var q := Run(RunBatch([command], sendEnable, pwd), encoding);
    var q' := Run(RunBatch([command], sendEnable, pwd), "text");
    var second := RunReply(ch, h + [q], [command], "text", sendEnable, pwd);
    EnableOneRetried(ch, h, command, encoding, sendEnable, pwd);
    if second.Success? {
      ReplyAnswers(ch, h + [q], command, "text", sendEnable, pwd);
      SecondOfTwo(ch, h, q, q', EnableResult(command, second.value[0], None, "text"));
    }
  }

  /** After a 1003 error, one command is the two runs, the second in text, and the reply is the second's. */
  lemma EnableOneRetried(ch: Channel, h: seq<Run>, command: string, encoding: string, sendEnable: bool, pwd: Option<string>)
    requires Honest(ch)
    requires var first := RunReply(ch, h, [command], encoding, sendEnable, pwd);
      first.Failure? && Unconvertible(first.error)
    ensures var q := Run(RunBatch([command], sendEnable, pwd), encoding);
      var second := RunReply(ch, h + [q], [command], "text", sendEnable, pwd);
      EnableOne(ch, h, command, encoding, sendEnable, pwd)
        == Trace([q, Run(RunBatch([command], sendEnable, pwd), "text")],
                 if second.Success? then Success(EnableResult(command, second.value[0], None, "text")) else Failure(second.error))
  {
  }

  /** The answer of the second of two runs is the answer of the last run. */
  lemma SecondOfTwo(ch: Channel, h: seq<Run>, q: Run, q': Run, e: EnableResult)
    requires AnswerOf(ch, h + [q], q', e)
    ensures var runs := [q, q'];
      AnswerOf(ch, h + runs[..|runs| - 1], runs[|runs| - 1], e)
  {
    assert [q, q'][..1] == [q];
  }

  /** A successful run of one command answers with that command's output. */
  lemma ReplyAnswers(ch: Channel, h: seq<Run>, command: string, encoding: string, sendEnable: bool, pwd: Option<string>)
    requires Honest(ch)
    requires RunReply(ch, h, [command], encoding, sendEnable, pwd).Success?
    ensures var r := RunReply(ch, h, [command], encoding, sendEnable, pwd);
      AnswerOf(ch, h, Run(RunBatch([command], sendEnable, pwd), encoding), EnableResult(command, r.value[0], None, encoding))
  {
    OneCommandBatch(command, sendEnable, pwd);
    var out := ch(h, Run(RunBatch([command], sendEnable, pwd), encoding));
    var r := RunReply(ch, h, [command], encoding, sendEnable, pwd);
    assert r.value == out.value[|out.value| - 1..];
  }

  /**
   * A command is sent a second time, in text, exactly when the first attempt
   * raised a command error with code 1003; any other error is raised as it is.
   */
  lemma EnableOneRetries(ch: Channel, h: seq<Run>, command: string, encoding: string, sendEnable: bool, pwd: Option<string>)
    requires Honest(ch)
    ensures var t := EnableOne(ch, h, command, encoding, sendEnable, pwd);
      var first := RunReply(ch, h, [command], encoding, sendEnable, pwd);
      && t.runs[0] == Run(RunBatch([command], sendEnable, pwd), encoding)
      && (|t.runs| == 2 <==> first.Failure? && Unconvertible(first.error))
      && (|t.runs| == 2 ==> t.runs[1] == Run(RunBatch([command], sendEnable, pwd), "text"))
      && (first.Failure? && !Unconvertible(first.error) ==> t.reply == Failure(first.error))
  {
  }

  /**
   * Non-strict `enable`: the commands one at a time, stopping at the first one
   * that raises.
   */
  function EnableEach(ch: Channel, h: seq<Run>, commands: seq<string>, encoding: string, sendEnable: bool, pwd: Option<string>): (t: Trace<seq<EnableResult>>)
    requires Honest(ch)
    ensures commands != [] ==> t.runs != []
    decreases |commands|
  {
    if commands == [] then Trace([], Success([]))
    else
      var prev := EnableEach(ch, h, commands[..|commands| - 1], encoding, sendEnable, pwd);
      if prev.reply.Failure? then prev
      else
        var one := EnableOne(ch, h + prev.runs, commands[|commands| - 1], encoding, sendEnable, pwd);
        Trace(prev.runs + one.runs, if one.reply.Failure? then Failure(one.reply.error) else Success(prev.reply.value + [one.reply.value]))
  }

  /** One result per command, in order, each in the requested encoding or in text. */
  predicate Aligned(results: seq<EnableResult>, commands: seq<string>, encoding: string)
  {
    && |results| == |commands|
    && forall i :: 0 <= i < |commands| ==>
         results[i].command == commands[i] && (results[i].encoding == encoding || results[i].encoding == "text")
  }

  /** Appending the next command's result keeps the results aligned. */
  lemma AlignedSnoc(results: seq<EnableResult>, one: EnableResult, commands: seq<string>, encoding: string)
    requires commands != [] && Aligned(results, commands[..|commands| - 1], encoding)
    requires one.command == commands[|commands| - 1] && (one.encoding == encoding || one.encoding == "text")
    ensures Aligned(results + [one], commands, encoding)
  {
    var init := commands[..|commands| - 1];
    forall i | 0 <= i < |results|
      ensures (results + [one])[i] == results[i] && init[i] == commands[i]
    {
    }
  }

  /**
   * When non-strict `enable` succeeds there is one result per command, in
   * order, each in the requested encoding or in text, at the cost of one or
   * two runs per command.
   */
  lemma {:induction false} EnableEachAligned(ch: Channel, h: seq<Run>, commands: seq<string>, encoding: string, sendEnable: bool, pwd: Option<string>)
    requires Honest(ch)
    ensures var t := EnableEach(ch, h, commands, encoding, sendEnable, pwd);
      t.reply.Success? ==>
        && Aligned(t.reply.value, commands, encoding)
        && AllAnswered(ch, h, t.runs, t.reply.value)
        && |commands| <= |t.runs| <= 2 * |commands|
    decreases |commands|
  {
    var t := EnableEach(ch, h, commands, encoding, sendEnable, pwd);
    if commands != [] && t.reply.Success? {
      var init := commands[..|commands| - 1];
      var prev := EnableEach(ch, h, init, encoding, sendEnable, pwd);
      EnableEachAligned(ch, h, init, encoding, sendEnable, pwd);
      var one := EnableOne(ch, h + prev.runs, commands[|commands| - 1], encoding, sendEnable, pwd);
      EnableOneStep(ch, h, prev, commands, encoding, sendEnable, pwd);
      assert t == Trace(prev.runs + one.runs, Success(prev.reply.value + [one.reply.value]));
    }
  }

  /** The next command of non-strict `enable`, when it succeeds, keeps the results aligned and answered. */
  lemma EnableOneStep(ch: Channel, h: seq<Run>, prev: Trace<seq<EnableResult>>, commands: seq<string>,
                      encoding: string, sendEnable: bool, pwd: Option<string>)
    requires Honest(ch) && commands != [] && prev.reply.Success?
    requires var n := |commands| - 1;
      && Aligned(prev.reply.value, commands[..n], encoding)
      && AllAnswered(ch, h, prev.runs, prev.reply.value)
      && n <= |prev.runs| <= 2 * n
    ensures var one := EnableOne(ch, h + prev.runs, commands[|commands| - 1], encoding, sendEnable, pwd);
      one.reply.Success? ==>
        var runs, results := prev.runs + one.runs, prev.reply.value + [one.reply.value];
        && Aligned(results, commands, encoding)
        && AllAnswered(ch, h, runs, results)
        && |commands| <= |runs| <= 2 * |commands|
  {
    var one := EnableOne(ch, h + prev.runs, commands[|commands| - 1], encoding, sendEnable, pwd);
    if one.reply.Success? {
      EnableOneAnswers(ch, h + prev.runs, commands[|commands| - 1], encoding, sendEnable, pwd);
      AlignedStep(ch, h, commands, encoding, prev, one);
    }
  }

  /** A successful next command, answered by the last of its runs, keeps the results aligned and answered. */
  lemma AlignedStep(ch: Channel, h: seq<Run>, commands: seq<string>, encoding: string,
                    prev: Trace<seq<EnableResult>>, one: Trace<EnableResult>)
    requires commands != [] && prev.reply.Success? && one.reply.Success?
    requires var n := |commands| - 1;
      && Aligned(prev.reply.value, commands[..n], encoding)
      && AllAnswered(ch, h, prev.runs, prev.reply.value)
      && n <= |prev.runs| <= 2 * n
    requires 1 <= |one.runs| <= 2
    requires one.reply.value.command == commands[|commands| - 1]
    requires one.reply.value.encoding == encoding || one.reply.value.encoding == "text"
    requires AnswerOf(ch, h + prev.runs + one.runs[..|one.runs| - 1], one.runs[|one.runs| - 1], one.reply.value)
    ensures var runs, results := prev.runs + one.runs, prev.reply.value + [one.reply.value];
      && Aligned(results, commands, encoding)
      && AllAnswered(ch, h, runs, results)
      && |commands| <= |runs| <= 2 * |commands|
  {
    assert |prev.runs + one.runs| == |prev.runs| + |one.runs|;
    AlignedSnoc(prev.reply.value, one.reply.value, commands, encoding);
    AllAnsweredSnoc(ch, h, prev.runs, one.runs, prev.reply.value, one.reply.value);
  }

  /** Once a prefix of the commands has raised, the later commands are never run. */
  lemma {:induction false} EnableEachStops(ch: Channel, h: seq<Run>, commands: seq<string>, j: nat, encoding: string, sendEnable: bool, pwd: Option<string>)
    requires Honest(ch) && j <= |commands|
    requires EnableEach(ch, h, commands[..j], encoding, sendEnable, pwd).reply.Failure?
    ensures EnableEach(ch, h, commands, encoding, sendEnable, pwd) == EnableEach(ch, h, commands[..j], encoding, sendEnable, pwd)
    decreases |commands| - j
  {
    if j < |commands| {
      var longer := commands[..|commands| - 1];
      assert longer[..j] == commands[..j];
      EnableEachStops(ch, h, longer, j, encoding, sendEnable, pwd);
    } else {
      assert commands[..j] == commands;
    }
  }

  /**
   * Non-strict `enable` over one more command: the next command's attempt
   * follows the earlier runs, and when it raises, the rest are never run.
   */
  lemma EnableEachStep(ch: Channel, h: seq<Run>, commands: seq<string>, i: nat, encoding: string, sendEnable: bool, pwd: Option<string>, results: seq<EnableResult>)
    requires Honest(ch) && i < |commands|
    requires EnableEach(ch, h, commands[..i], encoding, sendEnable, pwd).reply == Success(results)
    ensures var prev := EnableEach(ch, h, commands[..i], encoding, sendEnable, pwd);
      var one := EnableOne(ch, h + prev.runs, commands[i], encoding, sendEnable, pwd);
      && (one.reply.Success? ==>
            EnableEach(ch, h, commands[..i + 1], encoding, sendEnable, pwd) == Trace(prev.runs + one.runs, Success(results + [one.reply.value])))
      && (one.reply.Failure? ==>
            EnableEach(ch, h, commands, encoding, sendEnable, pwd) == Trace(prev.runs + one.runs, Failure(one.reply.error)))
  {
    assert commands[..i + 1][..i] == commands[..i];
    var prev := EnableEach(ch, h, commands[..i], encoding, sendEnable, pwd);
    var one := EnableOne(ch, h + prev.runs, commands[i], encoding, sendEnable, pwd);
    if one.reply.Failure? {
      EnableEachStops(ch, h, commands, i + 1, encoding, sendEnable, pwd);
    }
  }

  /** Result `i` is the channel's output for the `i`-th of the last `|results|` commands of its run. */
  predicate StrictOutputs(out: Result<seq<Json>, Failure>, results: seq<EnableResult>)
  {
    && out.Success? && |results| <= |out.value|
    && forall i :: 0 <= i < |results| ==> results[i].result == out.value[|out.value| - |results| + i]
  }

  /** Strict `enable`: all commands in one run, each output paired with its command. */
  function EnableStrict(ch: Channel, h: seq<Run>, commands: seq<string>, encoding: string, sendEnable: bool, pwd: Option<string>): (t: Trace<seq<EnableResult>>)
    requires Honest(ch)
    ensures t.runs == [Run(RunBatch(commands, sendEnable, pwd), encoding)]
    ensures t.reply.Success? ==>
      && |t.reply.value| == |commands|
      && forall i :: 0 <= i < |commands| ==>
           var e := t.reply.value[i];
           e.command == commands[i] && e.encoding == encoding && e.response == Some(e.result)
    ensures t.reply.Success? ==> StrictOutputs(ch(h, t.runs[0]), t.reply.value)
  {
    var res := RunReply(ch, h, commands, encoding, sendEnable, pwd);
    Trace([Run(RunBatch(commands, sendEnable, pwd), encoding)],
      if res.Failure? then Failure(res.error)
      else Success(seq(|commands|, i requires 0 <= i < |commands| => EnableResult(commands[i], res.value[i], Some(res.value[i]), encoding))))
  }

  const ConfigureNotSupported := TypeError("config mode commands not supported")

  /**
   * `enable`: a batch holding the command `configure` is refused before anything
   * is sent; otherwise one result per command, in order, strict or not.
   */
  function EnableTrace(ch: Channel, h: seq<Run>, commands: seq<string>, encoding: string, strict: bool, sendEnable: bool, pwd: Option<string>): (t: Trace<seq<EnableResult>>)
    requires Honest(ch)
    ensures "configure" in commands <==> t.runs == [] && t.reply.Failure?
    ensures "configure" in commands ==> t.reply == Failure(ConfigureNotSupported)
    ensures t.reply.Success? ==> Aligned(t.reply.value, commands, encoding)
    ensures t.reply.Success? && strict ==> |t.runs| == 1 && StrictOutputs(ch(h, t.runs[0]), t.reply.value)
    ensures t.reply.Success? && !strict ==> AllAnswered(ch, h, t.runs, t.reply.value)
  {
    if "configure" in commands then Trace([], Failure(ConfigureNotSupported))
    else if strict then EnableStrict(ch, h, commands, encoding, sendEnable, pwd)
    else
      EnableEachAligned(ch, h, commands, encoding, sendEnable, pwd);
      EnableEach(ch, h, commands, encoding, sendEnable, pwd)
  }

  /** In strict mode a single run answers every command, so no text retry happens. */
  lemma StrictNeverRetries(ch: Channel, h: seq<Run>, commands: seq<string>, encoding: string, sendEnable: bool, pwd: Option<string>)
    requires Honest(ch) && "configure" !in commands
    ensures var t := EnableTrace(ch, h, commands, encoding, true, sendEnable, pwd);
      |t.runs| == 1 && (t.reply.Success? ==> forall i :: 0 <= i < |commands| ==> t.reply.value[i].encoding == encoding)
  {
  }

  // ---------------------------------------------------------------- configuration

  /** `_configure_session`'s error when no session is open. */
  const NotInSession := CommandError(-1, "Not currently in a session")

  /**
   * `_configure_terminal`: the commands behind `configure terminal` (and
   * `enable`), with the output of `configure terminal` dropped.
   */
  function TerminalTrace(ch: Channel, h: seq<Run>, commands: seq<string>, encoding: string, pwd: Option<string>): (t: Trace<seq<Json>>)
    requires Honest(ch)
    ensures t.runs == [Run(RunBatch(["configure terminal"] + commands, true, pwd), encoding)]
    ensures t.reply.Success? ==> |t.reply.value| == |commands|
  {
    var all := ["configure terminal"] + commands;
    var res := RunReply(ch, h, all, encoding, true, pwd);
    Trace([Run(RunBatch(all, true, pwd), encoding)], if res.Failure? then Failure(res.error) else Success(res.value[1..]))
  }

  /**
   * `_configure_session`: refused with `NotInSession` when no session name is
   * set; otherwise the commands behind `configure session <name>` (and
   * `enable`), with the output of the preamble dropped.
   */
  function SessionTrace(ch: Channel, h: seq<Run>, commands: seq<string>, encoding: string, session: Option<string>, pwd: Option<string>): (t: Trace<seq<Json>>)
    requires Honest(ch)
    ensures !Truthy(session) <==> t.runs == []
    ensures !Truthy(session) ==> t.reply == Failure(NotInSession)
    ensures Truthy(session) ==> t.runs == [Run(RunBatch(["configure session " + session.value] + commands, true, pwd), encoding)]
    ensures t.reply.Success? ==> |t.reply.value| == |commands|
  {
    if !Truthy(session) then Trace([], Failure(NotInSession))
    else
      var all := ["configure session " + session.value] + commands;
      var res := RunReply(ch, h, all, encoding, true, pwd);
      Trace([Run(RunBatch(all, true, pwd), encoding)], if res.Failure? then Failure(res.error) else Success(res.value[1..]))
  }

  /** Behind `enable`, an honest channel's outputs for the caller's commands are all its outputs but the first. */
  lemma RunReplyPastEnable(ch: Channel, h: seq<Run>, commands: seq<string>, encoding: string, pwd: Option<string>)
    requires Honest(ch)
    ensures var out := ch(h, Run(RunBatch(commands, true, pwd), encoding));
      var res := RunReply(ch, h, commands, encoding, true, pwd);
      res.Success? ==> out.Success? && |out.value| == |commands| + 1 && res.value == out.value[1..]
  {
  }

  /** Behind `enable` and one preamble command, the batch holds the caller's commands rewritten, in order. */
  lemma BatchPastPreamble(head: string, commands: seq<string>, pwd: Option<string>)
    ensures RunBatch([head] + commands, true, pwd)[2..] == RewriteAll(commands)
  {
    var all := [head] + commands;
    assert all[1..] == commands;
    assert RunBatch(all, true, pwd)[1..] == RewriteAll(all);
  }

  /**
   * In a session, the caller's commands follow `enable` and the preamble in the
   * one batch sent, rewritten and in order, and the caller's outputs are the
   * channel's outputs past those two.
   */
  lemma SessionAligned(ch: Channel, h: seq<Run>, commands: seq<string>, encoding: string, session: Option<string>, pwd: Option<string>)
    requires Honest(ch)
    ensures var t := SessionTrace(ch, h, commands, encoding, session, pwd);
      t.reply.Success? ==>
        && |t.runs| == 1
        && ch(h, t.runs[0]).Success?
        && t.runs[0].cmds[2..] == RewriteAll(commands)
        && t.reply.value == ch(h, t.runs[0]).value[2..]
  {
    var t := SessionTrace(ch, h, commands, encoding, session, pwd);
    if t.reply.Success? {
      var all := ["configure session " + session.value] + commands;
      RunReplyPastEnable(ch, h, all, encoding, pwd);
      BatchPastPreamble("configure session " + session.value, commands, pwd);
      var out := ch(h, t.runs[0]);
      var res := RunReply(ch, h, all, encoding, true, pwd);
      assert t.reply.value == res.value[1..];
      assert res.value[1..] == out.value[2..];
    }
  }

  /**
   * Through the terminal, the caller's commands follow `enable` and
   * `configure terminal` in the one batch sent, rewritten and in order; the
   * caller's outputs are the channel's outputs past those two, and a failure of
   * the channel is raised as it is.
   */
  lemma TerminalAligned(ch: Channel, h: seq<Run>, commands: seq<string>, encoding: string, pwd: Option<string>)
    requires Honest(ch)
    ensures var t := TerminalTrace(ch, h, commands, encoding, pwd);
      && t.runs[0].cmds[2..] == RewriteAll(commands)
      && (ch(h, t.runs[0]).Failure? ==> t.reply == Failure(ch(h, t.runs[0]).error))
      && (t.reply.Success? ==> ch(h, t.runs[0]).Success? && t.reply.value == ch(h, t.runs[0]).value[2..])
  {
    var t := TerminalTrace(ch, h, commands, encoding, pwd);
    var all := ["configure terminal"] + commands;
    BatchPastPreamble("configure terminal", commands, pwd);
    if t.reply.Success? {
      RunReplyPastEnable(ch, h, all, encoding, pwd);
      var out := ch(h, t.runs[0]);
      var res := RunReply(ch, h, all, encoding, true, pwd);
      assert t.reply.value == res.value[1..];
      assert res.value[1..] == out.value[2..];
    }
  }

  /** The preamble `config` puts in front: the open session's, or `configure terminal`. */
  function CfgHead(session: Option<string>): string
  {
    if Truthy(session) then "configure session " + session.value else "configure terminal"
  }

  /** The batch one `cfg_call` sends. */
  function CfgBatch(commands: seq<string>, session: Option<string>, pwd: Option<string>): seq<Command>
  {
    RunBatch([CfgHead(session)] + commands, true, pwd)
  }

  /** `cfg_call`: the session when one is open, the terminal otherwise; always exactly one run. */
  function CfgTrace(ch: Channel, h: seq<Run>, commands: seq<string>, session: Option<string>, pwd: Option<string>): (t: Trace<seq<Json>>)
    requires Honest(ch)
    ensures t.runs == [Run(CfgBatch(commands, session, pwd), "json")]
    ensures t.reply.Success? ==> |t.reply.value| == |commands|
  {
    if Truthy(session) then SessionTrace(ch, h, commands, "json", session, pwd)
    else TerminalTrace(ch, h, commands, "json", pwd)
  }

  /** A command line, or a `CliVariants` holding alternative command sequences. */
  datatype ConfigItem = Line(text: string) | Variants(variants: seq<seq<string>>)

  /** At most one `CliVariants` among the items, as `config` supports. */
  predicate AtMostOneVariants(items: seq<ConfigItem>)
  {
    forall i, j :: 0 <= i < j < |items| ==> !(items[i].Variants? && items[j].Variants?)
  }

  /** The command lines of items that hold no `CliVariants`. */
  function Plain(items: seq<ConfigItem>): (r: seq<string>)
    requires forall i :: 0 <= i < |items| ==> items[i].Line?
    ensures |r| == |items| && forall i :: 0 <= i < |items| ==> r[i] == items[i].text
  {
    seq(|items|, i requires 0 <= i < |items| => items[i].text)
  }

  /** `variant_cli_idx`: the position of the first `CliVariants`, if any. */
  function VariantIndex(items: seq<ConfigItem>): (r: Option<nat>)
    ensures r.None? <==> forall i :: 0 <= i < |items| ==> items[i].Line?
    ensures r.Some? ==> r.value < |items| && items[r.value].Variants? && forall i :: 0 <= i < r.value ==> items[i].Line?
  {
    if items == [] then None
    else if items[0].Variants? then Some(0)
    else match VariantIndex(items[1..])
      case None => None
      case Some(k) => Some(k + 1)
  }

  /** Python's `raise err` with `err` still `None`. */
  const RaiseNone := TypeError("exceptions must derive from BaseException")

  /**
   * The variant loop of `config`: each variant spliced between `pre` and `post`
   * in turn, returning the first call that does not raise a command error, and
   * re-raising the last command error when every variant raised one.
   */
  function VariantsTrace(ch: Channel, h: seq<Run>, pre: seq<string>, vs: seq<seq<string>>, post: seq<string>, session: Option<string>, pwd: Option<string>, err: Option<Failure>): (t: Trace<seq<Json>>)
    requires Honest(ch)
    decreases |vs|
  {
    if vs == [] then Trace([], Failure(if err.Some? then err.value else RaiseNone))
    else
      var t := CfgTrace(ch, h, pre + vs[0] + post, session, pwd);
      if t.reply.Success? || !t.reply.error.CommandError? then t
      else
        var rest := VariantsTrace(ch, h + t.runs, pre, vs[1..], post, session, pwd, Some(t.reply.error));
        Trace(t.runs + rest.runs, rest.reply)
  }

  /** The command error of a variant attempt that lets the loop go on. */
  predicate TriesNext(reply: Result<seq<Json>, Failure>)
  {
    reply.Failure? && reply.error.CommandError?
  }

  /**
   * One turn of the variant loop: the first variant's call is the answer unless
   * it raised a command error, in which case the loop goes on over the rest
   * with that error as the one to re-raise.
   */
  lemma VariantsUnfold(ch: Channel, h: seq<Run>, pre: seq<string>, vs: seq<seq<string>>, post: seq<string>, session: Option<string>, pwd: Option<string>, err: Option<Failure>)
    requires Honest(ch) && vs != []
    ensures var first := CfgTrace(ch, h, pre + vs[0] + post, session, pwd);
      var t := VariantsTrace(ch, h, pre, vs, post, session, pwd, err);
      && first.runs == [Run(CfgBatch(pre + vs[0] + post, session, pwd), "json")]
      && (!TriesNext(first.reply) ==> t == first)
      && (TriesNext(first.reply) ==>
            var rest := VariantsTrace(ch, h + first.runs, pre, vs[1..], post, session, pwd, Some(first.reply.error));
            t == Trace(first.runs + rest.runs, rest.reply))
  {
  }

  /** Turn `j` of the variant loop, as the loop over the variants from `j` on. */
  lemma VariantsTurn(ch: Channel, h: seq<Run>, pre: seq<string>, vs: seq<seq<string>>, j: nat, post: seq<string>, session: Option<string>, pwd: Option<string>, err: Option<Failure>)
    requires Honest(ch) && j < |vs|
    ensures var first := CfgTrace(ch, h, pre + vs[j] + post, session, pwd);
      var t := VariantsTrace(ch, h, pre, vs[j..], post, session, pwd, err);
      && (!TriesNext(first.reply) ==> t == first)
      && (TriesNext(first.reply) ==>
            var rest := VariantsTrace(ch, h + first.runs, pre, vs[j + 1..], post, session, pwd, Some(first.reply.error));
            t == Trace(first.runs + rest.runs, rest.reply))
  {
    assert vs[j..][0] == vs[j] && vs[j..][1..] == vs[j + 1..];
    VariantsUnfold(ch, h, pre, vs[j..], post, session, pwd, err);
  }

  /**
   * The loop of `config` after the batches `done`: when the next variant's
   * call does not raise a command error, its answer is the loop's.
   */
  lemma VariantsReturn(ch: Channel, h0: seq<Run>, done: seq<Run>, pre: seq<string>, vs: seq<seq<string>>, j: nat, post: seq<string>, session: Option<string>, pwd: Option<string>, err: Option<Failure>, full: Trace<seq<Json>>)
    requires Honest(ch) && j < |vs|
    requires var t := VariantsTrace(ch, h0 + done, pre, vs[j..], post, session, pwd, err);
      full == Trace(done + t.runs, t.reply)
    requires !TriesNext(CfgTrace(ch, h0 + done, pre + vs[j] + post, session, pwd).reply)
    ensures var first := CfgTrace(ch, h0 + done, pre + vs[j] + post, session, pwd);
      full.reply == first.reply && h0 + full.runs == h0 + done + first.runs
  {
    VariantsTurn(ch, h0 + done, pre, vs, j, post, session, pwd, err);
    var first := CfgTrace(ch, h0 + done, pre + vs[j] + post, session, pwd);
    Assoc(h0, done, first.runs);
  }

  /**
   * The loop of `config` after the batches `done`: when the next variant's
   * call raises a command error, the loop goes on after one more batch with
   * that error as the one to re-raise.
   */
  lemma VariantsContinue(ch: Channel, h0: seq<Run>, done: seq<Run>, pre: seq<string>, vs: seq<seq<string>>, j: nat, post: seq<string>, session: Option<string>, pwd: Option<string>, err: Option<Failure>, full: Trace<seq<Json>>)
    requires Honest(ch) && j < |vs|
    requires var t := VariantsTrace(ch, h0 + done, pre, vs[j..], post, session, pwd, err);
      full == Trace(done + t.runs, t.reply)
    requires TriesNext(CfgTrace(ch, h0 + done, pre + vs[j] + post, session, pwd).reply)
    ensures var first := CfgTrace(ch, h0 + done, pre + vs[j] + post, session, pwd);
      var done' := done + first.runs;
      var t := VariantsTrace(ch, h0 + done', pre, vs[j + 1..], post, session, pwd, Some(first.reply.error));
      && h0 + done' == h0 + done + first.runs
      && full == Trace(done' + t.runs, t.reply)
  {
    VariantsTurn(ch, h0 + done, pre, vs, j, post, session, pwd, err);
    var first := CfgTrace(ch, h0 + done, pre + vs[j] + post, session, pwd);
    var rest := VariantsTrace(ch, h0 + done + first.runs, pre, vs[j + 1..], post, session, pwd, Some(first.reply.error));
    Assoc(h0, done, first.runs);
    Assoc(done, first.runs, rest.runs);
  }

  /** The batch of every variant in turn, spliced between `pre` and `post`, as `cfg_call` sends it. */
  function VariantRuns(pre: seq<string>, vs: seq<seq<string>>, post: seq<string>, session: Option<string>, pwd: Option<string>): (r: seq<Run>)
    ensures |r| == |vs|
    decreases |vs|
  {
    if vs == [] then []
    else [Run(CfgBatch(pre + vs[0] + post, session, pwd), "json")] + VariantRuns(pre, vs[1..], post, session, pwd)
  }

  /** Batch `j` of the variant loop holds variant `j`. */
  lemma {:induction false} VariantRunsAt(pre: seq<string>, vs: seq<seq<string>>, post: seq<string>, session: Option<string>, pwd: Option<string>, j: nat)
    requires j < |vs|
    ensures VariantRuns(pre, vs, post, session, pwd)[j] == Run(CfgBatch(pre + vs[j] + post, session, pwd), "json")
    decreases j
  {
    if j > 0 {
      VariantRunsAt(pre, vs[1..], post, session, pwd, j - 1);
      assert vs[1..][j - 1] == vs[j];
    }
  }

  /** Concatenation is associative. */
  lemma Assoc<T>(a: seq<T>, b: seq<T>, c: seq<T>)
    ensures a + (b + c) == (a + b) + c
  {
  }

  /** A first element followed by the first `n` of the rest is the first `n + 1` of the whole. */
  lemma PrefixCons<T>(a: T, s: seq<T>, n: nat)
    requires n <= |s|
    ensures ([a] + s)[..n + 1] == [a] + s[..n]
  {
    assert ([a] + s)[..n + 1][1..] == s[..n];
  }

  /** The batches the variant loop sends: the first few of `VariantRuns`, at least one. */
  ghost predicate SentInOrder(ch: Channel, h: seq<Run>, pre: seq<string>, vs: seq<seq<string>>, post: seq<string>, session: Option<string>, pwd: Option<string>, err: Option<Failure>)
    requires Honest(ch)
  {
    var t := VariantsTrace(ch, h, pre, vs, post, session, pwd, err);
    1 <= |t.runs| <= |vs| && t.runs == VariantRuns(pre, vs, post, session, pwd)[..|t.runs|]
  }

  /** The variants are tried in order, one batch each, and at least the first one is. */
  lemma {:induction false} VariantsInOrder(ch: Channel, h: seq<Run>, pre: seq<string>, vs: seq<seq<string>>, post: seq<string>, session: Option<string>, pwd: Option<string>, err: Option<Failure>)
    requires Honest(ch) && vs != []
    ensures SentInOrder(ch, h, pre, vs, post, session, pwd, err)
    decreases |vs|
  {
    var first := CfgTrace(ch, h, pre + vs[0] + post, session, pwd);
    if TriesNext(first.reply) && |vs| > 1 {
      VariantsInOrder(ch, h + first.runs, pre, vs[1..], post, session, pwd, Some(first.reply.error));
      InOrderNext(ch, h, pre, vs, post, session, pwd, err);
    } else {
      InOrderFirst(ch, h, pre, vs, post, session, pwd, err);
    }
  }

  /** When the first attempt ends the loop, its batch is the only one. */
  lemma InOrderFirst(ch: Channel, h: seq<Run>, pre: seq<string>, vs: seq<seq<string>>, post: seq<string>, session: Option<string>, pwd: Option<string>, err: Option<Failure>)
    requires Honest(ch) && vs != []
    requires var first := CfgTrace(ch, h, pre + vs[0] + post, session, pwd);
      !(TriesNext(first.reply) && |vs| > 1)
    ensures SentInOrder(ch, h, pre, vs, post, session, pwd, err)
  {
    var first := CfgTrace(ch, h, pre + vs[0] + post, session, pwd);
    var r0 := Run(CfgBatch(pre + vs[0] + post, session, pwd), "json");
    VariantsUnfold(ch, h, pre, vs, post, session, pwd, err);
    if TriesNext(first.reply) {
      VariantsLast(ch, h, pre, vs, post, session, pwd, err);
    }
    var all := VariantRuns(pre, vs, post, session, pwd);
    assert all == [r0] + VariantRuns(pre, vs[1..], post, session, pwd);
    assert all[..1] == [r0];
  }

  /** When the first attempt raised a command error, its batch comes before those of the rest. */
  lemma InOrderNext(ch: Channel, h: seq<Run>, pre: seq<string>, vs: seq<seq<string>>, post: seq<string>, session: Option<string>, pwd: Option<string>, err: Option<Failure>)
    requires Honest(ch) && |vs| > 1
    requires var first := CfgTrace(ch, h, pre + vs[0] + post, session, pwd);
      && TriesNext(first.reply)
      && SentInOrder(ch, h + first.runs, pre, vs[1..], post, session, pwd, Some(first.reply.error))
    ensures SentInOrder(ch, h, pre, vs, post, session, pwd, err)
  {
    var first := CfgTrace(ch, h, pre + vs[0] + post, session, pwd);
    var r0 := Run(CfgBatch(pre + vs[0] + post, session, pwd), "json");
    var later := VariantRuns(pre, vs[1..], post, session, pwd);
    var rest := VariantsTrace(ch, h + first.runs, pre, vs[1..], post, session, pwd, Some(first.reply.error));
    var t := VariantsTrace(ch, h, pre, vs, post, session, pwd, err);
    VariantsUnfold(ch, h, pre, vs, post, session, pwd, err);
    assert t.runs == [r0] + rest.runs && rest.runs == later[..|rest.runs|];
    assert VariantRuns(pre, vs, post, session, pwd) == [r0] + later;
    PrefixCons(r0, later, |rest.runs|);
  }

  /** The reply of attempt `j` of the variant loop, after the batches of the attempts before it. */
  function Attempt(ch: Channel, h: seq<Run>, pre: seq<string>, vs: seq<seq<string>>, post: seq<string>, session: Option<string>, pwd: Option<string>, j: nat): Result<seq<Json>, Failure>
    requires Honest(ch) && j < |vs|
  {
    CfgTrace(ch, h + VariantRuns(pre, vs, post, session, pwd)[..j], pre + vs[j] + post, session, pwd).reply
  }

  /** Attempt `j` is attempt `j - 1` of the loop over the later variants, once the first batch has been sent. */
  lemma AttemptShift(ch: Channel, h: seq<Run>, pre: seq<string>, vs: seq<seq<string>>, post: seq<string>, session: Option<string>, pwd: Option<string>, j: nat)
    requires Honest(ch) && 1 <= j < |vs|
    ensures var r0 := Run(CfgBatch(pre + vs[0] + post, session, pwd), "json");
      Attempt(ch, h, pre, vs, post, session, pwd, j) == Attempt(ch, h + [r0], pre, vs[1..], post, session, pwd, j - 1)
  {
    var r0 := Run(CfgBatch(pre + vs[0] + post, session, pwd), "json");
    var later := VariantRuns(pre, vs[1..], post, session, pwd);
    assert VariantRuns(pre, vs, post, session, pwd) == [r0] + later;
    PrefixCons(r0, later, j - 1);
    assert h + ([r0] + later[..j - 1]) == h + [r0] + later[..j - 1];
    assert vs[1..][j - 1] == vs[j];
  }

  /**
   * Every attempt but the last raised a command error; the loop stops before
   * the end only at an attempt that did not; and `config` answers what the
   * last attempt answered, so the last command error is the one re-raised.
   */
  ghost predicate AnswersLast(ch: Channel, h: seq<Run>, pre: seq<string>, vs: seq<seq<string>>, post: seq<string>, session: Option<string>, pwd: Option<string>, err: Option<Failure>)
    requires Honest(ch)
  {
    var t := VariantsTrace(ch, h, pre, vs, post, session, pwd, err);
    && 1 <= |t.runs| <= |vs|
    && (forall j :: 0 <= j < |t.runs| - 1 ==> TriesNext(Attempt(ch, h, pre, vs, post, session, pwd, j)))
    && var last := Attempt(ch, h, pre, vs, post, session, pwd, |t.runs| - 1);
       t.reply == last && (|t.runs| < |vs| ==> !TriesNext(last))
  }

  /** The variant loop answers as its last attempt did, whatever the channel answers. */
  lemma {:induction false} VariantsLastAnswers(ch: Channel, h: seq<Run>, pre: seq<string>, vs: seq<seq<string>>, post: seq<string>, session: Option<string>, pwd: Option<string>, err: Option<Failure>)
    requires Honest(ch) && vs != []
    ensures AnswersLast(ch, h, pre, vs, post, session, pwd, err)
    decreases |vs|
  {
    var first := CfgTrace(ch, h, pre + vs[0] + post, session, pwd);
    if TriesNext(first.reply) && |vs| > 1 {
      VariantsLastAnswers(ch, h + first.runs, pre, vs[1..], post, session, pwd, Some(first.reply.error));
      AnswersLastNext(ch, h, pre, vs, post, session, pwd, err);
    } else {
      AnswersLastFirst(ch, h, pre, vs, post, session, pwd, err);
    }
  }

  /** Attempt 0 is the call with the first variant, after nothing more than the history. */
  lemma AttemptFirst(ch: Channel, h: seq<Run>, pre: seq<string>, vs: seq<seq<string>>, post: seq<string>, session: Option<string>, pwd: Option<string>)
    requires Honest(ch) && vs != []
    ensures Attempt(ch, h, pre, vs, post, session, pwd, 0) == CfgTrace(ch, h, pre + vs[0] + post, session, pwd).reply
  {
    assert h + VariantRuns(pre, vs, post, session, pwd)[..0] == h;
  }

  /** When the first attempt ends the loop, it is the last attempt. */
  lemma AnswersLastFirst(ch: Channel, h: seq<Run>, pre: seq<string>, vs: seq<seq<string>>, post: seq<string>, session: Option<string>, pwd: Option<string>, err: Option<Failure>)
    requires Honest(ch) && vs != []
    requires var first := CfgTrace(ch, h, pre + vs[0] + post, session, pwd);
      !(TriesNext(first.reply) && |vs| > 1)
    ensures AnswersLast(ch, h, pre, vs, post, session, pwd, err)
  {
    var first := CfgTrace(ch, h, pre + vs[0] + post, session, pwd);
    VariantsUnfold(ch, h, pre, vs, post, session, pwd, err);
    AttemptFirst(ch, h, pre, vs, post, session, pwd);
    if TriesNext(first.reply) {
      VariantsLast(ch, h, pre, vs, post, session, pwd, err);
    }
    var t := VariantsTrace(ch, h, pre, vs, post, session, pwd, err);
    assert t == first && |t.runs| == 1;
  }

  /** When the first attempt raised a command error, the loop answers as the loop over the rest. */
  lemma AnswersLastNext(ch: Channel, h: seq<Run>, pre: seq<string>, vs: seq<seq<string>>, post: seq<string>, session: Option<string>, pwd: Option<string>, err: Option<Failure>)
    requires Honest(ch) && |vs| > 1
    requires var first := CfgTrace(ch, h, pre + vs[0] + post, session, pwd);
      && TriesNext(first.reply)
      && AnswersLast(ch, h + first.runs, pre, vs[1..], post, session, pwd, Some(first.reply.error))
    ensures AnswersLast(ch, h, pre, vs, post, session, pwd, err)
  {
    var first := CfgTrace(ch, h, pre + vs[0] + post, session, pwd);
    var h' := h + first.runs;
    var t := VariantsTrace(ch, h, pre, vs, post, session, pwd, err);
    var rest := VariantsTrace(ch, h', pre, vs[1..], post, session, pwd, Some(first.reply.error));
    VariantsUnfold(ch, h, pre, vs, post, session, pwd, err);
    AttemptFirst(ch, h, pre, vs, post, session, pwd);
    assert |t.runs| == 1 + |rest.runs| && t.reply == rest.reply;
    forall j | 1 <= j < |t.runs|
      ensures Attempt(ch, h, pre, vs, post, session, pwd, j) == Attempt(ch, h', pre, vs[1..], post, session, pwd, j - 1)
    {
      AttemptShift(ch, h, pre, vs, post, session, pwd, j);
    }
  }

  /** With one variant left, a command error is re-raised after the one batch. */
  lemma VariantsLast(ch: Channel, h: seq<Run>, pre: seq<string>, vs: seq<seq<string>>, post: seq<string>, session: Option<string>, pwd: Option<string>, err: Option<Failure>)
    requires Honest(ch) && |vs| == 1
    requires TriesNext(CfgTrace(ch, h, pre + vs[0] + post, session, pwd).reply)
    ensures VariantsTrace(ch, h, pre, vs, post, session, pwd, err) == CfgTrace(ch, h, pre + vs[0] + post, session, pwd)
  {
    var first := CfgTrace(ch, h, pre + vs[0] + post, session, pwd);
    assert vs[1..] == [];
    var rest := VariantsTrace(ch, h + first.runs, pre, vs[1..], post, session, pwd, Some(first.reply.error));
    assert rest == Trace([], first.reply);
    assert first.runs + [] == first.runs;
  }

  /**
   * `config`: with no `CliVariants` one `cfg_call` with the command lines;
   * otherwise the variant loop over the variants of the first one.
   */
  function ConfigTrace(ch: Channel, h: seq<Run>, items: seq<ConfigItem>, session: Option<string>, pwd: Option<string>): (t: Trace<seq<Json>>)
    requires Honest(ch) && AtMostOneVariants(items)
    ensures VariantIndex(items).None? ==> t.runs == [Run(CfgBatch(Plain(items), session, pwd), "json")]
  {
    match VariantIndex(items)
    case None => CfgTrace(ch, h, Plain(items), session, pwd)
    case Some(k) =>
      VariantsTrace(ch, h, Plain(items[..k]), items[k].variants, Plain(items[k + 1..]), session, pwd, None)
  }

  /** `configure_session`: an open session keeps its name; otherwise the new one is taken. */
  function NextSessionName(current: Option<string>, newName: string): (r: Option<string>)
    requires newName != ""
    ensures Truthy(r)
    ensures Truthy(current) ==> r == current
  {
    if Truthy(current) then current else Some(newName)
  }

  /** Entering a session twice keeps the first name: the second new name is never used. */
  lemma {:induction false} EnterSessionTwice(current: Option<string>, name1: string, name2: string)
    requires name1 != "" && name2 != ""
    ensures NextSessionName(NextSessionName(current, name1), name2) == NextSessionName(current, name1)
  {
    assert Truthy(NextSessionName(current, name1));
  }

  /** `obj[key]` on a JSON value: `KeyError` for a missing key, `TypeError` on a non-object. */
  function Item(j: Json, key: string): (r: Result<Json, Failure>)
    ensures HasKey(j, key) <==> r.Success?
    ensures r.Success? ==> r.value == j.fields[key]
    ensures j.Obj? && !HasKey(j, key) ==> r == Failure(KeyError(key))
  {
    if j.Obj? then (if key in j.fields then Success(j.fields[key]) else Failure(KeyError(key)))
    else Failure(TypeError("indices must be integers"))
  }

  /** `diff`'s answer: `response[0]["output"]` of the session call. */
  function DiffOutput(reply: Result<seq<Json>, Failure>): (r: Result<Json, Failure>)
    requires reply.Success? ==> |reply.value| == 1
    ensures reply.Failure? ==> r == Failure(reply.error)
    ensures reply.Success? ==> r == Item(reply.value[0], "output")
  {
    if reply.Failure? then Failure(reply.error) else Item(reply.value[0], "output")
  }

  // ---------------------------------------------------------------- get_config

  /** `get_config`'s result: the stripped text, or the text split at newlines. */
  datatype ConfigText = AsString(text: string) | AsLines(lines: seq<string>)

  /** The two configurations `get_config` knows. */
  predicate KnownConfig(config: string)
  {
    config == "startup-config" || config == "running-config"
  }

  /** `show <config>`, followed by the parameters when some are given. */
  function ShowConfigCommand(config: string, params: Option<string>): (r: string)
    ensures StartsWith(r, "show " + config)
    ensures Truthy(params) <==> |r| > |"show " + config|
    ensures Truthy(params) ==> r[|"show " + config|..] == " " + params.value
  {
    if Truthy(params) then "show " + config + " " + params.value else "show " + config
  }

  /** The configuration text shaped as asked. */
  function Shape(text: string, asString: bool): (r: ConfigText)
    ensures asString ==> r == AsString(Strip(text))
    ensures !asString ==> r.AsLines? && JoinWith(r.lines, "\n") == text
    ensures !asString ==> forall i :: 0 <= i < |r.lines| ==> '\n' !in r.lines[i]
  {
    if asString then AsString(Strip(text))
    else
      SplitJoin(text, "\n");
      SplitNoChar(text, '\n');
      AsLines(Split(text, "\n"))
  }

  /** The `output` of a text reply as a string; other JSON values are refused. */
  function TextOf(reply: Result<seq<Json>, Failure>): (r: Result<string, Failure>)
    requires reply.Success? ==> |reply.value| == 1
    ensures reply.Failure? ==> r == Failure(reply.error)
    ensures r.Success? <==> reply.Success? && Item(reply.value[0], "output").Success? && Item(reply.value[0], "output").value.Str?
    ensures r.Success? ==> Item(reply.value[0], "output") == Success(Str(r.value))
  {
    if reply.Failure? then Failure(reply.error)
    else match Item(reply.value[0], "output")
      case Failure(e) => Failure(e)
      case Success(Str(s)) => Success(s)
      case Success(_) => Failure(TypeError("output is not text"))
  }

  /**
   * `get_config`: an unknown configuration name is refused before anything is
   * sent; otherwise one text run of `show <config> [params]`, its output
   * stripped or split into lines.
   */
  function GetConfigTrace(ch: Channel, h: seq<Run>, config: string, params: Option<string>, asString: bool, pwd: Option<string>): (t: Trace<ConfigText>)
    requires Honest(ch)
    ensures !KnownConfig(config) <==> t.runs == []
    ensures !KnownConfig(config) ==> t.reply == Failure(TypeError("invalid config name specified"))
    ensures KnownConfig(config) ==> t.runs == [Run(RunBatch([ShowConfigCommand(config, params)], true, pwd), "text")]
    ensures KnownConfig(config) && ch(h, t.runs[0]).Failure? ==> t.reply == Failure(ch(h, t.runs[0]).error)
    ensures KnownConfig(config) && t.reply.Success? ==>
      var out := ch(h, t.runs[0]);
      && out.Success? && |out.value| == 2
      && Item(out.value[1], "output").Success? && Item(out.value[1], "output").value.Str?
      && t.reply.value == Shape(Item(out.value[1], "output").value.s, asString)
  {
    if !KnownConfig(config) then Trace([], Failure(TypeError("invalid config name specified")))
    else
      var command := ShowConfigCommand(config, params);
      var res := RunReply(ch, h, [command], "text", true, pwd);
      Trace([Run(RunBatch([command], true, pwd), "text")],
        match TextOf(res)
        case Failure(e) => Failure(e)
        case Success(s) => Success(Shape(s, asString)))
  }

  /** The lines `get_config` returns hold no line break and join back, with newlines, into the switch's output. */
  lemma GetConfigLinesJoin(ch: Channel, h: seq<Run>, config: string, params: Option<string>, pwd: Option<string>)
    requires Honest(ch)
    ensures var t := GetConfigTrace(ch, h, config, params, false, pwd);
      t.reply.Success? ==>
        && t.reply.value.AsLines?
        && ch(h, t.runs[0]).Success?
        && Item(ch(h, t.runs[0]).value[1], "output") == Success(Str(JoinWith(t.reply.value.lines, "\n")))
        && forall i :: 0 <= i < |t.reply.value.lines| ==> '\n' !in t.reply.value.lines[i]
  {
  }

  // ---------------------------------------------------------------- the node

  /** A node: the channel, the record of runs, and the client-side state. */
  class Node {
    const device: Channel
    /** Every batch run so far, oldest first. */
    var sent: seq<Run>
    var enablepwd: Option<string>
    var autorefresh: bool
    var sessionName: Option<string>
    var runningConfig: Option<string>
    var startupConfig: Option<string>

    ghost predicate Valid()
    {
      Honest(device)
    }

    constructor (device: Channel, enablepwd: Option<string>, autorefresh: bool)
      requires Honest(device)
      ensures Valid() && this.device == device && sent == []
      ensures this.enablepwd == enablepwd && this.autorefresh == autorefresh
      ensures sessionName == None && runningConfig == None && startupConfig == None
    {
      this.device := device;
      sent := [];
      this.enablepwd := enablepwd;
      this.autorefresh := autorefresh;
      sessionName := None;
      runningConfig := None;
      startupConfig := None;
    }

    /** `enable_authentication`: the password is kept stripped. */
    method EnableAuthentication(password: string)
      modifies this`enablepwd
      ensures enablepwd == Some(Strip(password))
    {
      enablepwd := Some(Strip(password));
    }

    /** `refresh`: forget both cached configurations. */
    method Refresh()
      modifies this`runningConfig, this`startupConfig
      ensures runningConfig == None && startupConfig == None
    {
      runningConfig := None;
      startupConfig := None;
    }

    /** `configure_session`: open a session under `newName` unless one is open. */
    method EnterSession(newName: string)
      requires newName != ""
      modifies this`sessionName
      ensures sessionName == NextSessionName(old(sessionName), newName)
    {
      if !Truthy(sessionName) {
        sessionName := Some(newName);
      }
    }

    /** `run_commands`: one run of the rewritten batch; the `enable` output is popped. */
    method RunCommands(commands: seq<string>, encoding: string, sendEnable: bool) returns (r: Result<seq<Json>, Failure>)
      requires Valid()
      modifies this`sent
      ensures sent == old(sent) + [Run(RunBatch(commands, sendEnable, enablepwd), encoding)]
      ensures r == RunReply(device, old(sent), commands, encoding, sendEnable, enablepwd)
    {
      var cmds := seq(|commands|, i requires 0 <= i < |commands| => Rewrite(commands[i]));
      forall i | 0 <= i < |commands|
        ensures cmds[i] == RewriteAll(commands)[i]
      {
        RewriteAllAt(commands, i);
      }
      assert cmds == RewriteAll(commands);
      if sendEnable {
        if Truthy(enablepwd) {
          cmds := [Interactive("enable", enablepwd.value)] + cmds;
        } else {
          cmds := [Cmd("enable")] + cmds;
        }
      }
      var run := Run(cmds, encoding);
      assert run == Run(RunBatch(commands, sendEnable, enablepwd), encoding);
      var response := device(sent, run);
      sent := sent + [run];
      if response.Failure? {
        return Failure(response.error);
      }
      var out := response.value;
      if sendEnable {
        out := out[1..];
      }
      r := Success(out);
    }

    /** `enable`, strict or retrying each command in text on code 1003. */
    method Enable(commands: seq<string>, encoding: string, strict: bool, sendEnable: bool) returns (r: Result<seq<EnableResult>, Failure>)
      requires Valid()
      modifies this`sent
      ensures var t := EnableTrace(device, old(sent), commands, encoding, strict, sendEnable, enablepwd);
        sent == old(sent) + t.runs && r == t.reply
    {
      if "configure" in commands {
        return Failure(ConfigureNotSupported);
      }
      if strict {
        r := EnableStrictly(commands, encoding, sendEnable);
        return;
      }
      r := EnableOneByOne(commands, encoding, sendEnable);
    }

    /** Non-strict `enable`: the commands one at a time, stopping at the first that raises. */
    method EnableOneByOne(commands: seq<string>, encoding: string, sendEnable: bool) returns (r: Result<seq<EnableResult>, Failure>)
      requires Valid()
      modifies this`sent
      ensures var t := EnableEach(device, old(sent), commands, encoding, sendEnable, enablepwd);
        sent == old(sent) + t.runs && r == t.reply
    {
      var results: seq<EnableResult> := [];
      ghost var h0 := sent;
      ghost var ch, pwd := device, enablepwd;
      ghost var runs: seq<Run> := [];
      var i := 0;
      while i < |commands|
        invariant 0 <= i <= |commands| && ch == device && pwd == enablepwd
        invariant sent == h0 + runs
        invariant EnableEach(ch, h0, commands[..i], encoding, sendEnable, pwd) == Trace(runs, Success(results))
      {
        EnableEachStep(ch, h0, commands, i, encoding, sendEnable, pwd, results);
        ghost var attempt := EnableOne(ch, h0 + runs, commands[i], encoding, sendEnable, pwd);
        var one := EnableEntry(commands[i], encoding, sendEnable);
        Assoc(h0, runs, attempt.runs);
        runs := runs + attempt.runs;
        if one.Failure? {
          return Failure(one.error);
        }
        results := results + [one.value];
        i := i + 1;
      }
      assert commands[..i] == commands;
      r := Success(results);
    }

    /** Strict `enable`: one run, each output paired with its command. */
    method EnableStrictly(commands: seq<string>, encoding: string, sendEnable: bool) returns (r: Result<seq<EnableResult>, Failure>)
      requires Valid()
      modifies this`sent
      ensures var t := EnableStrict(device, old(sent), commands, encoding, sendEnable, enablepwd);
        sent == old(sent) + t.runs && r == t.reply
    {
      var responses := RunCommands(commands, encoding, sendEnable);
      if responses.Failure? {
        return Failure(responses.error);
      }
      var results: seq<EnableResult> := [];
      var index := 0;
      while index < |responses.value|
        invariant 0 <= index <= |responses.value| == |commands|
        invariant |results| == index
        invariant forall i :: 0 <= i < index ==>
          results[i] == EnableResult(commands[i], responses.value[i], Some(responses.value[i]), encoding)
      {
        var response := responses.value[index];
        results := results + [EnableResult(commands[index], response, Some(response), encoding)];
        index := index + 1;
      }
      assert results == seq(|commands|, i requires 0 <= i < |commands| => EnableResult(commands[i], responses.value[i], Some(responses.value[i]), encoding));
      r := Success(results);
    }

    /** One command of non-strict `enable`, retried in text on code 1003. */
    method EnableEntry(command: string, encoding: string, sendEnable: bool) returns (r: Result<EnableResult, Failure>)
      requires Valid()
      modifies this`sent
      ensures var t := EnableOne(device, old(sent), command, encoding, sendEnable, enablepwd);
        sent == old(sent) + t.runs && r == t.reply
    {
      var resp := RunCommands([command], encoding, sendEnable);
      if resp.Success? {
        return Success(EnableResult(command, resp.value[0], None, encoding));
      }
      if resp.error.CommandError? && resp.error.code == 1003 {
        resp := RunCommands([command], "text", sendEnable);
        if resp.Failure? {
          return Failure(resp.error);
        }
        return Success(EnableResult(command, resp.value[0], None, "text"));
      }
      r := Failure(resp.error);
    }

    /** `_configure_terminal`: refreshes the cached configurations after a success when `autorefresh` is on. */
    method ConfigureTerminal(commands: seq<string>, encoding: string) returns (r: Result<seq<Json>, Failure>)
      requires Valid()
      modifies this`sent, this`runningConfig, this`startupConfig
      ensures var t := TerminalTrace(device, old(sent), commands, encoding, enablepwd);
        sent == old(sent) + t.runs && r == t.reply
      ensures if r.Success? && autorefresh then runningConfig == None && startupConfig == None
              else runningConfig == old(runningConfig) && startupConfig == old(startupConfig)
    {
      var cmds := ["configure terminal"] + commands;
      var response := RunCommands(cmds, encoding, true);
      if response.Failure? {
        return Failure(response.error);
      }
      if autorefresh {
        Refresh();
      }
      r := Success(response.value[1..]);
    }

    /** `_configure_session`: raises when no session is open. */
    method ConfigureSession(commands: seq<string>, encoding: string) returns (r: Result<seq<Json>, Failure>)
      requires Valid()
      modifies this`sent
      ensures var t := SessionTrace(device, old(sent), commands, encoding, sessionName, enablepwd);
        sent == old(sent) + t.runs && r == t.reply
    {
      if !Truthy(sessionName) {
        return Failure(NotInSession);
      }
      var cmds := ["configure session " + sessionName.value] + commands;
      var response := RunCommands(cmds, encoding, true);
      if response.Failure? {
        return Failure(response.error);
      }
      r := Success(response.value[1..]);
    }

    /** `cfg_call`, chosen by whether a session is open. */
    method CfgCall(commands: seq<string>) returns (r: Result<seq<Json>, Failure>)
      requires Valid()
      modifies this`sent, this`runningConfig, this`startupConfig
      ensures var t := CfgTrace(device, old(sent), commands, sessionName, enablepwd);
        sent == old(sent) + t.runs && r == t.reply
      ensures if r.Success? && !Truthy(sessionName) && autorefresh then runningConfig == None && startupConfig == None
              else runningConfig == old(runningConfig) && startupConfig == old(startupConfig)
    {
      if Truthy(sessionName) {
        r := ConfigureSession(commands, "json");
      } else {
        r := ConfigureTerminal(commands, "json");
      }
    }

    /** `config`, with the `CliVariants` retry loop. */
    method Config(items: seq<ConfigItem>) returns (r: Result<seq<Json>, Failure>)
      requires Valid() && AtMostOneVariants(items)
      modifies this`sent, this`runningConfig, this`startupConfig
      ensures var t := ConfigTrace(device, old(sent), items, sessionName, enablepwd);
        sent == old(sent) + t.runs && r == t.reply
      ensures if r.Success? && !Truthy(sessionName) && autorefresh then runningConfig == None && startupConfig == None
              else runningConfig == old(runningConfig) && startupConfig == old(startupConfig)
    {
      var idx := VariantIndex(items);
      if idx.None? {
        r := CfgCall(Plain(items));
        return;
      }
      var k := idx.value;
      var pre := Plain(items[..k]);
      var vs := items[k].variants;
      var post := Plain(items[k + 1..]);
      ghost var h0, sess, pwd := sent, sessionName, enablepwd;
      ghost var full := VariantsTrace(device, h0, pre, vs, post, sess, pwd, None);
      assert ConfigTrace(device, h0, items, sess, pwd) == full;
      ghost var done: seq<Run> := [];
      assert h0 + done == h0 && vs[0..] == vs;
      var err: Option<Failure> := None;
      var j := 0;
      while j < |vs|
        invariant 0 <= j <= |vs|
        invariant sessionName == sess && enablepwd == pwd
        invariant sent == h0 + done
        invariant var t := VariantsTrace(device, h0 + done, pre, vs[j..], post, sess, pwd, err);
          full == Trace(done + t.runs, t.reply)
        invariant runningConfig == old(runningConfig) && startupConfig == old(startupConfig)
      {
        ghost var first := CfgTrace(device, h0 + done, pre + vs[j] + post, sess, pwd);
        var res := CfgCall(pre + vs[j] + post);
        if res.Success? || !res.error.CommandError? {
          VariantsReturn(device, h0, done, pre, vs, j, post, sess, pwd, err, full);
          return res;
        }
        VariantsContinue(device, h0, done, pre, vs, j, post, sess, pwd, err, full);
        err := Some(res.error);
        done := done + first.runs;
        j := j + 1;
      }
      assert vs[j..] == [];
      r := Failure(if err.Some? then err.value else RaiseNone);
    }

    /** `_configure_and_exit_session`: the session name is cleared once the call succeeds. */
    method ConfigureAndExitSession(commands: seq<string>) returns (r: Result<seq<Json>, Failure>)
      requires Valid()
      modifies this`sent, this`runningConfig, this`startupConfig, this`sessionName
      ensures var t := SessionTrace(device, old(sent), commands, "json", old(sessionName), enablepwd);
        sent == old(sent) + t.runs && r == t.reply
      ensures r.Success? ==> sessionName == None
      ensures r.Failure? ==> sessionName == old(sessionName)
      ensures if r.Success? && autorefresh then runningConfig == None && startupConfig == None
              else runningConfig == old(runningConfig) && startupConfig == old(startupConfig)
    {
      r := ConfigureSession(commands, "json");
      if r.Failure? {
        return;
      }
      if autorefresh {
        Refresh();
      }
      sessionName := None;
    }

    /** `commit`: `commit` inside the session, which is then left. */
    method Commit() returns (r: Result<seq<Json>, Failure>)
      requires Valid()
      modifies this`sent, this`runningConfig, this`startupConfig, this`sessionName
      ensures var t := SessionTrace(device, old(sent), ["commit"], "json", old(sessionName), enablepwd);
        sent == old(sent) + t.runs && r == t.reply
      ensures r.Success? ==> sessionName == None
      ensures r.Failure? ==> sessionName == old(sessionName)
      ensures if r.Success? && autorefresh then runningConfig == None && startupConfig == None
              else runningConfig == old(runningConfig) && startupConfig == old(startupConfig)
    {
      r := ConfigureAndExitSession(["commit"]);
    }

    /** `abort`: `abort` inside the session; the session name is kept. */
    method Abort() returns (r: Result<seq<Json>, Failure>)
      requires Valid()
      modifies this`sent
      ensures var t := SessionTrace(device, old(sent), ["abort"], "json", sessionName, enablepwd);
        sent == old(sent) + t.runs && r == t.reply
    {
      r := ConfigureSession(["abort"], "json");
    }

    /** `diff`: the session's diffs in text, as `response[0]["output"]`. */
    method Diff() returns (r: Result<Json, Failure>)
      requires Valid()
      modifies this`sent
      ensures var t := SessionTrace(device, old(sent), ["show session-config diffs"], "text", sessionName, enablepwd);
        sent == old(sent) + t.runs && r == DiffOutput(t.reply)
    {
      var response := ConfigureSession(["show session-config diffs"], "text");
      if response.Failure? {
        return Failure(response.error);
      }
      r := Item(response.value[0], "output");
    }

    /** `get_config`. */
    method GetConfig(config: string, params: Option<string>, asString: bool) returns (r: Result<ConfigText, Failure>)
      requires Valid()
      modifies this`sent
      ensures var t := GetConfigTrace(device, old(sent), config, params, asString, enablepwd);
        sent == old(sent) + t.runs && r == t.reply
    {
      if !KnownConfig(config) {
        return Failure(TypeError("invalid config name specified"));
      }
      var command := "show " + config;
      if Truthy(params) {
        command := command + " " + params.value;
      }
      assert command == ShowConfigCommand(config, params);
      var result := RunCommands([command], "text", true);
      var text := TextOf(result);
      if text.Failure? {
        return Failure(text.error);
      }
      if asString {
        r := Success(AsString(Strip(text.value)));
      } else {
        r := Success(AsLines(Split(text.value, "\n")));
      }
    }
  }
}
