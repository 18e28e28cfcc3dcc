/**
 * The eAPI client of `asynceapi`: `Transport.form_command` builds the `runCmds`
 * request and `Transport.post` turns the response into one `CommandResults`
 * record per command, in batch order, instead of raising on a failed command.
 * `Device` adds `exec`, `get_config` and `push_config` on top.
 *
 * The HTTP exchange is an oracle: `Transport.server` is the switch's answer to a
 * request.
 */
module AsyncDevice {

  import opened Wrappers
  import opened Json
  import opened Text
  import opened Rpc
  import AioDevice

  /** `CommandResults(ok, command, output)`; `output` is `Null` for a command never executed. */
  datatype CommandResult = CommandResult(ok: bool, command: Command, output: Json)

  /** The exception `exec` raises when a keyword reaches `post` that it does not accept. */
  datatype Error = TypeError

  /** What `post` needs of a body: an entry per result has a command, and the reduction runs. */
  predicate Postable(cmds: seq<Command>, text: bool, body: Body)
  {
    match body
    case Result(result) => |result| <= |cmds| && Unwrappable(text, result)
    case Error(_, data) => 1 <= |data| <= |cmds| && Unwrappable(text, data[..|data| - 1])
  }

  /** The record `post` appends for command `k` of a batch that failed at `|data| - 1`. */
  function ErrorEntry(cmds: seq<Command>, text: bool, message: string, data: seq<Json>, k: nat): CommandResult
    requires 1 <= |data| <= |cmds| && Unwrappable(text, data[..|data| - 1]) && k < |cmds|
  {
    var errAt := |data| - 1;
    if k < errAt then
      assert data[..errAt][k] == data[k];
      CommandResult(true, cmds[k], Output(text, data[k]))
    else if k == errAt then CommandResult(false, cmds[k], Str(message))
    else CommandResult(false, cmds[k], Null)
  }

  /**
   * The list `post` returns. Without an error, one passed record per result
   * entry. With an error, one record per command of the batch: the commands
   * before the failing one passed, the failing one carries the error message,
   * and the rest were never executed.
   */
  function PostResults(cmds: seq<Command>, text: bool, body: Body): (r: seq<CommandResult>)
    requires Postable(cmds, text, body)
    ensures body.Result? ==>
      && |r| == |body.result|
      && forall i :: 0 <= i < |r| ==> r[i] == CommandResult(true, cmds[i], Output(text, body.result[i]))
    ensures body.Error? ==>
      && |r| == |cmds|
      && (forall i :: 0 <= i < |r| ==> r[i].command == cmds[i] && (r[i].ok <==> i < |body.data| - 1))
      && (forall i :: 0 <= i < |body.data| - 1 ==> r[i].output == Output(text, body.data[..|body.data| - 1][i]))
      && r[|body.data| - 1].output == Str(body.message)
      && (forall i :: |body.data| <= i < |r| ==> r[i].output == Null)
  {
    match body
    case Result(result) =>
      seq(|result|, i requires 0 <= i < |result| => CommandResult(true, cmds[i], Output(text, result[i])))
    case Error(message, data) =>
      seq(|cmds|, k requires 0 <= k < |cmds| => ErrorEntry(cmds, text, message, data, k))
  }

  /** The outputs of the records that passed. */
  function PassedOutputs(rs: seq<CommandResult>): seq<Json>
  {
    if rs == [] then []
    else (if rs[0].ok then [rs[0].output] else []) + PassedOutputs(rs[1..])
  }

  /** The commands of a list of records. */
  function Commands(rs: seq<CommandResult>): (r: seq<Command>)
    ensures |r| == |rs| && forall i :: 0 <= i < |rs| ==> r[i] == rs[i].command
  {
    seq(|rs|, i requires 0 <= i < |rs| => rs[i].command)
  }

  /** Records that pass up to `n` and fail from there on contribute their first `n` outputs. */
  lemma {:induction false} PassedOutputsPrefix(rs: seq<CommandResult>, n: nat)
    requires n <= |rs|
    requires forall i :: 0 <= i < |rs| ==> (rs[i].ok <==> i < n)
    ensures PassedOutputs(rs) == seq(n, i requires 0 <= i < n => rs[i].output)
    decreases |rs|
  {
    if rs != [] {
      PassedOutputsPrefix(rs[1..], if n == 0 then 0 else n - 1);
    }
  }

  /**
   * Both clients read a response the same way. On success the outputs are the
   * same, in the same order. On a failure the records that passed carry the
   * outputs `aioeapi` puts in `passed`, the first record that did not pass names
   * the command in `failed`, and the records after it name `not_exec`.
   */
  lemma AgreesWithReduce(cmds: seq<Command>, text: bool, body: Body)
    requires Postable(cmds, text, body)
    ensures AioDevice.Reducible(cmds, text, body)
    ensures body.Result? ==>
      PassedOutputs(PostResults(cmds, text, body)) == AioDevice.Reduce(cmds, text, body).outputs
    ensures body.Error? ==>
      var rs := PostResults(cmds, text, body);
      var e := AioDevice.Reduce(cmds, text, body).err;
      var errAt := |body.data| - 1;
      && PassedOutputs(rs) == e.passed
      && [rs[errAt].command] == e.failed
      && Commands(rs[errAt + 1..]) == e.notExec
  {
    var rs := PostResults(cmds, text, body);
    match body
    case Result(result) =>
      PassedOutputsPrefix(rs, |rs|);
    case Error(message, data) =>
      PassedOutputsPrefix(rs, |data| - 1);
  }

  /** The connection to one switch (`asynceapi.Transport`). */
  class Transport {
    /** `id(self)`, the default request id. */
    const identity: nat
    /** The switch's answer to a request. */
    const server: Request -> Body
    /** The default output format. */
    var ofmt: string

    /** The switch keeps to the protocol on every request. */
    ghost predicate Valid()
    {
      forall q :: Answers(q, server(q))
    }

    constructor (identity: nat, server: Request -> Body)
      ensures this.identity == identity && this.server == server && ofmt == "json"
    {
      this.identity := identity;
      this.server := server;
      ofmt := "json";
    }

    /** `form_command`: the output format falls back to the transport's own. */
    function FormCommand(commands: seq<Command>, kw: Kwargs): (r: Request)
      reads this
      ensures r.params.cmds == commands
      ensures r.params.format == (if Truthy(kw.ofmt) then kw.ofmt.value else ofmt)
      ensures r.id == (if Truthy(kw.reqId) then kw.reqId.value else NatToString(identity))
      ensures r.params.autoComplete == kw.autoComplete && r.params.expandAliases == kw.expandAliases
    {
      BuildRequest(commands, kw, ofmt, identity)
    }

    /**
     * `post`: one record per result entry on success; on an error, one record
     * per command, appended by the two loops of the source around the failed
     * command's record.
     */
    method Post(q: Request, ofmt: Option<string>) returns (r: seq<CommandResult>)
      requires Valid()
      requires ofmt == Some("text") ==> q.params.format == "text"
      ensures Postable(q.params.cmds, ofmt == Some("text"), server(q))
      ensures r == PostResults(q.params.cmds, ofmt == Some("text"), server(q))
    {
      var body := server(q);
      assert Answers(q, body);
      var commands := q.params.cmds;
      var text := ofmt == Some("text");
      match body {
        case Result(result) =>
          r := seq(|result|, i requires 0 <= i < |result| => CommandResult(true, commands[i], Output(text, result[i])));
        case Error(message, data) =>
          var errAt := |data| - 1;
          r := [];
          var i := 0;
          while i < errAt
            invariant 0 <= i <= errAt
            invariant |r| == i
            invariant forall k :: 0 <= k < i ==> r[k] == ErrorEntry(commands, text, message, data, k)
          {
            assert data[..errAt][i] == data[i];
            r := r + [CommandResult(true, commands[i], Output(text, data[i]))];
            i := i + 1;
          }
          r := r + [CommandResult(false, commands[errAt], Str(message))];
          var j := errAt + 1;
          while j < |commands|
            invariant errAt + 1 <= j <= |commands|
            invariant |r| == j
            invariant forall k :: 0 <= k < j ==> r[k] == ErrorEntry(commands, text, message, data, k)
          {
            r := r + [CommandResult(false, commands[j], Null)];
            j := j + 1;
          }
      }
    }
  }

  /** `exec` hands every keyword on to `post`, which accepts `ofmt` alone. */
  predicate PostAccepts(kw: Kwargs)
  {
    kw.reqId.None? && kw.autoComplete.None? && kw.expandAliases.None?
  }

  /** The commands `push_config` opens with: `configure` unless enter commands are given. */
  function EnterCommands(enterCmds: Option<seq<string>>): (r: seq<string>)
    ensures enterCmds.None? || enterCmds.value == [] ==> r == ["configure"]
    ensures enterCmds.Some? && enterCmds.value != [] ==> r == enterCmds.value
  {
    if enterCmds.None? || enterCmds.value == [] then ["configure"] else enterCmds.value
  }

  /** The commands `push_config` closes with: the exit commands, if any. */
  function ExitCommands(exitCmds: Option<seq<string>>): (r: seq<string>)
    ensures exitCmds.None? ==> r == []
    ensures exitCmds.Some? ==> r == exitCmds.value
  {
    if exitCmds.Some? then exitCmds.value else []
  }

  /**
   * The configuration lines: the stripped text cut at its line breaks, none of
   * them spanning two lines. That they join back into the stripped text is
   * `PushCommandsShape`.
   */
  function ConfigLines(contents: string): (r: seq<string>)
    ensures forall k :: 0 <= k < |r| ==> '\n' !in r[k]
  {
    SplitLinesNoBreak(Strip(contents));
    SplitLines(Strip(contents))
  }

  /** The lines `push_config` sends: the enter commands, the lines of the configuration, the exit commands. */
  function PushCommands(contents: string, enterCmds: Option<seq<string>>, exitCmds: Option<seq<string>>): (r: seq<string>)
  {
    EnterCommands(enterCmds) + ConfigLines(contents) + ExitCommands(exitCmds)
  }

  /**
   * The batch of `push_config`: the enter commands, then the configuration one
   * line per command, in order and joining back with `"\n"` into the stripped
   * text, then the exit commands.
   */
  lemma PushCommandsShape(contents: string, enterCmds: Option<seq<string>>, exitCmds: Option<seq<string>>)
    ensures var r := PushCommands(contents, enterCmds, exitCmds);
      var e := EnterCommands(enterCmds);
      var l := ConfigLines(contents);
      && |r| == |e| + |l| + |ExitCommands(exitCmds)|
      && r[..|e|] == e && r[|e| + |l|..] == ExitCommands(exitCmds)
      && JoinWith(r[|e|..|e| + |l|], "\n") == Strip(contents)
      && forall k :: |e| <= k < |e| + |l| ==> '\n' !in r[k]
  {
    var e := EnterCommands(enterCmds);
    var l := ConfigLines(contents);
    var x := ExitCommands(exitCmds);
    ConfigLinesJoin(contents);
    ThreeParts(e, l, x);
    MiddleNoBreak(e, l, x);
    assert PushCommands(contents, enterCmds, exitCmds) == e + l + x;
  }

  /** The middle part of a concatenation keeps the absence of line breaks it had. */
  lemma MiddleNoBreak(a: seq<string>, b: seq<string>, c: seq<string>)
    requires forall k :: 0 <= k < |b| ==> '\n' !in b[k]
    ensures forall k :: |a| <= k < |a| + |b| ==> '\n' !in (a + b + c)[k]
  {
    forall k | |a| <= k < |a| + |b|
      ensures '\n' !in (a + b + c)[k]
    {
      assert (a + b + c)[k] == b[k - |a|];
    }
  }

  /** The configuration lines joined with `"\n"` are the stripped text. */
  lemma ConfigLinesJoin(contents: string)
    ensures JoinWith(ConfigLines(contents), "\n") == Strip(contents)
  {
    SplitLinesJoin(Strip(contents));
  }

  /** The three parts of a concatenation read back by slicing. */
  lemma ThreeParts(a: seq<string>, b: seq<string>, c: seq<string>)
    ensures var r := a + b + c;
      r[..|a|] == a && r[|a|..|a| + |b|] == b && r[|a| + |b|..] == c
  {
  }

  /** No line `splitlines` cuts holds a `"\n"`. */
  lemma SplitLinesNoBreak(text: string)
    ensures forall k :: 0 <= k < |SplitLines(text)| ==> '\n' !in SplitLines(text)[k]
  {
    var lines := SplitLines(text);
    var keep := SplitLinesKeep(text);
    forall k | 0 <= k < |lines|
      ensures '\n' !in lines[k]
    {
      assert IsLine(keep[k]);
      if k < |keep| - 1 {
        assert keep[k][|keep[k]| - 1] == '\n';
      }
      NoNewlineInLine(keep[k]);
    }
  }

  /** A line without its end has no `"\n"` in it. */
  lemma NoNewlineInLine(l: string)
    requires IsLine(l)
    requires '\n' in l ==> l[|l| - 1] == '\n'
    ensures '\n' !in StripEnd(l)
  {
  }

  /** `asynceapi.Device`: a thin layer over its transport. */
  class Device {
    const host: string
    const api: Transport

    constructor (host: string, identity: nat, server: Request -> Body)
      ensures this.host == host && fresh(api) && api.server == server && api.identity == identity
      ensures api.ofmt == "json"
    {
      this.host := host;
      api := new Transport(identity, server);
    }

    /**
     * `exec` as written: it forwards all of its keywords to `post`, so passing
     * `req_id`, `autoComplete` or `expandAliases` raises `TypeError` before
     * anything is sent.
     */
    function ExecReplyAsWritten(commands: seq<Command>, kw: Kwargs): (r: Result<seq<CommandResult>, Error>)
      requires api.Valid()
      reads api
      ensures r.Failure? <==> !PostAccepts(kw)
      ensures r.Success? ==>
        var q := api.FormCommand(commands, kw);
        r.value == PostResults(q.params.cmds, kw.ofmt == Some("text"), api.server(q))
    {
      var q := api.FormCommand(commands, kw);
      assert Answers(q, api.server(q));
      if !PostAccepts(kw) then Failure(TypeError)
      else Success(PostResults(q.params.cmds, kw.ofmt == Some("text"), api.server(q)))
    }

    /** `exec` as written. */
    method ExecAsWritten(commands: seq<Command>, kw: Kwargs) returns (r: Result<seq<CommandResult>, Error>)
      requires api.Valid()
      ensures r == ExecReplyAsWritten(commands, kw)
    {
      var xcmd := api.FormCommand(commands, kw);
      if !PostAccepts(kw) {
        return Failure(TypeError);
      }
      var res := api.Post(xcmd, kw.ofmt);
      r := Success(res);
    }

    /** A request id, the very keyword `form_command` honours, makes `exec` fail. */
    lemma ReqIdRejected(commands: seq<Command>, id: string)
      requires api.Valid()
      ensures ExecReplyAsWritten(commands, Kwargs(None, Some(id), None, None)) == Failure(TypeError)
    {
    }

    /**
     * `exec` with only `ofmt` passed on to `post`: every keyword reaches the
     * request, and the records describe the response to that request.
     */
    method Exec(commands: seq<Command>, kw: Kwargs) returns (r: seq<CommandResult>)
      requires api.Valid()
      ensures var q := api.FormCommand(commands, kw);
        && q.params.cmds == commands
        && q.id == (if Truthy(kw.reqId) then kw.reqId.value else NatToString(api.identity))
        && q.params.autoComplete == kw.autoComplete && q.params.expandAliases == kw.expandAliases
        && r == PostResults(commands, kw.ofmt == Some("text"), api.server(q))
    {
      var xcmd := api.FormCommand(commands, kw);
      r := api.Post(xcmd, kw.ofmt);
    }

    /** The running configuration, as one record for `show running-config`. */
    method GetConfig(ofmt: string) returns (r: seq<CommandResult>)
      requires api.Valid()
      ensures |r| == 1 && r[0].command == Cmd("show running-config")
      ensures var q := api.FormCommand([Cmd("show running-config")], Kwargs(Some(ofmt), None, None, None));
        r == PostResults(q.params.cmds, ofmt == "text", api.server(q))
    {
      var xcmd := api.FormCommand([Cmd("show running-config")], Kwargs(Some(ofmt), None, None, None));
      r := api.Post(xcmd, Some(ofmt));
      assert Answers(xcmd, api.server(xcmd));
    }

    /** `push_config`: the configuration lines, wrapped in the enter and exit commands, as one batch. */
    method PushConfig(contents: string, enterCmds: Option<seq<string>>, exitCmds: Option<seq<string>>,
                      ofmt: string) returns (r: seq<CommandResult>)
      requires api.Valid()
      ensures var q := api.FormCommand(Cmds(PushCommands(contents, enterCmds, exitCmds)),
                                       Kwargs(Some(ofmt), None, None, None));
        r == PostResults(q.params.cmds, ofmt == "text", api.server(q))
    {
      var configCmds := ConfigLines(contents);
      ghost var enter, lines, exit := EnterCommands(enterCmds), configCmds, ExitCommands(exitCmds);
      if enterCmds.None? || enterCmds.value == [] {
        configCmds := ["configure"] + configCmds;
      } else {
        configCmds := enterCmds.value + configCmds;
      }
      assert configCmds == enter + lines;
      if exitCmds.Some? {
        configCmds := configCmds + exitCmds.value;
        assert configCmds == enter + lines + exit;
      } else {
        assert configCmds == enter + lines + exit;
      }
      var jsonrpc := api.FormCommand(Cmds(configCmds), Kwargs(Some(ofmt), None, None, None));
      r := api.Post(jsonrpc, Some(ofmt));
    }
  }
}
