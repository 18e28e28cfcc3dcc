/**
 * The eAPI client of `aioeapi`: `Device.cli` builds one `runCmds` request
 * (`jsoncrpc_command`), posts it and reduces the response (`jsonrpc_exec`) to the
 * list of command outputs, or raises `EapiCommandError` splitting the batch into
 * the commands that passed, the one that failed and those never executed.
 *
 * The HTTP exchange is an oracle: `Device.server` answers a request given the
 * requests posted before it, and `Device.posted` records what was sent.
 */
module AioDevice {

  import opened Wrappers
  import opened Json
  import opened Text
  import opened Rpc

  /** `EapiCommandError`; `failed` is the one-element tuple `(failed,)`. */
  datatype EapiCommandError = EapiCommandError(
    failed: seq<Command>,
    errmsg: string,
    passed: seq<Json>,
    notExec: seq<Command>)

  /** The exceptions the `aioeapi` client code raises. */
  datatype Error =
    | RuntimeError(message: string)
    | CommandError(err: EapiCommandError)
    | KeyError(key: string)
    | TypeError(message: string)
    | AttributeError(name: string)
    | IndexError

  /** What `jsonrpc_exec` does with a response: return the outputs or raise. */
  datatype Outcome = Outputs(outputs: seq<Json>) | Raised(err: EapiCommandError)

  const DefaultOfmt := "json"

  /** `Device.jsoncrpc_command`: the output format defaults to `"json"`. */
  function JsoncrpcCommand(commands: seq<Command>, kw: Kwargs, identity: nat): (r: Request)
    ensures r.params.cmds == commands
    ensures r.params.format == (if Truthy(kw.ofmt) then kw.ofmt.value else "json")
    ensures r.params.autoComplete == kw.autoComplete && r.params.expandAliases == kw.expandAliases
  {
    BuildRequest(commands, kw, DefaultOfmt, identity)
  }

  /** What the reduction needs of a body to run without an `IndexError` or `KeyError`. */
  predicate Reducible(cmds: seq<Command>, text: bool, body: Body)
  {
    match body
    case Result(result) => Unwrappable(text, result)
    case Error(_, data) => 1 <= |data| <= |cmds| && Unwrappable(text, data[..|data| - 1])
  }

  /**
   * The reduction in `jsonrpc_exec`. With no error every result entry becomes an
   * output, in order. With an error the failing command sits at `|data| - 1`:
   * the entries before it are the passed outputs, and the commands after it were
   * never executed, so the three parts put back together give the batch.
   */
  function Reduce(cmds: seq<Command>, text: bool, body: Body): (r: Outcome)
    requires Reducible(cmds, text, body)
    ensures body.Result? <==> r.Outputs?
    ensures body.Result? ==>
      && |r.outputs| == |body.result|
      && (forall i :: 0 <= i < |body.result| ==> r.outputs[i] == Output(text, body.result[i]))
    ensures body.Error? ==>
      var e := r.err;
      && e.errmsg == body.message
      && |e.passed| == |body.data| - 1
      && (forall i :: 0 <= i < |e.passed| ==> e.passed[i] == Output(text, body.data[i]))
      && e.failed == [cmds[|body.data| - 1]]
      && |e.passed| + |e.failed| + |e.notExec| == |cmds|
      && cmds[..|e.passed|] + e.failed + e.notExec == cmds
  {
    match body
    case Result(result) =>
      Outputs(seq(|result|, i requires 0 <= i < |result| => Output(text, result[i])))
    case Error(message, data) =>
      var errAt := |data| - 1;
      assert cmds[..errAt] + [cmds[errAt]] + cmds[errAt + 1..] == cmds;
      Raised(EapiCommandError(
        [cmds[errAt]],
        message,
        seq(errAt, i requires 0 <= i < errAt => Output(text, data[i])),
        cmds[errAt + 1..]))
  }

  /** `jsonrpc_exec` after the POST: commands and format are read back from the request. */
  function ExecResponse(q: Request, body: Body): Outcome
    requires Reducible(q.params.cmds, q.params.format == "text", body)
  {
    Reduce(q.params.cmds, q.params.format == "text", body)
  }

  /** The switch's answers always reduce. */
  lemma AnswersReducible(q: Request, b: Body)
    requires Answers(q, b)
    ensures Reducible(q.params.cmds, q.params.format == "text", b)
    ensures b.Result? ==> |ExecResponse(q, b).outputs| == |q.params.cmds|
  {
  }

  /**
   * A failure at command `k` leaves `k` passed outputs, the failed command
   * `cmds[k]`, and `|cmds| - k - 1` commands not executed.
   */
  lemma FailureAt(cmds: seq<Command>, text: bool, message: string, data: seq<Json>, k: nat)
    requires k < |cmds| && |data| == k + 1 && Unwrappable(text, data[..k])
    ensures Reducible(cmds, text, Error(message, data))
    ensures var e := Reduce(cmds, text, Error(message, data)).err;
      |e.passed| == k && e.failed == [cmds[k]] && |e.notExec| == |cmds| - k - 1
      && e.notExec == cmds[k + 1..]
  {
    var e := Reduce(cmds, text, Error(message, data)).err;
    assert e.notExec == (cmds[..k] + e.failed + e.notExec)[k + 1..];
  }

  /** `["show version", "bogus command", "show hostname"]` failing at the second command. */
  lemma BogusCommandExample(v: Json, detail: Json)
    ensures var cmds := [Cmd("show version"), Cmd("bogus command"), Cmd("show hostname")];
      var r := Reduce(cmds, false, Error("CLI command 2 of 3 'bogus command' failed", [v, detail]));
      r == Raised(EapiCommandError([Cmd("bogus command")], "CLI command 2 of 3 'bogus command' failed",
                                   [v], [Cmd("show hostname")]))
  {
    var cmds := [Cmd("show version"), Cmd("bogus command"), Cmd("show hostname")];
    var e := Reduce(cmds, false, Error("CLI command 2 of 3 'bogus command' failed", [v, detail])).err;
    assert e.notExec == (cmds[..1] + e.failed + e.notExec)[2..];
  }

  /** `any((command, commands))`. */
  predicate Given(command: Option<string>, commands: Option<seq<Command>>)
  {
    Truthy(command) || (commands.Some? && commands.value != [])
  }

  /** `[command] if command else commands`. */
  function Batch(command: Option<string>, commands: Option<seq<Command>>): (b: seq<Command>)
    requires Given(command, commands)
    ensures Truthy(command) ==> b == [Cmd(command.value)]
    ensures !Truthy(command) ==> b == commands.value && b != []
  {
    if Truthy(command) then [Cmd(command.value)] else commands.value
  }

  /** The client for one switch (`aioeapi.Device`). */
  class Device {
    /** `id(self)`, the default request id. */
    const identity: nat
    /** The switch: its answer to a request, given the requests posted before it. */
    const server: (seq<Request>, Request) -> Body
    /** Every request posted so far, oldest first. */
    var posted: seq<Request>

    /** The switch keeps to the protocol on every request. */
    ghost predicate Valid()
    {
      forall h, q :: Answers(q, server(h, q))
    }

    constructor (identity: nat, server: (seq<Request>, Request) -> Body)
      ensures this.identity == identity && this.server == server && posted == []
    {
      this.identity := identity;
      this.server := server;
      posted := [];
    }

    /** The requests one call of `cli` posts: none when it refuses the call, one otherwise. */
    function Sends(command: Option<string>, commands: Option<seq<Command>>, kw: Kwargs): (r: seq<Request>)
      ensures |r| == if Given(command, commands) then 1 else 0
    {
      if Given(command, commands) then [JsoncrpcCommand(Batch(command, commands), kw, identity)] else []
    }

    /**
     * What `cli` returns after `history`: `RuntimeError` exactly when neither
     * argument is given; the lone output for `command`; the whole list of
     * outputs (a JSON array) for `commands`; the command error otherwise.
     */
    function CliReply(history: seq<Request>, command: Option<string>, commands: Option<seq<Command>>,
                      kw: Kwargs): (r: Result<Json, Error>)
      requires Valid()
      ensures (r.Failure? && r.error.RuntimeError?) <==> !Given(command, commands)
      ensures Given(command, commands) ==>
        var q := JsoncrpcCommand(Batch(command, commands), kw, identity);
        var body := server(history, q);
        match body
        case Error(_, _) => r.Failure? && r.error.CommandError? && r.error.err == ExecResponse(q, body).err
        case Result(result) =>
          |result| == |Batch(command, commands)|
          && (Truthy(command) ==> r == Success(ExecResponse(q, body).outputs[0]))
          && (!Truthy(command) ==> r == Success(Arr(ExecResponse(q, body).outputs)))
    {
      if !Given(command, commands) then Failure(RuntimeError("Required 'command' or 'commands'"))
      else
        var q := JsoncrpcCommand(Batch(command, commands), kw, identity);
        var body := server(history, q);
        assert Answers(q, body);
        match ExecResponse(q, body)
        case Raised(e) => Failure(CommandError(e))
        case Outputs(outs) => if Truthy(command) then Success(outs[0]) else Success(Arr(outs))
    }

    /** `jsonrpc_exec`: post the request, then reduce the body the switch returns. */
    method JsonrpcExec(q: Request) returns (r: Outcome)
      requires Valid()
      modifies this
      ensures posted == old(posted) + [q]
      ensures r == ExecResponse(q, server(old(posted), q))
    {
      var body := server(posted, q);
      assert Answers(q, body);
      posted := posted + [q];
      r := ExecResponse(q, body);
    }

    /** `cli`: check the arguments, build the request, execute it, unwrap a single output. */
    method Cli(command: Option<string>, commands: Option<seq<Command>>, kw: Kwargs) returns (r: Result<Json, Error>)
      requires Valid()
      modifies this
      ensures posted == old(posted) + Sends(command, commands, kw)
      ensures r == CliReply(old(posted), command, commands, kw)
    {
      if !Given(command, commands) {
        return Failure(RuntimeError("Required 'command' or 'commands'"));
      }
      var jsonrpc := JsoncrpcCommand(if Truthy(command) then [Cmd(command.value)] else commands.value, kw, identity);
      var res := JsonrpcExec(jsonrpc);
      match res
      case Raised(e) =>
        r := Failure(CommandError(e));
      case Outputs(outs) =>
        r := if Truthy(command) then Success(outs[0]) else Success(Arr(outs));
    }
  }
}
