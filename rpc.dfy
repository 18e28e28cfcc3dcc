/**
 * The eAPI wire format shared by both device clients: the JSON-RPC 2.0 request
 * object that carries a `runCmds` call (section 4 of the JSON-RPC 2.0
 * Specification) and the response body that comes back (section 5, with the
 * error object of section 5.1).
 */
module Rpc {

  import opened Wrappers
  import opened Json
  import opened Text

  /** One entry of `params.cmds`: a plain CLI line, or `{"cmd": ..., "input": ...}`. */
  datatype Command = Cmd(text: string) | Interactive(cmd: string, input: string)

  /** Plain CLI lines as batch entries. */
  function Cmds(lines: seq<string>): (r: seq<Command>)
    ensures |r| == |lines| && forall i :: 0 <= i < |lines| ==> r[i] == Cmd(lines[i])
  {
    seq(|lines|, i requires 0 <= i < |lines| => Cmd(lines[i]))
  }

  /** The keyword arguments a caller may hand to the envelope builder; `None` means "not passed". */
  datatype Kwargs = Kwargs(
    ofmt: Option<string>,
    reqId: Option<string>,
    autoComplete: Option<bool>,
    expandAliases: Option<bool>)

  const NoKwargs := Kwargs(None, None, None, None)

  /** Python truthiness of an optional string: passed and not empty. */
  predicate Truthy(o: Option<string>)
  {
    o.Some? && o.value != ""
  }

  /** Python's `o or d` for an optional string. */
  function Or(o: Option<string>, d: string): (r: string)
    ensures Truthy(o) ==> r == o.value
    ensures !Truthy(o) ==> r == d
  {
    if Truthy(o) then o.value else d
  }

  /** `params`: the two optional keys are `None` when the dictionary lacks them. */
  datatype Params = Params(
    version: int,
    cmds: seq<Command>,
    format: string,
    autoComplete: Option<bool>,
    expandAliases: Option<bool>)

  datatype Request = Request(jsonrpc: string, methodName: string, params: Params, id: string)

  /**
   * The request object both clients build: a fixed protocol tag, method and
   * version, the commands in order, the output format falling back to
   * `defaultFormat`, the id falling back to the client object's identity, and
   * `autoComplete`/`expandAliases` written into `params` only when the caller
   * passed them.
   */
  function BuildRequest(commands: seq<Command>, kw: Kwargs, defaultFormat: string, identity: nat): (r: Request)
    ensures r.jsonrpc == "2.0" && r.methodName == "runCmds" && r.params.version == 1
    ensures r.params.cmds == commands
    ensures r.params.format == (if Truthy(kw.ofmt) then kw.ofmt.value else defaultFormat)
    ensures r.id == (if Truthy(kw.reqId) then kw.reqId.value else NatToString(identity))
    ensures r.params.autoComplete.Some? <==> kw.autoComplete.Some?
    ensures r.params.expandAliases.Some? <==> kw.expandAliases.Some?
    ensures r.params.autoComplete == kw.autoComplete && r.params.expandAliases == kw.expandAliases
  {
    var cmd := Request("2.0", "runCmds", Params(1, commands, Or(kw.ofmt, defaultFormat), None, None),
                       Or(kw.reqId, NatToString(identity)));
    var cmd := if kw.autoComplete.Some? then cmd.(params := cmd.params.(autoComplete := kw.autoComplete)) else cmd;
    if kw.expandAliases.Some? then cmd.(params := cmd.params.(expandAliases := kw.expandAliases)) else cmd
  }

  /** The response body: `{"result": [...]}`, or `{"error": {"message": ..., "data": [...]}}`. */
  datatype Body = Result(result: seq<Json>) | Error(message: string, data: seq<Json>)

  /** Every entry can be unwrapped to its `"output"` when the text format is asked for. */
  predicate Unwrappable(text: bool, entries: seq<Json>)
  {
    text ==> forall i :: 0 <= i < |entries| ==> HasKey(entries[i], "output")
  }

  /** `get_output`: `entry["output"]` for the text format, the entry itself otherwise. */
  function Output(text: bool, entry: Json): (r: Json)
    requires text ==> HasKey(entry, "output")
    ensures !text ==> r == entry
  {
    if text then entry.fields["output"] else entry
  }

  /**
   * What the switch promises for a request: a success carries one result per
   * command; an error carries the outputs of the commands before the failing one
   * and one entry for the failing command, so `1 <= |data| <= |cmds|`; text
   * results are `{"output": ...}` objects.
   */
  predicate Answers(q: Request, b: Body)
  {
    var text := q.params.format == "text";
    match b
    case Result(result) => |result| == |q.params.cmds| && Unwrappable(text, result)
    case Error(_, data) => 1 <= |data| <= |q.params.cmds| && Unwrappable(text, data[..|data| - 1])
  }
}
