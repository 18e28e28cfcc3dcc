/**
 * `aioeapi.config_session.SessionConfig`: every operation sends one CLI batch
 * through `Device.cli`, built around the preamble `configure session <name>`
 * that is fixed when the object is made.
 */
module ConfigSession {

  import opened Wrappers
  import opened Json
  import opened Text
  import opened Rpc
  import opened AioDevice

  const CliCfgFactoryReset := "rollback clean-config"
  const ShowSessions := "show configuration sessions detail"

  /** Python's complaint when a value that is not a dictionary is subscripted with a string. */
  const NotSubscriptable := "indices must be integers"

  /** `f"configure session {name}"`. */
  function Preamble(name: string): (r: string)
    ensures StartsWith(r, "configure session ") && r[|"configure session "|..] == name
  {
    "configure session " + name
  }

  /** The configuration `push` accepts: a list of lines, or one text to split on line breaks. */
  datatype Content = Lines(lines: seq<string>) | Blob(text: string)

  function ContentLines(content: Content): seq<string>
  {
    match content
    case Lines(ls) => ls
    case Blob(t) => SplitLines(t)
  }

  /** `filter(None, lines)`: the lines that are not empty, in order. */
  function NonBlank(lines: seq<string>): (r: seq<string>)
    ensures |r| <= |lines|
    ensures forall i :: 0 <= i < |r| ==> r[i] != ""
  {
    if lines == [] then []
    else (if lines[0] == "" then [] else [lines[0]]) + NonBlank(lines[1..])
  }

  /** `filter(None, ...)` drops exactly the empty lines. */
  lemma {:induction false} NonBlankMembers(lines: seq<string>, l: string)
    ensures l in NonBlank(lines) <==> l in lines && l != ""
    decreases |lines|
  {
    if lines != [] {
      NonBlankMembers(lines[1..], l);
      assert lines == [lines[0]] + lines[1..];
    }
  }

  /** Filtering distributes over concatenation. */
  lemma {:induction false} NonBlankAppend(a: seq<string>, b: seq<string>)
    ensures NonBlank(a + b) == NonBlank(a) + NonBlank(b)
    decreases |a|
  {
    if a != [] {
      NonBlankAppend(a[1..], b);
      assert (a + b)[1..] == a[1..] + b;
    } else {
      assert a + b == b;
    }
  }

  /** Lines with no empty line among them pass the filter unchanged. */
  lemma {:induction false} NonBlankKeepsFull(lines: seq<string>)
    requires forall i :: 0 <= i < |lines| ==> lines[i] != ""
    ensures NonBlank(lines) == lines
    decreases |lines|
  {
    if lines != [] {
      NonBlankKeepsFull(lines[1..]);
      assert lines == [lines[0]] + lines[1..];
    }
  }

  /** The batch `push` sends. */
  function PushBatch(name: string, content: Content, replace: bool): seq<string>
  {
    [Preamble(name)] + (if replace then [CliCfgFactoryReset] else []) + NonBlank(ContentLines(content))
  }

  /**
   * `push` opens with the preamble; `rollback clean-config` follows it when
   * `replace` is set, and can appear anywhere else only as a line of the
   * content; the remaining entries are the content without its empty lines.
   */
  lemma PushBatchShape(name: string, content: Content, replace: bool)
    ensures var b := PushBatch(name, content, replace);
      var offset := if replace then 2 else 1;
      && b[0] == Preamble(name)
      && (replace ==> b[1] == CliCfgFactoryReset)
      && b[offset..] == NonBlank(ContentLines(content))
      && (forall i :: 1 <= i < |b| && b[i] == CliCfgFactoryReset && !(replace && i == 1) ==>
            CliCfgFactoryReset in ContentLines(content))
  {
    var b := PushBatch(name, content, replace);
    var offset := if replace then 2 else 1;
    var rest := NonBlank(ContentLines(content));
    assert b[offset..] == rest;
    forall i | 1 <= i < |b| && b[i] == CliCfgFactoryReset && !(replace && i == 1)
      ensures CliCfgFactoryReset in ContentLines(content)
    {
      assert b[i] == rest[i - offset];
      NonBlankMembers(ContentLines(content), CliCfgFactoryReset);
    }
  }

  /** Index 1 holds the rollback exactly when `replace` is set or the content itself starts with it. */
  lemma PushRollbackAtOne(name: string, content: Content, replace: bool)
    ensures var b := PushBatch(name, content, replace);
      var rest := NonBlank(ContentLines(content));
      (|b| > 1 && b[1] == CliCfgFactoryReset) <==> (replace || (rest != [] && rest[0] == CliCfgFactoryReset))
  {
  }

  /** The single command `commit` sends: `" timer <timer>"` is added only for a non-empty timer. */
  function CommitCommand(name: string, timer: Option<string>): (r: string)
    ensures StartsWith(r, Preamble(name) + " commit")
  {
    Preamble(name) + " commit" + (if Truthy(timer) then " timer " + timer.value else "")
  }

  /** Different timers give different commit commands, and no timer gives the plain commit. */
  lemma CommitCommandInjective(name: string, t1: Option<string>, t2: Option<string>)
    requires CommitCommand(name, t1) == CommitCommand(name, t2)
    ensures Truthy(t1) <==> Truthy(t2)
    ensures Truthy(t1) ==> t1.value == t2.value
  {
    var p := Preamble(name) + " commit";
    var c := CommitCommand(name, t1);
    if Truthy(t1) && Truthy(t2) {
      assert t1.value == c[|p| + 7..];
      assert t2.value == c[|p| + 7..];
    }
  }

  function AbortCommand(name: string): (r: string)
    ensures StartsWith(r, Preamble(name)) && r[|Preamble(name)|..] == " abort"
  {
    Preamble(name) + " abort"
  }

  function DiffCommand(name: string): (r: string)
    ensures StartsWith(r, "show session-config named ") && r[|"show session-config named "|..] == name + " diffs"
  {
    "show session-config named " + name + " diffs"
  }

  /**
   * `res["sessions"].get(name)`: the session's own entry, or `None` when there is
   * no session of that name. Subscripting a reply that is not a dictionary
   * raises `TypeError`, a dictionary without `sessions` raises `KeyError`, and a
   * `sessions` value that is not a dictionary has no `get`.
   */
  function StatusOf(res: Json, name: string): (r: Result<Option<Json>, Error>)
    ensures r.Success? <==> HasKey(res, "sessions") && res.fields["sessions"].Obj?
    ensures r.Success? ==>
      (r.value.Some? <==> name in res.fields["sessions"].fields)
      && (r.value.Some? ==> r.value.value == res.fields["sessions"].fields[name])
    ensures !res.Obj? ==> r == Failure(TypeError(NotSubscriptable))
    ensures res.Obj? && "sessions" !in res.fields ==> r == Failure(KeyError("sessions"))
    ensures HasKey(res, "sessions") && !res.fields["sessions"].Obj? ==> r == Failure(AttributeError("get"))
  {
    if !res.Obj? then Failure(TypeError(NotSubscriptable))
    else if "sessions" !in res.fields then Failure(KeyError("sessions"))
    else
      var sessions := res.fields["sessions"];
      if !sessions.Obj? then Failure(AttributeError("get"))
      else if name in sessions.fields then Success(Some(sessions.fields[name]))
      else Success(None)
  }

  /** A session missing from a well-formed reply gives `None`, not an error. */
  lemma StatusAbsent(sessions: map<string, Json>, others: map<string, Json>, name: string)
    requires name !in sessions && "sessions" !in others
    ensures StatusOf(Obj(others["sessions" := Obj(sessions)]), name) == Success(None)
  {
  }

  /** The batch `load_scp_file` sends. */
  function LoadScpBatch(name: string, filename: string, replace: bool): (r: seq<string>)
    ensures |r| == (if replace then 3 else 2) && (replace ==> r[1] == CliCfgFactoryReset)
    ensures r[0] == Preamble(name) && r[|r| - 1] == "copy " + filename + " session-config"
  {
    [Preamble(name)] + (if replace then [CliCfgFactoryReset] else []) + ["copy " + filename + " session-config"]
  }

  /** `re.compile(r"error|abort|invalid", flags=re.I).search(m)`, on ASCII letters. */
  predicate Flagged(m: string)
  {
    Contains(Lower(m), "error") || Contains(Lower(m), "abort") || Contains(Lower(m), "invalid")
  }

  /** Lowering twice is lowering once. */
  lemma LowerIdempotent(s: string)
    ensures Lower(Lower(s)) == Lower(s)
  {
  }

  /** The check does not care about case. */
  lemma FlaggedIgnoresCase(m: string)
    ensures Flagged(Lower(m)) <==> Flagged(m)
  {
    LowerIdempotent(m);
  }

  /**
   * `res[-1]["messages"]` as `load_scp_file` iterates it: a list of strings, or
   * a single string, whose characters the check then searches one at a time.
   * An empty list has no `res[-1]` (`IndexError`), a dictionary no key `-1`
   * (`KeyError`); a last entry that is a dictionary without `messages` raises
   * `KeyError`; anything else that cannot be subscripted or searched raises
   * `TypeError`.
   */
  function LastMessages(res: Json): (r: Result<seq<string>, Error>)
    ensures r.Success? <==>
      && res.Arr? && res.items != [] && HasKey(res.items[|res.items| - 1], "messages")
      && MessageList(res.items[|res.items| - 1].fields["messages"])
    ensures r.Success? ==> var ms := res.items[|res.items| - 1].fields["messages"];
      && (ms.Arr? ==> |r.value| == |ms.items| && forall i :: 0 <= i < |ms.items| ==> ms.items[i] == Str(r.value[i]))
      && (ms.Str? ==> |r.value| == |ms.s| && forall i :: 0 <= i < |ms.s| ==> r.value[i] == [ms.s[i]])
    ensures res.Arr? && res.items == [] ==> r == Failure(IndexError)
    ensures res.Obj? ==> r == Failure(KeyError("-1"))
    ensures res.Arr? && res.items != [] && res.items[|res.items| - 1].Obj? && "messages" !in res.items[|res.items| - 1].fields ==>
      r == Failure(KeyError("messages"))
  {
    if res.Obj? then Failure(KeyError("-1"))
    else if !res.Arr? then Failure(TypeError(NotSubscriptable))
    else if res.items == [] then Failure(IndexError)
    else
      var last := res.items[|res.items| - 1];
      if !last.Obj? then Failure(TypeError(NotSubscriptable))
      else if "messages" !in last.fields then Failure(KeyError("messages"))
      else
        var ms := last.fields["messages"];
        if ms.Str? then Success(seq(|ms.s|, i requires 0 <= i < |ms.s| => [ms.s[i]]))
        else if MessageList(ms) then Success(seq(|ms.items|, i requires 0 <= i < |ms.items| => ms.items[i].s))
        else Failure(TypeError("expected string"))
  }

  /** A `messages` value the check can search: a string, or a list of strings. */
  predicate MessageList(ms: Json)
  {
    ms.Str? || (ms.Arr? && forall i :: 0 <= i < |ms.items| ==> ms.items[i].Str?)
  }

  /** Messages given as one string are searched a character at a time, so they never fail the check. */
  lemma StringMessagesPass(res: Json)
    requires res.Arr? && res.items != [] && HasKey(res.items[|res.items| - 1], "messages")
    requires res.items[|res.items| - 1].fields["messages"].Str?
    ensures LastMessages(res).Success? && ScpCheck(LastMessages(res).value) == Success(())
  {
    var ms := LastMessages(res).value;
    forall i | 0 <= i < |ms|
      ensures !Flagged(ms[i])
    {
      OneCharNotFlagged(ms[i]);
    }
  }

  /** A single character holds none of `error`, `abort`, `invalid`. */
  lemma OneCharNotFlagged(m: string)
    requires |m| == 1
    ensures !Flagged(m)
  {
    var l := Lower(m);
    assert !OccursAt(l, "error", 0) && !OccursAt(l, "abort", 0) && !OccursAt(l, "invalid", 0);
    assert IndexOf(l, "error").None?;
  }

  /** `load_scp_file`'s check: `RuntimeError` carrying all messages joined, iff one of them is flagged. */
  function ScpCheck(messages: seq<string>): (r: Result<(), Error>)
    ensures r.Failure? <==> exists i :: 0 <= i < |messages| && Flagged(messages[i])
    ensures r.Failure? ==> r.error == RuntimeError(Join(messages))
  {
    if exists i :: 0 <= i < |messages| && Flagged(messages[i]) then Failure(RuntimeError(Join(messages)))
    else Success(())
  }

  /** One flagged message is enough, wherever it sits among the others. */
  lemma ScpCheckFlaggedAnywhere(before: seq<string>, m: string, after: seq<string>)
    requires Flagged(m)
    ensures ScpCheck(before + [m] + after) == Failure(RuntimeError(Join(before + [m] + after)))
  {
    assert (before + [m] + after)[|before|] == m;
  }

  /** `% Invalid input` is caught whatever its case. */
  lemma ScpCheckInvalidInput()
    ensures ScpCheck(["% Invalid input"]).Failure?
  {
    var m := "% Invalid input";
    assert Lower(m)[2..9] == "invalid";
    assert OccursAt(Lower(m), "invalid", 2);
    assert Flagged(m);
    assert ["% Invalid input"][0] == m;
  }

  /** What a whole `load_scp_file` returns, given what `cli` returned for its batch. */
  function LoadScpOutcome(reply: Result<Json, Error>): Result<(), Error>
  {
    if reply.Failure? then Failure(reply.error)
    else match LastMessages(reply.value)
      case Failure(e) => Failure(e)
      case Success(ms) => ScpCheck(ms)
  }

  /** A `cli` reply with its value dropped, for the operations that return `None`. */
  function Ignore(reply: Result<Json, Error>): (r: Result<(), Error>)
    ensures r.Success? <==> reply.Success?
    ensures r.Failure? ==> r.error == reply.error
  {
    if reply.Success? then Success(()) else Failure(reply.error)
  }

  /** A session bound to one device. */
  class SessionConfig {
    const device: Device
    const name: string
    /** `_cli_config_session`, fixed at construction. */
    const cliConfigSession: string

    ghost predicate Valid()
    {
      cliConfigSession == Preamble(name) && device.Valid()
    }

    constructor (device: Device, name: string)
      requires device.Valid()
      ensures this.device == device && this.name == name && Valid()
    {
      this.device := device;
      this.name := name;
      cliConfigSession := "configure session " + name;
    }

    /** `status_all`: the device's reply to `show configuration sessions detail`. */
    method StatusAll() returns (r: Result<Json, Error>)
      requires Valid()
      modifies device
      ensures device.posted == old(device.posted) + device.Sends(Some(ShowSessions), None, NoKwargs)
      ensures r == device.CliReply(old(device.posted), Some(ShowSessions), None, NoKwargs)
    {
      r := device.Cli(Some(ShowSessions), None, NoKwargs);
    }

    /** `status`: this session's entry of the status reply, or `None`. */
    method Status() returns (r: Result<Option<Json>, Error>)
      requires Valid()
      modifies device
      ensures device.posted == old(device.posted) + device.Sends(Some(ShowSessions), None, NoKwargs)
      ensures var all := device.CliReply(old(device.posted), Some(ShowSessions), None, NoKwargs);
        r == if all.Failure? then Failure(all.error) else StatusOf(all.value, name)
    {
      var res := StatusAll();
      if res.Failure? {
        return Failure(res.error);
      }
      r := StatusOf(res.value, name);
    }

    /** `push`: one batch, the preamble, the optional rollback, then the non-empty lines. */
    method Push(content: Content, replace: bool) returns (r: Result<(), Error>)
      requires Valid()
      modifies device
      ensures device.posted == old(device.posted) + device.Sends(None, Some(Cmds(PushBatch(name, content, replace))), NoKwargs)
      ensures r == Ignore(device.CliReply(old(device.posted), None, Some(Cmds(PushBatch(name, content, replace))), NoKwargs))
    {
      var lines := match content case Lines(ls) => ls case Blob(t) => SplitLines(t);
      var commands := [cliConfigSession];
      if replace {
        commands := commands + [CliCfgFactoryReset];
      }
      commands := commands + NonBlank(lines);
      assert commands == PushBatch(name, content, replace);
      var res := device.Cli(None, Some(Cmds(commands)), NoKwargs);
      r := Ignore(res);
    }

    /** `commit`, with an optional commit timer. */
    method Commit(timer: Option<string>) returns (r: Result<(), Error>)
      requires Valid()
      modifies device
      ensures device.posted == old(device.posted) + device.Sends(Some(CommitCommand(name, timer)), None, NoKwargs)
      ensures r == Ignore(device.CliReply(old(device.posted), Some(CommitCommand(name, timer)), None, NoKwargs))
    {
      var command := cliConfigSession + " commit";
      if Truthy(timer) {
        command := command + " timer " + timer.value;
      }
      assert command == CommitCommand(name, timer);
      var res := device.Cli(Some(command), None, NoKwargs);
      r := Ignore(res);
    }

    /** `abort`. */
    method Abort() returns (r: Result<(), Error>)
      requires Valid()
      modifies device
      ensures device.posted == old(device.posted) + device.Sends(Some(AbortCommand(name)), None, NoKwargs)
      ensures r == Ignore(device.CliReply(old(device.posted), Some(AbortCommand(name)), None, NoKwargs))
    {
      var res := device.Cli(Some(cliConfigSession + " abort"), None, NoKwargs);
      r := Ignore(res);
    }

    /** `diff`: the session's diff against the running configuration, in text format. */
    method Diff() returns (r: Result<Json, Error>)
      requires Valid()
      modifies device
      ensures var kw := Kwargs(Some("text"), None, None, None);
        && device.posted == old(device.posted) + device.Sends(Some(DiffCommand(name)), None, kw)
        && r == device.CliReply(old(device.posted), Some(DiffCommand(name)), None, kw)
    {
      r := device.Cli(Some("show session-config named " + name + " diffs"), None, Kwargs(Some("text"), None, None, None));
    }

    /** `load_scp_file`: copy a file into the session, then check the last command's messages. */
    method LoadScpFile(filename: string, replace: bool) returns (r: Result<(), Error>)
      requires Valid()
      modifies device
      ensures device.posted == old(device.posted) + device.Sends(None, Some(Cmds(LoadScpBatch(name, filename, replace))), NoKwargs)
      ensures r == LoadScpOutcome(device.CliReply(old(device.posted), None, Some(Cmds(LoadScpBatch(name, filename, replace))), NoKwargs))
    {
      var commands := [cliConfigSession];
      if replace {
        commands := commands + [CliCfgFactoryReset];
      }
      commands := commands + ["copy " + filename + " session-config"];
      assert commands == LoadScpBatch(name, filename, replace);
      var res := device.Cli(None, Some(Cmds(commands)), NoKwargs);
      if res.Failure? {
        return Failure(res.error);
      }
      var messages := LastMessages(res.value);
      if messages.Failure? {
        return Failure(messages.error);
      }
      r := ScpCheck(messages.value);
    }

    /** `write`: save the running configuration. */
    method Write() returns (r: Result<(), Error>)
      requires Valid()
      modifies device
      ensures device.posted == old(device.posted) + device.Sends(Some("write"), None, NoKwargs)
      ensures r == Ignore(device.CliReply(old(device.posted), Some("write"), None, NoKwargs))
    {
      var res := device.Cli(Some("write"), None, NoKwargs);
      r := Ignore(res);
    }
  }
}
