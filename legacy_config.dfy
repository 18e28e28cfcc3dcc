/**
 * `aioeapi.config.SessionConfig`, the older session class: the same preamble
 * and status lookup as `aioeapi.config_session`, but `push` keeps blank lines
 * and inserts the rollback after the preamble, and `commit` always asks for a
 * commit timer.
 */
module LegacyConfig {

  import opened Wrappers
  import opened Json
  import opened Text
  import opened Rpc
  import opened AioDevice
  import ConfigSession

  /** The batch `push` sends: `[preamble, *content]` with the rollback inserted at index 1 when replacing. */
  function PushBatch(name: string, content: seq<string>, replace: bool): (r: seq<string>)
    ensures |r| == 1 + |content| + (if replace then 1 else 0)
    ensures r[0] == ConfigSession.Preamble(name)
    ensures replace ==> r[1] == ConfigSession.CliCfgFactoryReset && r[2..] == content
    ensures !replace ==> r[1..] == content
  {
    var commands := [ConfigSession.Preamble(name)] + content;
    if replace then commands[..1] + [ConfigSession.CliCfgFactoryReset] + commands[1..] else commands
  }

  /**
   * The newer class sends what this one sends once blank lines are dropped from
   * the content: the two differ only in the filter.
   */
  lemma PushMatchesNewer(name: string, content: seq<string>, replace: bool)
    ensures ConfigSession.PushBatch(name, ConfigSession.Lines(content), replace) == PushBatch(name, ConfigSession.NonBlank(content), replace)
  {
    var newer := ConfigSession.PushBatch(name, ConfigSession.Lines(content), replace);
    var older := PushBatch(name, ConfigSession.NonBlank(content), replace);
    assert |newer| == |older|;
    forall i | 0 <= i < |newer|
      ensures newer[i] == older[i]
    {
      if replace && i >= 2 {
        assert older[i] == older[2..][i - 2];
      } else if !replace && i >= 1 {
        assert older[i] == older[1..][i - 1];
      }
    }
  }

  /** Blank lines of the content reach the device. */
  lemma PushKeepsBlankLines(name: string, content: seq<string>, replace: bool)
    ensures forall l :: l in content ==> l in PushBatch(name, content, replace)
  {
    var b := PushBatch(name, content, replace);
    var offset := if replace then 2 else 1;
    assert b[offset..] == content;
    forall l | l in content
      ensures l in b
    {
      var k :| 0 <= k < |content| && content[k] == l;
      assert b[offset + k] == l;
    }
  }

  /**
   * `commit` as written: with a timer it asks for `commit timer <timer>`, and
   * without one it still sends `commit timer`, with no duration.
   */
  function CommitCommandAsWritten(name: string, timer: Option<string>): (r: string)
    ensures StartsWith(r, ConfigSession.Preamble(name) + " commit timer")
  {
    if Truthy(timer) then ConfigSession.Preamble(name) + " commit timer " + timer.value
    else ConfigSession.Preamble(name) + " commit timer"
  }

  /** Without a timer the command still ends in `timer`, so it never is a plain commit. */
  lemma CommitWithoutTimerAsksForTimer(name: string, timer: Option<string>)
    requires !Truthy(timer)
    ensures CommitCommandAsWritten(name, timer) != ConfigSession.CommitCommand(name, timer)
    ensures CommitCommandAsWritten(name, timer) == ConfigSession.CommitCommand(name, Some("")) + " timer"
  {
    assert |CommitCommandAsWritten(name, timer)| != |ConfigSession.CommitCommand(name, timer)|;
  }

  /** The two commit commands agree whenever a timer is given. */
  lemma CommitAgreesWithTimer(name: string, timer: Option<string>)
    requires Truthy(timer)
    ensures CommitCommandAsWritten(name, timer) == ConfigSession.CommitCommand(name, timer)
  {
  }

  /** The older session class, bound to one device. */
  class SessionConfig {
    const device: Device
    const name: string
    /** `_cli_config_session`, fixed at construction. */
    const cliConfigSession: string

    ghost predicate Valid()
    {
      cliConfigSession == ConfigSession.Preamble(name) && device.Valid()
    }

    constructor (device: Device, name: string)
      requires device.Valid()
      ensures this.device == device && this.name == name && Valid()
    {
      this.device := device;
      this.name := name;
      cliConfigSession := "configure session " + name;
    }

    /** `status_all`. */
    method StatusAll() returns (r: Result<Json, Error>)
      requires Valid()
      modifies device
      ensures device.posted == old(device.posted) + device.Sends(Some(ConfigSession.ShowSessions), None, NoKwargs)
      ensures r == device.CliReply(old(device.posted), Some(ConfigSession.ShowSessions), None, NoKwargs)
    {
      r := device.Cli(Some(ConfigSession.ShowSessions), None, NoKwargs);
    }

    /** `status`: the same lookup as the newer class. */
    method Status() returns (r: Result<Option<Json>, Error>)
      requires Valid()
      modifies device
      ensures device.posted == old(device.posted) + device.Sends(Some(ConfigSession.ShowSessions), None, NoKwargs)
      ensures var all := device.CliReply(old(device.posted), Some(ConfigSession.ShowSessions), None, NoKwargs);
        r == if all.Failure? then Failure(all.error) else ConfigSession.StatusOf(all.value, name)
    {
      var res := StatusAll();
      if res.Failure? {
        return Failure(res.error);
      }
      r := ConfigSession.StatusOf(res.value, name);
    }

    /** `push`: the preamble and the content, with the rollback inserted after the preamble. */
    method Push(content: seq<string>, replace: bool) returns (r: Result<(), Error>)
      requires Valid()
      modifies device
      ensures device.posted == old(device.posted) + device.Sends(None, Some(Cmds(PushBatch(name, content, replace))), NoKwargs)
      ensures r == ConfigSession.Ignore(device.CliReply(old(device.posted), None, Some(Cmds(PushBatch(name, content, replace))), NoKwargs))
    {
      var commands := [cliConfigSession] + content;
      if replace {
        commands := commands[..1] + [ConfigSession.CliCfgFactoryReset] + commands[1..];
      }
      assert commands == PushBatch(name, content, replace);
      var res := device.Cli(None, Some(Cmds(commands)), NoKwargs);
      r := ConfigSession.Ignore(res);
    }

    /** `commit` as written: always with `timer`. */
    method CommitAsWritten(timer: Option<string>) returns (r: Result<(), Error>)
      requires Valid()
      modifies device
      ensures device.posted == old(device.posted) + device.Sends(Some(CommitCommandAsWritten(name, timer)), None, NoKwargs)
      ensures r == ConfigSession.Ignore(device.CliReply(old(device.posted), Some(CommitCommandAsWritten(name, timer)), None, NoKwargs))
    {
      var command := if Truthy(timer) then cliConfigSession + " commit timer " + timer.value
                     else cliConfigSession + " commit timer";
      var res := device.Cli(Some(command), None, NoKwargs);
      r := ConfigSession.Ignore(res);
    }

    /** `commit` as documented: a plain commit unless a timer is given. */
    method Commit(timer: Option<string>) returns (r: Result<(), Error>)
      requires Valid()
      modifies device
      ensures device.posted == old(device.posted) + device.Sends(Some(ConfigSession.CommitCommand(name, timer)), None, NoKwargs)
      ensures r == ConfigSession.Ignore(device.CliReply(old(device.posted), Some(ConfigSession.CommitCommand(name, timer)), None, NoKwargs))
    {
      var command := if Truthy(timer) then cliConfigSession + " commit timer " + timer.value
                     else cliConfigSession + " commit";
      assert command == ConfigSession.CommitCommand(name, timer);
      var res := device.Cli(Some(command), None, NoKwargs);
      r := ConfigSession.Ignore(res);
    }

    /** `abort`. */
    method Abort() returns (r: Result<(), Error>)
      requires Valid()
      modifies device
      ensures device.posted == old(device.posted) + device.Sends(Some(ConfigSession.AbortCommand(name)), None, NoKwargs)
      ensures r == ConfigSession.Ignore(device.CliReply(old(device.posted), Some(ConfigSession.AbortCommand(name)), None, NoKwargs))
    {
      var res := device.Cli(Some(cliConfigSession + " abort"), None, NoKwargs);
      r := ConfigSession.Ignore(res);
    }

    /** `diff`, in text format. */
    method Diff() returns (r: Result<Json, Error>)
      requires Valid()
      modifies device
      ensures var kw := Kwargs(Some("text"), None, None, None);
        && device.posted == old(device.posted) + device.Sends(Some(ConfigSession.DiffCommand(name)), None, kw)
        && r == device.CliReply(old(device.posted), Some(ConfigSession.DiffCommand(name)), None, kw)
    {
      r := device.Cli(Some("show session-config named " + name + " diffs"), None, Kwargs(Some("text"), None, None, None));
    }

    /** `write`. */
    method Write() returns (r: Result<(), Error>)
      requires Valid()
      modifies device
      ensures device.posted == old(device.posted) + device.Sends(Some("write"), None, NoKwargs)
      ensures r == ConfigSession.Ignore(device.CliReply(old(device.posted), Some("write"), None, NoKwargs))
    {
      var res := device.Cli(Some("write"), None, NoKwargs);
      r := ConfigSession.Ignore(res);
    }
  }
}
