# aio-eapi, modelled in Dafny

A model of the client-side logic of `aio-eapi`, an asyncio client for the
Arista EOS eAPI (JSON-RPC over HTTP). It covers three parts.

- **The JSON-RPC envelope and the response reduction.** `aioeapi.Device`
  (`AioDevice`) and `asynceapi.Transport`/`Device` (`AsyncDevice`) build the
  `runCmds` request and read the response body back.
  - A body without an error gives one output per result entry.
  - A body with an error is split into the passed outputs, the one failed
    command and the commands never executed. `aioeapi` raises these as an
    `EapiCommandError`; `asynceapi` returns them as a list of `CommandResults`.
  - `AsyncDevice.AgreesWithReduce` proves that both clients split a response
    the same way.
- **Configuration sessions.** `aioeapi.config_session.SessionConfig`
  (`ConfigSession`) and the older `aioeapi.config.SessionConfig`
  (`LegacyConfig`) each send one fixed CLI batch per operation, built around the
  preamble `configure session <name>`.
- **The pyeapi-style `Node`** (`PyeapiNode`). It keeps the session name and the
  cached configurations as state.
  - `run_commands` rewrites `MULTILINE:` commands, prepends `enable`, and drops
    the first output.
  - Non-strict `enable` retries a command in text encoding when it fails with
    error 1003.
  - `config` tries each `CliVariants` alternative in turn.
  - `_chunkify`/`section` (`ConfigSections`) cut a running configuration into a
    map from section header to section text.

The device is an oracle and a recorder.
- `AioDevice.Device` answers each request through a function `server` of the
  requests posted so far, and records them in `posted`.
- `AsyncDevice.Transport` answers through a stateless `server`.
- `PyeapiNode.Node` sends each batch through a channel that answers given the
  batches `sent` so far. Its methods are proved against spec functions
  (`…Trace`), each returning the batches sent and the reply.

Python `dict` insertion order is modelled by `OrderedDict`. The string methods
the source relies on (`strip`, `split`, `splitlines`, `lower`, …) are modelled
in `Text`. Python exceptions are the `Failure` cases of a `Result`.

Where the documentation and the code differ, the code is followed:
- `aioeapi/config.py` `commit` without a timer still asks for a commit timer
  (see Findings).
- `enable`'s docstring (aioeapi/pyeapi/client.py:407-408) promises a `TypeError` for an encoding other than `json` or `text`; the code never checks the encoding, and the model passes any encoding on.
- `_chunkify` does not re-parse the body of the last section of a text, because
  the source has no step after its loop. `ConfigSections.Chunks` keeps this.

## Model

| member | source | states |
|---|---|---|
| AioDevice.JsoncrpcCommand | aioeapi/device.py:115-132 | the request carries the given commands; its format is `ofmt` when truthy and `"json"` otherwise; `autoComplete`/`expandAliases` are exactly the keywords given |
| AioDevice.Reduce | aioeapi/device.py:139-176 | no error ⇔ outputs; one output per result entry, unwrapped only in text format; on an error with `n` data entries: `n-1` passed outputs from `data`, `failed` is `[cmds[n-1]]`, and passed + failed + not-executed put back together are the batch |
| AioDevice.AnswersReducible | aioeapi/device.py:139-155 | every answer the switch gives is reducible, and a success has one output per command |
| AioDevice.FailureAt | aioeapi/device.py:163-176 | a failure at command `k` leaves `k` passed outputs, `failed == [cmds[k]]` and `not_exec == cmds[k+1..]` |
| AioDevice.BogusCommandExample | aioeapi/device.py:163-176 | the batch `show version`, `bogus command`, `show hostname` failing at the second command: one passed output, `bogus command` failed, `show hostname` not executed |
| AioDevice.Device.constructor | aioeapi/device.py:43-62 | a new device has its identity and server, and has posted nothing |
| AioDevice.Device.Sends | aioeapi/device.py:106-111 | one request is posted exactly when `command` or `commands` is given |
| AioDevice.Device.CliReply | aioeapi/device.py:106-113 | `RuntimeError` exactly when neither argument is given; a command error from the device is raised as a `CommandError`; a success returns the lone output for `command`, or the whole output list for `commands` |
| AioDevice.Device.JsonrpcExec | aioeapi/device.py:134-176 | posts exactly the request and returns its reduction |
| AioDevice.Device.Cli | aioeapi/device.py:64-113 | posts what `Sends` says and returns `CliReply` |
| Rpc.BuildRequest | aioeapi/device.py:115-132 | `jsonrpc "2.0"`, `method "runCmds"`, `version 1`, the given commands; format defaults as given; `id` is `req_id` when truthy, else the identity; `autoComplete`/`expandAliases` present exactly when given, with their values |
| AsyncDevice.Transport.constructor | asynceapi/device.py:19-36 | the output format starts as `"json"` |
| AsyncDevice.Transport.FormCommand | asynceapi/device.py:46-63 | the same envelope; format defaults to the transport's `ofmt`; `id` is `req_id` when truthy, else the identity; optional keys only when supplied |
| AsyncDevice.PostResults | asynceapi/device.py:82-111 | on success one passed record per result entry, pairing command `i` with output `i` (text entries unwrapped); on an error one record per command, in batch order: the records before the failing command passed and carry the `data` outputs in order, the failing one carries the error message, and the commands never executed carry no output |
| AsyncDevice.Transport.Post | asynceapi/device.py:65-111 | the three loops of the error path build exactly `PostResults` |
| AsyncDevice.PassedOutputsPrefix | asynceapi/device.py:97-103 | records that pass up to `n` contribute exactly their first `n` outputs |
| AsyncDevice.AgreesWithReduce | asynceapi/device.py:82-111 | the records give the same outputs as `aioeapi` on success; on an error, the passed outputs, the failed command and the not-executed commands of `EapiCommandError` |
| AsyncDevice.PushCommandsShape | asynceapi/device.py:138-151 | the batch is the enter commands (`configure` when none are given), then the configuration lines, each free of line breaks, which joined with `"\n"` give back the stripped configuration text, then the exit commands |
| AsyncDevice.ConfigLines | asynceapi/device.py:141 | no line holds a line break (that the lines join back into the stripped text is stated by `PushCommandsShape`) |
| AsyncDevice.Device.constructor | asynceapi/device.py:114-125 | the device owns a new transport with the given server and format `"json"` |
| AsyncDevice.Device.ExecReplyAsWritten | asynceapi/device.py:127-132 | as written: `TypeError` iff any keyword other than `ofmt` is given; otherwise the records of the response |
| AsyncDevice.Device.ExecAsWritten | asynceapi/device.py:127-132 | the method computes `ExecReplyAsWritten` |
| AsyncDevice.Device.ReqIdRejected | asynceapi/device.py:127-132 | passing `req_id` makes `exec` fail with `TypeError` |
| AsyncDevice.Device.Exec | asynceapi/device.py:127-132 | corrected: every keyword reaches the request, and the records describe the response to that request |
| AsyncDevice.Device.GetConfig | asynceapi/device.py:134-136 | exactly the batch `["show running-config"]`, in the given format; one record |
| AsyncDevice.Device.PushConfig | asynceapi/device.py:138-151 | sends the batch `PushCommands` describes, in the given format |
| ConfigSession.Preamble | aioeapi/config_session.py:54 | `"configure session "` followed by the name |
| ConfigSession.NonBlank | aioeapi/config_session.py:171 | `filter(None, …)`: no empty line survives, and the result is no longer than the input |
| ConfigSession.NonBlankMembers | aioeapi/config_session.py:171 | a line survives iff it was in the content and is not empty |
| ConfigSession.NonBlankAppend | aioeapi/config_session.py:171 | the filter distributes over concatenation |
| ConfigSession.NonBlankKeepsFull | aioeapi/config_session.py:171 | content without empty lines passes unchanged |
| ConfigSession.PushBatchShape | aioeapi/config_session.py:158-173 | the batch is the preamble, then the rollback iff `replace`, then the content without empty lines, in order; the rollback appears elsewhere only if the content holds it |
| ConfigSession.PushRollbackAtOne | aioeapi/config_session.py:164-166 | index 1 holds the rollback iff `replace`, or the content's first kept line is itself the rollback |
| ConfigSession.CommitCommand | aioeapi/config_session.py:186-191 | starts with `"<preamble> commit"` |
| ConfigSession.CommitCommandInjective | aioeapi/config_session.py:186-191 | the command tells whether a timer was given, and which timer: `" timer <timer>"` only for a non-empty timer |
| ConfigSession.AbortCommand | aioeapi/config_session.py:198 | the preamble followed by `" abort"` |
| ConfigSession.DiffCommand | aioeapi/config_session.py:214-216 | `"show session-config named <name> diffs"` |
| ConfigSession.StatusOf | aioeapi/config_session.py:132-133 | succeeds iff the reply is a dictionary whose `sessions` is a dictionary; then the session's entry when present, `None` when absent; `TypeError` when the reply is not a dictionary, `KeyError` when `sessions` is missing, `AttributeError` when `sessions` is not a dictionary |
| ConfigSession.StatusAbsent | aioeapi/config_session.py:132-133 | a session absent from a well-formed reply gives `None`, not an error |
| ConfigSession.LoadScpBatch | aioeapi/config_session.py:240-244 | preamble, the rollback iff `replace`, then `copy <filename> session-config` |
| ConfigSession.FlaggedIgnoresCase | aioeapi/config_session.py:246 | the check does not depend on case |
| ConfigSession.LastMessages | aioeapi/config_session.py:247-249 | succeeds iff the reply is a non-empty list whose last entry is a dictionary with `messages` holding a string or a list of strings; a list gives its strings in order, a string its characters one by one; an empty list gives `IndexError`, a dictionary `KeyError(-1)`, a missing key `KeyError('messages')` |
| ConfigSession.StringMessagesPass | aioeapi/config_session.py:247-250 | `messages` given as one string is searched character by character, so the check never fails on it |
| ConfigSession.ScpCheck | aioeapi/config_session.py:246-250 | fails iff some message contains `error`, `abort` or `invalid` in any case, and then with `RuntimeError` of all messages joined |
| ConfigSession.ScpCheckFlaggedAnywhere | aioeapi/config_session.py:249-250 | one flagged message fails the check wherever it sits |
| ConfigSession.ScpCheckInvalidInput | aioeapi/config_session.py:246-250 | `% Invalid input` is caught |
| ConfigSession.Ignore | aioeapi/config_session.py:173 | a reply whose value is dropped succeeds iff the call did, and fails with the same error |
| ConfigSession.SessionConfig.constructor | aioeapi/config_session.py:38-54 | the preamble is fixed at construction from the name |
| ConfigSession.SessionConfig.StatusAll | aioeapi/config_session.py:74-84 | sends exactly `show configuration sessions detail`; nothing else is posted |
| ConfigSession.SessionConfig.Status | aioeapi/config_session.py:86-133 | the same single request, then the lookup `StatusOf` |
| ConfigSession.SessionConfig.Push | aioeapi/config_session.py:135-173 | posts exactly the one batch `PushBatch` |
| ConfigSession.SessionConfig.Commit | aioeapi/config_session.py:175-191 | posts exactly `CommitCommand` |
| ConfigSession.SessionConfig.Abort | aioeapi/config_session.py:193-198 | posts exactly `AbortCommand` |
| ConfigSession.SessionConfig.Diff | aioeapi/config_session.py:200-216 | posts exactly `DiffCommand`, in text format |
| ConfigSession.SessionConfig.LoadScpFile | aioeapi/config_session.py:218-250 | posts exactly `LoadScpBatch`, then applies the message check to the last result |
| ConfigSession.SessionConfig.Write | aioeapi/config_session.py:252-257 | posts exactly `write` |
| LegacyConfig.PushBatch | aioeapi/config.py:128-132 | preamble, the rollback at index 1 iff `replace`, then the content unchanged |
| LegacyConfig.PushMatchesNewer | aioeapi/config.py:128-132 | the two `push` batches differ only in the blank-line filter |
| LegacyConfig.PushKeepsBlankLines | aioeapi/config.py:128-132 | every content line, blank ones included, reaches the device |
| LegacyConfig.CommitCommandAsWritten | aioeapi/config.py:145-151 | as written: always starts with `"<preamble> commit timer"` |
| LegacyConfig.CommitWithoutTimerAsksForTimer | aioeapi/config.py:145-151 | without a timer the command is not a plain commit: it ends in `timer` with no duration |
| LegacyConfig.CommitAgreesWithTimer | aioeapi/config.py:145-151 | with a timer both commit commands agree |
| LegacyConfig.SessionConfig.constructor | aioeapi/config.py:12-28 | the preamble is fixed at construction from the name |
| LegacyConfig.SessionConfig.StatusAll | aioeapi/config.py:48-58 | sends exactly `show configuration sessions detail` |
| LegacyConfig.SessionConfig.Status | aioeapi/config.py:60-107 | the same single request, then the lookup `StatusOf` |
| LegacyConfig.SessionConfig.Push | aioeapi/config.py:109-132 | posts exactly the batch `PushBatch` |
| LegacyConfig.SessionConfig.CommitAsWritten | aioeapi/config.py:134-151 | as written: posts `CommitCommandAsWritten` |
| LegacyConfig.SessionConfig.Commit | aioeapi/config.py:134-151 | corrected: posts `ConfigSession.CommitCommand`, a plain commit without a timer |
| LegacyConfig.SessionConfig.Abort | aioeapi/config.py:153-158 | posts exactly `<preamble> abort` |
| LegacyConfig.SessionConfig.Diff | aioeapi/config.py:160-176 | posts exactly the diff command, in text format |
| LegacyConfig.SessionConfig.Write | aioeapi/config.py:178-183 | posts exactly `write` |
| OrderedDict.Set | aioeapi/pyeapi/client.py:333 | `d[k] = v`: the new value; a present key keeps its place; a new key goes last |
| OrderedDict.Append | aioeapi/pyeapi/client.py:327 | `d[k] += s`: the key order is unchanged |
| OrderedDict.UpdateWithKeys | aioeapi/pyeapi/client.py:344 | assigning distinct keys in turn gives the keys already there, then the new ones in the order assigned |
| OrderedDict.Missing | aioeapi/pyeapi/client.py:344 | the keys of a list not in the map, in list order |
| OrderedDict.UpdateWithVals | aioeapi/pyeapi/client.py:344 | after the assignments each assigned key holds its new value and every other key its old one |
| OrderedDict.RestrictCons | aioeapi/pyeapi/client.py:344 | assigning the first key and then the rest is assigning them all |
| OrderedDict.Update | aioeapi/pyeapi/client.py:344 | `d.update(e)`: entries of `e` win; other entries of `d` keep their values; the keys are those of `d` in order, then the keys only `e` has, in `e`'s order |
| OrderedDict.UpdateVals | aioeapi/pyeapi/client.py:344 | the entries of `d.update(e)` are the map union with `e` winning |
| OrderedDict.SetGet | aioeapi/pyeapi/client.py:333-347 | a key reads back the value it was given; no other key changes |
| ConfigSections.SubsectionPresent | aioeapi/pyeapi/client.py:314-315 | reading in order: true when a line with a space at the column comes before any line too short for it, with every earlier line long enough and without a space there; false when every line is long enough and none has a space; `IndexError` when a too-short line comes first |
| ConfigSections.SubsectionPresentTrue | aioeapi/pyeapi/client.py:314-315 | converse: a space at the column before any short line makes the check true |
| ConfigSections.SubsectionPresentFails | aioeapi/pyeapi/client.py:314-315 | converse: a short line before any space at the column makes the check fail with `IndexError` |
| ConfigSections.Chunks | aioeapi/pyeapi/client.py:320-348 | a successful parse is a well-formed ordered map whose values are no longer than the text |
| ConfigSections.Walk | aioeapi/pyeapi/client.py:323-348 | the loop from one line on keeps the map well formed and bounded |
| ConfigSections.Step | aioeapi/pyeapi/client.py:324-347 | one pass of the loop body keeps the map well formed and bounded |
| ConfigSections.Reparse | aioeapi/pyeapi/client.py:339-345 | the merge keeps every existing entry with its value |
| ConfigSections.ReparseKeeps | aioeapi/pyeapi/client.py:339-342 | when the current section has no body or no sub-section, the map is unchanged |
| ConfigSections.ReparseSubParse | aioeapi/pyeapi/client.py:339-345 | with sub-sections, a failing sub-parse fails the close; otherwise the entries are the sub-parse's merged under the map so far, which wins, and the keys are the sub-parse's first, then those only the map so far has |
| ConfigSections.Chunkify | aioeapi/pyeapi/client.py:292-348 | the loop over the lines computes `Chunks` |
| ConfigSections.FirstMatch | aioeapi/pyeapi/client.py:367-370 | the first key that matches; no earlier key matches |
| ConfigSections.Section | aioeapi/pyeapi/client.py:363-372 | a parse error is passed on; `TypeError` iff no key matches; otherwise the value of the first matching key in insertion order |
| ConfigSections.ChunksEmpty | aioeapi/pyeapi/client.py:320-323 | an empty text has no sections |
| ConfigSections.ChunksHeaderOnly | aioeapi/pyeapi/client.py:323 | below the top level the header line is skipped |
| ConfigSections.IndentedFirstLine | aioeapi/pyeapi/client.py:335-337 | at the top level an indented first line that is not a banner fails with `KeyError` |
| ConfigSections.BannerRun | aioeapi/pyeapi/client.py:325-330 | inside a banner every line before `EOF` is appended verbatim, in order, to the banner's entry; no key is added |
| ConfigSections.BannerClose | aioeapi/pyeapi/client.py:326-329 | the `EOF` line is appended and closes the banner |
| ConfigSections.Open | aioeapi/pyeapi/client.py:339-347 | on success the line opens a section keyed by its rstripped text, holding just that line, which becomes the current key; the banner is unchanged; every other entry keeps its value; the map stays well formed and bounded |
| ConfigSections.WalkStep | aioeapi/pyeapi/client.py:323 | one turn of the loop: the line is non-empty and within the text, and the loop goes on from the next line unless the step fails |
| ConfigSections.StepKeepsKeys | aioeapi/pyeapi/client.py:324-347 | a pass of the loop body never drops a key |
| ConfigSections.WalkKeepsKeys | aioeapi/pyeapi/client.py:323-348 | a key in the map at some line is in the map the parse returns |
| ConfigSections.OpenKeepsSubsections | aioeapi/pyeapi/client.py:339-347 | when the closed section has sub-sections, opening the next fails if the sub-parse fails, and otherwise every deeper header the sub-parse found is a key |
| ConfigSections.StepLine | aioeapi/pyeapi/client.py:324-347 | the loop body on one line computes `Step` |
| ConfigSections.CloseSection | aioeapi/pyeapi/client.py:339-345 | closing the current section computes `Reparse`, recursing into `_chunkify` for its sub-sections |
| PyeapiNode.Rewrite | aioeapi/pyeapi/client.py:483-485 | a command without `MULTILINE:` passes unchanged; one with it becomes interactive, with the text before the first marker as its command |
| PyeapiNode.NoEarlierMarker | aioeapi/pyeapi/client.py:483-485 | no marker starts inside `x + "MULTILINE:"` before the one at `|x|` |
| PyeapiNode.FirstMarker | aioeapi/pyeapi/client.py:483-485 | splitting `X MULTILINE: Y` at the markers, when `X` holds none, gives `X` followed by the parts of `Y` |
| PyeapiNode.MultilineRewrite | aioeapi/pyeapi/client.py:483-485 | `X MULTILINE: Y` becomes the command `X ` with input `strip(Y) + "\n"` |
| PyeapiNode.TwoMarkerRewrite | aioeapi/pyeapi/client.py:483-485 | `X MULTILINE: Y MULTILINE: Z` becomes the command `X ` with input `strip(Y) + "\n"`: only the text between the first two markers is sent |
| PyeapiNode.RewriteAll | aioeapi/pyeapi/client.py:483-485 | one rewritten command per caller's command |
| PyeapiNode.RewriteAllAt | aioeapi/pyeapi/client.py:483-485 | command `i` of the rewritten list is the caller's command `i`, rewritten |
| PyeapiNode.RunBatch | aioeapi/pyeapi/client.py:483-491 | `enable` (with the password as input when one is set) comes first iff `send_enable`; after it, exactly the commands rewritten, in order |
| PyeapiNode.RunReply | aioeapi/pyeapi/client.py:493-508 | fails iff the device fails; on success one output per caller's command: the device's outputs without the first when `enable` was sent |
| PyeapiNode.EnableOne | aioeapi/pyeapi/client.py:432-447 | one or two batches; a success names the command, has no `response` key, and is in text iff it was retried; its `result` is given by `EnableOneAnswers` |
| PyeapiNode.EnableOneAnswers | aioeapi/pyeapi/client.py:433-445 | a success's `result` is the last output of the device's answer to the last batch sent, whose last command is the command, rewritten, and whose format is the result's encoding |
| PyeapiNode.EnableOneRetries | aioeapi/pyeapi/client.py:439-447 | the retry happens iff the first attempt failed with code 1003, and it is in text; any other error is raised as it is |
| PyeapiNode.EnableEach | aioeapi/pyeapi/client.py:432-448 | a non-empty list of commands sends at least one batch |
| PyeapiNode.AlignedSnoc | aioeapi/pyeapi/client.py:436-445 | a result for the next command keeps the results aligned with the commands |
| PyeapiNode.EnableEachAligned | aioeapi/pyeapi/client.py:432-448 | a success gives one result per command, in order, each naming its command; result `i` is the last output of the device's answer to one of the batches sent, ending in command `i`; between one and two batches per command |
| PyeapiNode.EnableEachStops | aioeapi/pyeapi/client.py:446-447 | once a command has raised, no later command is sent |
| PyeapiNode.EnableEachStep | aioeapi/pyeapi/client.py:432-447 | the loop over one more command is the loop so far followed by that command's attempt |
| PyeapiNode.EnableStrict | aioeapi/pyeapi/client.py:423-430 | exactly one batch; a success pairs each command with its output, in the given encoding, with `response` equal to `result`; the results are the last outputs of the device's answer, in order |
| PyeapiNode.EnableTrace | aioeapi/pyeapi/client.py:413-448 | `configure` among the commands ⇔ nothing is sent and `TypeError` is raised; a success is aligned with the commands; strict mode sends one batch whose last outputs are the results; otherwise every result is the device's answer to a batch ending in its command |
| PyeapiNode.StrictNeverRetries | aioeapi/pyeapi/client.py:423-430 | strict mode sends one batch and never retries in text |
| PyeapiNode.TerminalTrace | aioeapi/pyeapi/client.py:249-268 | one batch: `enable`, `configure terminal`, the commands; one output per command, the values given by `TerminalAligned` |
| PyeapiNode.TerminalAligned | aioeapi/pyeapi/client.py:256-266 | past `enable` and `configure terminal` the batch is the commands rewritten; a device failure is the reply; a success is the device's outputs past the first two |
| PyeapiNode.SessionTrace | aioeapi/pyeapi/client.py:270-289 | no session ⇔ nothing is sent, with `CommandError(-1, …)`; otherwise one batch opening with `configure session <name>`; one output per command |
| PyeapiNode.RunReplyPastEnable | aioeapi/pyeapi/client.py:487-508 | behind `enable`, a success means the device answered one output more than the caller's commands, and the first one is dropped |
| PyeapiNode.BatchPastPreamble | aioeapi/pyeapi/client.py:281-282 | behind `enable` and the preamble the batch holds the caller's commands rewritten, in order |
| PyeapiNode.SessionAligned | aioeapi/pyeapi/client.py:281-287 | on success one batch is sent; past `enable` and the session command it holds the caller's commands, rewritten and in order; the reply is the device's outputs past those two |
| PyeapiNode.CfgTrace | aioeapi/pyeapi/client.py:229-230 | exactly one batch, in json, through the session or the terminal |
| PyeapiNode.VariantIndex | aioeapi/pyeapi/client.py:222-227 | `None` iff there is no `CliVariants`; otherwise the index of the first one |
| PyeapiNode.VariantRuns | aioeapi/pyeapi/client.py:240-243 | one batch per variant |
| PyeapiNode.VariantRunsAt | aioeapi/pyeapi/client.py:240-243 | batch `j` is `cfg_call` of `commands[:idx] + variants[j] + commands[idx+1:]`, in json |
| PyeapiNode.VariantsUnfold | aioeapi/pyeapi/client.py:240-246 | one turn: the first variant's call is the answer unless it raised a `CommandError`; then the loop goes on over the rest with that error to re-raise |
| PyeapiNode.VariantsTurn | aioeapi/pyeapi/client.py:240-246 | the same turn for variant `j` over the variants from `j` on |
| PyeapiNode.VariantsReturn | aioeapi/pyeapi/client.py:242-243 | after the batches so far, a call that does not raise a `CommandError` is the loop's answer, and its batch the last one sent |
| PyeapiNode.VariantsContinue | aioeapi/pyeapi/client.py:244-245 | after the batches so far, a call that raises a `CommandError` adds its batch and the loop goes on with that error |
| PyeapiNode.VariantsLast | aioeapi/pyeapi/client.py:244-246 | with one variant left, its `CommandError` is re-raised after its one batch |
| PyeapiNode.VariantsInOrder | aioeapi/pyeapi/client.py:240-243 | between one batch and one per variant, and the batches sent are the first ones of `VariantRuns`, in order |
| PyeapiNode.InOrderFirst | aioeapi/pyeapi/client.py:242-243 | when the first attempt ends the loop, its batch is the only one sent |
| PyeapiNode.InOrderNext | aioeapi/pyeapi/client.py:244-245 | when the first attempt raised a `CommandError`, its batch comes before those of the later variants |
| PyeapiNode.VariantsLastAnswers | aioeapi/pyeapi/client.py:240-246 | every attempt before the last raised a `CommandError`; the reply is the last attempt's; stopping before the last variant means that attempt did not raise a `CommandError` |
| PyeapiNode.AttemptFirst | aioeapi/pyeapi/client.py:240-243 | attempt 0 is the call with the first variant, on the history alone |
| PyeapiNode.AttemptShift | aioeapi/pyeapi/client.py:240-245 | attempt `j` is attempt `j - 1` of the loop over the later variants once the first batch is sent |
| PyeapiNode.AnswersLastFirst | aioeapi/pyeapi/client.py:242-246 | when the first attempt ends the loop it is the last attempt and the loop answers as it did |
| PyeapiNode.AnswersLastNext | aioeapi/pyeapi/client.py:244-246 | when the first attempt raised a `CommandError`, the loop answers as the loop over the later variants |
| PyeapiNode.ConfigTrace | aioeapi/pyeapi/client.py:232-236 | without variants, exactly one batch |
| PyeapiNode.NextSessionName | aioeapi/pyeapi/client.py:589 | the result is a name; an existing name is kept |
| PyeapiNode.EnterSessionTwice | aioeapi/pyeapi/client.py:589 | entering a session twice keeps the first name |
| PyeapiNode.Item | aioeapi/pyeapi/client.py:599 | `x["output"]`: the value iff the key exists; `KeyError` on a dictionary without it |
| PyeapiNode.DiffOutput | aioeapi/pyeapi/client.py:596-599 | the error of the call, or the `output` of the first result |
| PyeapiNode.ShowConfigCommand | aioeapi/pyeapi/client.py:564-566 | `show <config>`, followed by `" <params>"` iff `params` is truthy |
| PyeapiNode.Shape | aioeapi/pyeapi/client.py:569-572 | the stripped text, or lines that hold no line break and join back with `"\n"` into the text |
| PyeapiNode.TextOf | aioeapi/pyeapi/client.py:568-570 | the error of the call is passed on; success iff the first result has a text `output`, and then it is that text |
| PyeapiNode.GetConfigTrace | aioeapi/pyeapi/client.py:561-572 | an unknown config name ⇔ nothing sent, with `TypeError`; otherwise exactly one text batch `show <config>[ <params>]`; a device failure is the reply; a success is the text `output` of the device's second answer, stripped or split into lines |
| PyeapiNode.GetConfigLinesJoin | aioeapi/pyeapi/client.py:572 | the list form holds no line break in any line and joins back into the device's text |
| PyeapiNode.Node.constructor | aioeapi/pyeapi/client.py:73-87 | no session, no cached configuration, nothing sent; the password and `autorefresh` as given |
| PyeapiNode.Node.EnableAuthentication | aioeapi/pyeapi/client.py:170-182 | the password is stored stripped |
| PyeapiNode.Node.Refresh | aioeapi/pyeapi/client.py:574-584 | both cached configurations are cleared |
| PyeapiNode.Node.EnterSession | aioeapi/pyeapi/client.py:586-589 | an existing session name is kept; otherwise the new name is used |
| PyeapiNode.Node.RunCommands | aioeapi/pyeapi/client.py:450-508 | sends exactly `RunBatch` and returns `RunReply` |
| PyeapiNode.Node.Enable | aioeapi/pyeapi/client.py:374-448 | sends exactly the batches of `EnableTrace` and returns its reply |
| PyeapiNode.Node.EnableOneByOne | aioeapi/pyeapi/client.py:431-448 | the loop sends exactly the batches of `EnableEach` and returns its reply |
| PyeapiNode.Node.EnableStrictly | aioeapi/pyeapi/client.py:423-430 | the loop builds exactly `EnableStrict`'s results |
| PyeapiNode.Node.EnableEntry | aioeapi/pyeapi/client.py:433-447 | one command's attempt and its text retry, as `EnableOne` |
| PyeapiNode.Node.ConfigureTerminal | aioeapi/pyeapi/client.py:249-268 | sends `TerminalTrace`'s batch; after a success with `autorefresh` both caches are cleared |
| PyeapiNode.Node.ConfigureSession | aioeapi/pyeapi/client.py:270-289 | sends `SessionTrace`'s batch and returns its reply |
| PyeapiNode.Node.CfgCall | aioeapi/pyeapi/client.py:229-230 | the session path when a session is open, the terminal path otherwise |
| PyeapiNode.Node.Config | aioeapi/pyeapi/client.py:184-246 | the variant loop sends exactly the batches of `ConfigTrace` and returns its reply |
| PyeapiNode.Node.ConfigureAndExitSession | aioeapi/pyeapi/client.py:611-620 | sends the session batch; a success leaves no session and, with `autorefresh`, clears both caches; a failure keeps the session |
| PyeapiNode.Node.Commit | aioeapi/pyeapi/client.py:601-604 | sends `commit` through the session; a success leaves no session |
| PyeapiNode.Node.Abort | aioeapi/pyeapi/client.py:606-609 | sends `abort` through the session; the session stays open |
| PyeapiNode.Node.Diff | aioeapi/pyeapi/client.py:591-599 | sends `show session-config diffs` through the session in text; returns the first `output` |
| PyeapiNode.Node.GetConfig | aioeapi/pyeapi/client.py:535-572 | sends exactly the batches of `GetConfigTrace` and returns its reply |
| Text.Lstrip | aioeapi/pyeapi/client.py:318 | a suffix of the input with every dropped character white space and none left in front |
| Text.Rstrip | aioeapi/pyeapi/client.py:324 | a prefix of the input with every dropped character white space and none left at the end |
| Text.Indent | aioeapi/pyeapi/client.py:317-318 | the number of leading white-space characters |
| Text.IndexOf | aioeapi/pyeapi/client.py:483-485 | the first position of the pattern, or none |
| Text.Split | aioeapi/pyeapi/client.py:483-485 | at least one part; the whole string when the separator is absent; else the first part is the text before the first separator |
| Text.SplitJoin | aioeapi/pyeapi/client.py:572 | joining the parts with the separator gives back the string |
| Text.SplitNoSep | aioeapi/pyeapi/client.py:572 | no part holds the separator |
| Text.BeforeFirst | aioeapi/pyeapi/client.py:483 | the text before the first occurrence of a pattern holds no occurrence of it |
| Text.ContainsChar | aioeapi/pyeapi/client.py:572 | a text holds the one-character pattern `[c]` exactly when it holds `c` |
| Text.SplitNoChar | aioeapi/pyeapi/client.py:572 | no part of a split at one character holds that character |
| Text.SplitLinesKeep | aioeapi/pyeapi/client.py:323 | `splitlines(keepends=True)`: every piece but the last ends in a line break, and none has one inside |
| Text.SplitLinesKeepJoin | aioeapi/pyeapi/client.py:323 | the pieces put back together are the text |
| Text.SplitLinesJoin | aioeapi/pyeapi/client.py:339 | the lines of `splitlines()` joined with `"\n"` are the text, when it does not end in a line break |
| Text.LenSumSplitLinesKeep | aioeapi/pyeapi/client.py:323 | the pieces of `splitlines(keepends=True)` together are as long as the text |
| Text.SplitLinesKeepCons | aioeapi/pyeapi/client.py:323 | a line ending in a line break splits off on its own ahead of what follows |
| Text.NatToString | aioeapi/device.py:124 | decimal digits without a leading zero whose value is the number |
| Text.NatToStringInjective | aioeapi/device.py:124 | different numbers give different identities |

## Left out

- The HTTP transport (httpx, `raise_for_status`, authentication, base64 credentials, port lookup, TLS, timeouts) is an oracle returning a response body.
- Asynchrony: every `await` is a plain call.
- `Node`'s lazy `running_config`/`startup_config`/`version`/`model` properties, `_sync_to_async_` and `_get_version_properties` are not modelled. The model only has the cache fields that `refresh` and the configure methods clear.
- `Node.api` (dynamic module import) is not modelled.
- The `lru_cache` on `_chunkify` (aioeapi/pyeapi/client.py:291) and its `cache_clear` calls are left out; every model parse starts afresh. In the source the cache is not transparent. A sub-parse result comes from the cache and is then changed in place: `parsed.update(sections); sections = parsed` (client.py:343-345), and the lines after it are added to the same dictionary. A later parse of another configuration holding a section with the same text at the same indent gets that dictionary back, with the earlier configuration's sections still in it. For example, parsing `a\n b\n  c\nd\n` and then `a\n b\n  c\ne\n` gives the second result a key `d` that its text does not have. Modelling this needs the cache's dictionaries as shared objects across calls; `ConfigSections.Chunks` is the uncached parse.
- `uuid4`: the new session name is a parameter of `EnterSession`.
- PyeapiNode.EnableOne: a device failure is one error with a code on both of `run_commands`' paths. On the `_dev.cli` path (client.py:502) the source raises `EapiCommandError`, a `RuntimeError` and not a `CommandError`. So neither `enable`'s retry on code 1003 (client.py:439) nor `config`'s variant loop (client.py:244) catches it there; the model behaves as on the `_connection` path.
- ConfigSession.LastMessages: a `messages` dictionary, whose keys Python would iterate, gives `TypeError` in the model.
- `Node`'s channel stands for either `_connection.execute` or `_dev.cli`; the eapilib connection is not part of this model. It is assumed to return one output per command sent, so Python's `IndexError` on popping an empty list is not modelled.
- `**kwargs` forwarded by `Node` to the device, and its `config_defaults`/`settings` fields, are not modelled.
- `config` with more than one `CliVariants`: the source supports only one, and `PyeapiNode.ConfigTrace` requires at most one.
- `Node.section(regex, config)` reading the lazy property through `getattr` is not modelled; `ConfigSections.Section` takes the configuration text itself. The regular expression is an abstract predicate on keys.
- Commit-timer expiry and the session states reported by the device are server-side.
- `aioeapi/errors.py` `__str__` is not modelled; the error record's fields are.
- The reduction's assumption `1 <= len(error.data) <= len(cmds)` is a precondition (`Rpc.Answers`), as is an unwrappable text entry.
- ConfigSession.Flagged: the case-insensitive search covers ASCII letters only.
- Text.SplitLinesKeep: only `"\n"` ends a line; Python's other line boundaries (`"\r"`, `"\x0b"`, …) are not modelled.
- Text.Lstrip: white space is the ASCII set of `str.isspace`.
- PyeapiNode.TextOf: `str()` of a non-string `output` is not modelled; it gives `TypeError`.
- AioDevice.Device.CliReply: a successful reply is stated for a body the switch gives (`Rpc.Answers`); a body of another shape is not modelled.

## Findings

| source | as written | input that shows it | evidently intended | confidence | as-written member | corrected member |
|---|---|---|---|---|---|---|
| asynceapi/device.py:127-132 | `exec` forwards all of its keywords to `post(jsonrpc, ofmt=None)`, which accepts `ofmt` alone | `exec(["show version"], req_id="1")` raises `TypeError` before anything is sent | the keywords `form_command` honours reach the request, and only `ofmt` reaches `post` | not executed | AsyncDevice.Device.ReqIdRejected | AsyncDevice.Device.Exec |
| aioeapi/config.py:145-151 | `commit` without a timer sends `configure session <name> commit timer` | `commit()` with `timer=None` | a plain `configure session <name> commit`, as in `aioeapi/config_session.py` | not executed | LegacyConfig.CommitWithoutTimerAsksForTimer | LegacyConfig.SessionConfig.Commit |
