# ChangeResolution, modelled in Dafny

`ChangeResolution.exe` changes the resolution of the primary display. It can
also start a program, or wait for one to appear, and put the old width and
height back when that program ends. The whole program is one C# file,
`Program.cs`. This project models its decision logic:

- the `DEVMODE` record and the one update the program makes to it;
- `int.Parse` as the argument loop uses it;
- the argument loop of `Main`;
- the case-insensitive process-name search of `IsProcessRunning`;
- `GetCurrentSettings` and `ChangeResolution`;
- the three modes of `Main`, including the endless watch loop.

The operating system sits behind a boundary (module `Win32`, class `Os`).
`EnumDisplaySettings`, `ChangeDisplaySettings`, `Process.GetProcesses`,
`Process.Start` and `WaitForExit` become methods. Their answers come from an
environment (`Env`) that is fixed in advance and indexed by the call's
position in the run. Every call is appended, with its answer, to a trace.
The watch loop runs forever, so the model bounds it. A World's `polls`
counts the process-list polls left before the operator presses Ctrl+C. When
it reaches zero, the run ends `Interrupted`.

Each imperative method is proved against a function of the environment and
the starting World. `ParseArguments` matches `Parse`. `GetCurrentSettings`,
`ChangeResolution`, `WatchProgram` and `Execute` (the model of `Main`) match
`QueryBehaviour`, `ChangeBehaviour`, `WatchBehaviour` and `MainBehaviour`.
The lemmas in `SessionProperties` state what those functions promise. Most of
them are stated over views of the trace:

- `Added`: the calls a step appended;
- `FailureOf`: the error a call reports, if any;
- `Effects`: polls, change requests, starts and waits, without the queries.

Files: `types.dfy`, `display.dfy`, `int32_text.dfy`, `arguments.dfy`,
`processes.dfy`, `win32.dfy`, `session.dfy`, `session_properties.dfy`.

Two behaviours of the code are worth knowing, and the model keeps both:

- A restore does not submit the record read before the session. The restores
  at Program.cs:173 and Program.cs:189 pass only that record's width and
  height to `ChangeResolution`, which reads the live record again
  (Program.cs:62-64) and changes only its width, height and field mask
  (Program.cs:69-71).
  `ChangesFollowQueries` states this: every change request, restores
  included, updates the record read just before it.
- `-x` and `-y` are both optional in the loop. After the loop only a width or
  height of zero is rejected (Program.cs:136), so a negative value passes
  (`ArgumentsGateCalls`).

## Model

| member | source | states |
|---|---|---|
| `Display.WithResolution` | Program.cs:62-71 | the submitted record carries the requested width and height and the mask `0x00180000`, and equals the queried record in every other member |
| `Display.WithResolutionCharacterised` | Program.cs:69-71 | a record is the one submitted if and only if it has the requested width, height and mask and agrees with the queried record everywhere else |
| `Display.WithResolutionOverwrites` | Program.cs:69-71 | a second update replaces the first, so the last width and height win; re-submitting a record's own width and height changes only its mask |
| `Display.PelsFieldsMaskIsBothBits` | Program.cs:71 | the mask every change request carries equals `DM_PELSWIDTH \| DM_PELSHEIGHT`, and the two bits are distinct |
| `Int32Text.ParseFormatRoundTrip` | Program.cs:119-122 | every 32-bit integer written in decimal is accepted by the modelled `int.Parse` and gives itself back |
| `Int32Text.ParseIgnoresSurroundingWhite` | Program.cs:119-122 | white space before and after a token does not change what `int.Parse` makes of it |
| `Arguments.ParseArguments` | Program.cs:110-134 | the loop, with its `args[++i]` jumps, ends with exactly the result of the scan `Parse`: the collected values, the first unrecognised token, or the exception |
| `Arguments.ScanAppend` | Program.cs:114-134 | once a prefix of the arguments scans completely, the rest is scanned from the values that prefix left |
| `Arguments.FlagSetsOnlyItsOwnVariable` | Program.cs:116-129 | after any complete prefix, `-w` sets only the wait flag, `-p v` only the program path, and `-x v`/`-y v` only the width/height, to `int.Parse(v)`, overwriting earlier occurrences |
| `Arguments.ValueFlagStep` | Program.cs:118-126 | after any complete prefix, a flag and its value move the scan past both, with that flag's variable updated |
| `Arguments.UnrecognisedTokenStops` | Program.cs:130-132 | after any complete prefix, a token that is not a flag ends the scan with the usage line, whatever follows |
| `Arguments.BadValueCrashes` | Program.cs:118-126 | `-x`, `-y` or `-p` as the last argument, or `-x`/`-y` before a non-integer, raises the unhandled exception |
| `Processes.IsProcessRunning` | Program.cs:80-90 | true if and only if some running process has the given name, compared ignoring case |
| `Processes.MatchIgnoresCase` | Program.cs:84 | two names that differ only in case are detected in exactly the same process lists |
| `Processes.FileName` | Program.cs:149 | the file name is a suffix of the path with no directory separator; what comes before it ends in a separator or is a drive prefix such as `C:`, and a leading drive prefix is never part of the file name |
| `Processes.FileNameWithoutExtension` | Program.cs:149 | the process name holds no directory separator and is a prefix of the file name; it is the whole file name only when that has no dot, and otherwise it stops at the last dot |
| `Processes.WatchedNameIsStem` | Program.cs:149 | for any directory ending in a separator, stem and dot-free extension, the watched name is the stem |
| `Processes.WatchedNameExample` | Program.cs:149 | for `C:\Games\Foo.exe` the watched name is `Foo` |
| `Processes.WatchedNameMatchExample` | Program.cs:80-90 | the name `Foo` is found in a list showing `FOO`, and not in one showing only `Foo.exe` |
| `Win32.Os.EnumDisplaySettings` | Program.cs:39-40 | returns the environment's answer for this position and appends the query and its answer to the trace |
| `Win32.Os.ChangeDisplaySettings` | Program.cs:42-43 | returns the environment's result code and appends the submitted record, flags and code to the trace |
| `Win32.Os.GetProcesses` | Program.cs:82 | with polls left, returns the environment's process list, records it and uses one poll; with none, returns nothing and changes nothing (Ctrl+C) |
| `Win32.Os.Start` | Program.cs:183 | returns whether the start succeeds and records the attempt |
| `Win32.Os.WaitForExit` | Program.cs:185 | records the wait for the started program |
| `Session.GetCurrentSettings` | Program.cs:49-58 | one query, recorded; no result stands for the "Unable to enumerate" exception |
| `Session.ChangeBehaviour` | Program.cs:60-78 | one query, then at most one change request; the trace grows by one or two calls and the poll budget is untouched |
| `Session.ChangeResolution` | Program.cs:60-78 | the method's status and the calls it makes are those of `ChangeBehaviour` |
| `Session.WatchBehaviour` | Program.cs:151-175 | the watch loop from a point about to poll: the trace only grows and polls are only used up |
| `Session.AfterPoll` | Program.cs:157-175 | the watch loop just after a poll: keep waiting, or change/restore and switch phase; the trace only grows |
| `Session.WatchProgram` | Program.cs:151-175 | the `while (true)` loop with its two polling loops makes the calls and ends with the outcome of `WatchBehaviour` |
| `Session.LaunchBehaviour` | Program.cs:177-191 | change, then start, wait and restore; the trace only grows |
| `Session.RunAndRestoreBehaviour` | Program.cs:183-190 | start, wait for exit, restore the width and height read at line 144; the trace only grows |
| `Session.SessionBehaviour` | Program.cs:142-201 | the `try` block: query, then one of the three modes; the trace only grows |
| `Session.MainBehaviour` | Program.cs:92-202 | the whole run from the arguments; the trace only grows |
| `Session.Execute` | Program.cs:92-202 | `Main` ends with the outcome, and makes the calls, of `MainBehaviour` |
| `SessionProperties.ChangeResolutionCalls` | Program.cs:60-78 | a failed query ends the call with the query error and no change request; otherwise the queried record is submitted with only width, height and mask replaced and `CDS_UPDATEREGISTRY`, and the call succeeds exactly when the code is 0, failing with that raw code otherwise |
| `SessionProperties.RunWellFormed` | Program.cs:92-202 | in every run no call but the last fails; the run reports `Failed` exactly when the last call failed, with that call's error; every change request updates the record read just before it |
| `SessionProperties.SessionWellFormed` | Program.cs:142-201 | the same for the `try` block in each mode |
| `SessionProperties.LaunchWellFormed` | Program.cs:177-191 | the same for the launch mode |
| `SessionProperties.RunAndRestoreWellFormed` | Program.cs:183-190 | the same for starting the program, waiting and restoring |
| `SessionProperties.WatchWellFormed` | Program.cs:151-175 | the same for the watch loop, which ends only by a failure (caught at line 198) or by Ctrl+C, and by Ctrl+C only once the poll budget is used up |
| `SessionProperties.WatchAlternation` | Program.cs:151-175 | from any history whose count of change requests matches the phase, the loop keeps changes and restores alternating: every change request follows the observation that calls for it, and every observation that calls for one is followed by it, unless the run fails right there |
| `SessionProperties.ActAlternation` | Program.cs:162-173 | an observation that calls for a change or restore is followed by that change request, or ends the run with a failure |
| `SessionProperties.NoArgumentsOnlyQueries` | Program.cs:94-108 | without arguments: exactly one query and no change; the current width and height are reported, or the query error |
| `SessionProperties.ArgumentsGateCalls` | Program.cs:110-145 | an unrecognised token or a zero width or height gives the usage line with no call; a parse exception gives the unhandled outcome with no call; otherwise, negative values included, the first call is the query |
| `SessionProperties.NoProgramChangesOnce` | Program.cs:147-196 | without `-p`: the query, then at most one change request, for the requested resolution, and no restore; exactly one when the run finishes; `-w` changes nothing |
| `SessionProperties.LaunchOrder` | Program.cs:177-191 | with `-p` and without `-w`: change to the requested resolution, start, wait, restore the width and height read first, in that order; a failure cuts the sequence short |
| `SessionProperties.WatchAlternates` | Program.cs:144-175 | with `-p` and `-w`: only polls and change requests; each follows a poll. Even-numbered requests follow a poll that saw the target and ask for the requested resolution. Odd-numbered requests follow a poll that did not see it and ask for the width and height read once before the loop. Every poll that calls for a change or restore is followed by that request, or is the last effect of a failed run. Only a failure, or Ctrl+C once the poll budget is used up, ends the run |

## Left out

- Marshalling for the foreign calls is not modelled: the struct layout, `dmSize` and the real `EnumDisplaySettings`/`ChangeDisplaySettings`. Their answers come from the environment.
- `Process.GetProcesses`, `Process.Start` and `WaitForExit` are environment answers and trace entries. A `Process.Start` that returns null, and a process whose name cannot be read, are not modelled.
- `Thread.Sleep(1000)` and the polling interval: only the order of observations matters. Ctrl+C is modelled only during the watch loop, as the end of its poll budget.
- Console text is not modelled. Outcomes only say which path printed what: `Reported`, `Usage`, `Failed(error)`.
- Int32Text.ParseInt32 covers the default number style for an invariant-like culture only: ASCII digits, `+`/`-` and ASCII white space. Culture-specific signs and trailing NUL characters are not modelled.
- Processes.EqualsIgnoreCase folds ASCII letters only; full ordinal Unicode case folding is not modelled.
- Processes.FileName follows the Windows path rules of .NET Core and later: `\`, `/` and a leading drive prefix (an ASCII letter and `:`) are path roots. Other root forms, such as UNC and device paths, are not modelled. Neither are the rules of .NET Framework, where every `:` ends a directory and a path with invalid characters throws an exception that Program.cs:198 would catch.
- The environment answers each call by its position in the run. It cannot make a later answer depend on the OS's real state, for example a query that reflects an earlier change. Lemmas therefore hold for every environment.
