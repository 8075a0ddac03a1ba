/** The operating-system boundary the program talks to: `EnumDisplaySettings`,
    `ChangeDisplaySettings`, `Process.GetProcesses`, `Process.Start` and
    `WaitForExit`. The system's answers come from an environment fixed in advance,
    indexed by the position of the call in the run; every call is recorded, with
    its answer, in a trace. */
module Win32 {
  import opened Types
  import opened Display

  /** `ENUM_CURRENT_SETTINGS`, the mode number every query asks for. */
  const EnumCurrentSettings: int32 := -1
  /** `CDS_UPDATEREGISTRY`: apply the mode now and keep it across restarts. */
  const CdsUpdateRegistry: int32 := 0x01
  /** `DISP_CHANGE_SUCCESSFUL`. */
  const DispChangeSuccessful: int32 := 0

  /** One call across the boundary, with what the system answered. */
  datatype Call =
    | EnumSettings(modeNum: int32, result: Option<DevMode>)  // None: the call returned false
    | ChangeSettings(submitted: DevMode, flags: int32, code: int32)
    | ListProcesses(names: seq<string>)                      // the names of the running processes
    | StartProcess(path: string, started: bool)              // false: the start threw
    | AwaitExit(path: string)

  /** How the system answers the call made at each position of the trace. */
  datatype Env = Env(
    currentSettings: nat -> Option<DevMode>,
    changeResult: nat -> int32,
    processes: nat -> seq<string>,
    startSucceeds: nat -> bool)

  /** The calls made so far, and how many more process-list polls happen before the
      operator presses Ctrl+C (the only way the watch loop ends without an error). */
  datatype World = World(trace: seq<Call>, polls: nat)

  /** The world after one more call that uses no poll. */
  function Record(w: World, c: Call): World
  {
    World(w.trace + [c], w.polls)
  }

  class Os {
    const env: Env
    var trace: seq<Call>
    var polls: nat

    function State(): World
      reads this
    {
      World(trace, polls)
    }

    constructor (env: Env, polls: nat)
      ensures this.env == env && State() == World([], polls)
    {
      this.env := env;
      trace := [];
      this.polls := polls;
    }

    method EnumDisplaySettings(modeNum: int32) returns (r: Option<DevMode>)
      modifies this
      ensures r == env.currentSettings(|old(trace)|)
      ensures State() == Record(old(State()), EnumSettings(modeNum, r))
    {
      r := env.currentSettings(|trace|);
      trace := trace + [EnumSettings(modeNum, r)];
    }

    method ChangeDisplaySettings(dm: DevMode, flags: int32) returns (code: int32)
      modifies this
      ensures code == env.changeResult(|old(trace)|)
      ensures State() == Record(old(State()), ChangeSettings(dm, flags, code))
    {
      code := env.changeResult(|trace|);
      trace := trace + [ChangeSettings(dm, flags, code)];
    }

    /** None when the operator interrupts before this poll. */
    method GetProcesses() returns (names: Option<seq<string>>)
      modifies this
      ensures old(polls) == 0 ==> names == None && State() == old(State())
      ensures old(polls) > 0 ==>
                names == Some(env.processes(|old(trace)|)) &&
                State() == World(old(trace) + [ListProcesses(names.value)], old(polls) - 1)
    {
      if polls == 0 {
        return None;
      }
      names := Some(env.processes(|trace|));
      trace := trace + [ListProcesses(names.value)];
      polls := polls - 1;
    }

    method Start(path: string) returns (started: bool)
      modifies this
      ensures started == env.startSucceeds(|old(trace)|)
      ensures State() == Record(old(State()), StartProcess(path, started))
    {
      started := env.startSucceeds(|trace|);
      trace := trace + [StartProcess(path, started)];
    }

    method WaitForExit(path: string)
      modifies this
      ensures State() == Record(old(State()), AwaitExit(path))
    {
      trace := trace + [AwaitExit(path)];
    }
  }
}
