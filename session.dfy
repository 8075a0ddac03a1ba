/** `GetCurrentSettings`, `ChangeResolution` and `Main`. Each is a method over the
    operating-system boundary, proved against a function that gives, for any
    environment, the outcome and the calls the method makes. */
module Session {
  import opened Types
  import opened Display
  import opened Arguments
  import opened Processes
  import opened Win32

  /** The exceptions the `try` in `Main` catches and prints. */
  datatype Error =
    | QueryFailed               // "Unable to enumerate display settings."
    | ChangeFailed(code: int32) // the raw result of ChangeDisplaySettings
    | SpawnFailed(path: string) // Process.Start threw

  datatype Status = Done | Fail(error: Error)

  /** How a run of `Main` ends. */
  datatype Outcome =
    | Reported(width: int32, height: int32) // no arguments: current resolution and usage printed
    | Usage                                 // usage printed before any call
    | Unhandled(crash: Crash)               // unhandled exception from the argument loop
    | Finished                              // change (and restore) completed
    | Failed(error: Error)                  // exception caught and printed
    | Interrupted                           // Ctrl+C during the watch loop

  datatype Step<T> = Step(result: T, world: World)

  /** Which wait the watch loop is in: for the target to appear, or to disappear. */
  datatype Phase = AwaitStart | AwaitGone

  /** What the watch loop needs: the process name, the requested resolution and the
      resolution read once before the loop. */
  datatype Target = Target(name: string, width: int32, height: int32, originalWidth: int32, originalHeight: int32)

  // ----- GetCurrentSettings ---------------------------------------------------

  function QueryBehaviour(env: Env, w: World): Step<Option<DevMode>>
  {
    var r := env.currentSettings(|w.trace|);
    Step(r, Record(w, EnumSettings(EnumCurrentSettings, r)))
  }

  /** None stands for the exception thrown when the query fails. */
  method GetCurrentSettings(os: Os) returns (r: Option<DevMode>)
    modifies os
    ensures Step(r, os.State()) == QueryBehaviour(os.env, old(os.State()))
  {
    r := os.EnumDisplaySettings(EnumCurrentSettings);
  }

  // ----- ChangeResolution -----------------------------------------------------

  function ChangeBehaviour(env: Env, w: World, width: int32, height: int32): (s: Step<Status>)
    ensures s.world.polls == w.polls && w.trace < s.world.trace && |s.world.trace| <= |w.trace| + 2
  {
    var q := QueryBehaviour(env, w);
    if q.result.None? then Step(Fail(QueryFailed), q.world)
    else
      var submitted := WithResolution(q.result.value, width, height);
      var code := env.changeResult(|q.world.trace|);
      var status := if code != DispChangeSuccessful then Fail(ChangeFailed(code)) else Done;
      Step(status, Record(q.world, ChangeSettings(submitted, CdsUpdateRegistry, code)))
  }

  /** Fail stands for the exception thrown on a failed query or a non-zero result. */
  method ChangeResolution(os: Os, width: int32, height: int32) returns (status: Status)
    modifies os
    ensures Step(status, os.State()) == ChangeBehaviour(os.env, old(os.State()), width, height)
  {
    var dm := os.EnumDisplaySettings(EnumCurrentSettings);
    if dm.None? {
      return Fail(QueryFailed);
    }
    var submitted := WithResolution(dm.value, width, height);
    var result := os.ChangeDisplaySettings(submitted, CdsUpdateRegistry);
    if result != DispChangeSuccessful {
      return Fail(ChangeFailed(result));
    }
    return Done;
  }

  // ----- the watch loop of Main -----------------------------------------------

  /** From a point where the loop is about to poll in the given phase. */
  function WatchBehaviour(env: Env, t: Target, phase: Phase, w: World): (s: Step<Outcome>)
    ensures w.trace <= s.world.trace && s.world.polls <= w.polls
    decreases w.polls, 0
  {
    if w.polls == 0 then Step(Interrupted, w)
    else
      var names := env.processes(|w.trace|);
      var w' := World(w.trace + [ListProcesses(names)], w.polls - 1);
      AfterPoll(env, t, phase, IsProcessRunning(names, t.name), w')
  }

  /** From a point where the loop has just seen whether the target is running. */
  function AfterPoll(env: Env, t: Target, phase: Phase, running: bool, w: World): (s: Step<Outcome>)
    ensures w.trace <= s.world.trace && s.world.polls <= w.polls
    decreases w.polls, 1
  {
    if running != (phase == AwaitStart) then WatchBehaviour(env, t, phase, w)
    else
      var c := if phase == AwaitStart then ChangeBehaviour(env, w, t.width, t.height)
               else ChangeBehaviour(env, w, t.originalWidth, t.originalHeight);
      if c.result.Fail? then Step(Failed(c.result.error), c.world)
      else WatchBehaviour(env, t, if phase == AwaitStart then AwaitGone else AwaitStart, c.world)
  }

  /** The `while (true)` loop: wait for the target, change the resolution, wait for
      it to end, restore the width and height read before the loop, and again. */
  method WatchProgram(os: Os, t: Target) returns (outcome: Outcome)
    modifies os
    ensures Step(outcome, os.State()) == WatchBehaviour(os.env, t, AwaitStart, old(os.State()))
  {
    ghost var goal := WatchBehaviour(os.env, t, AwaitStart, os.State());
    while true
      invariant WatchBehaviour(os.env, t, AwaitStart, os.State()) == goal
      decreases os.polls
    {
      ghost var pollsBefore := os.polls;
      // Wait for the process to start
      var running := false;
      while !running
        invariant AfterPoll(os.env, t, AwaitStart, running, os.State()) == goal
        invariant os.polls <= pollsBefore && (running ==> os.polls < pollsBefore)
        decreases os.polls, if running then 0 else 1
      {
        var names := os.GetProcesses();
        if names.None? {
          return Interrupted;
        }
        running := IsProcessRunning(names.value, t.name);
      }
      var status := ChangeResolution(os, t.width, t.height);
      if status.Fail? {
        return Failed(status.error);
      }
      // Wait for the process to exit
      while running
        invariant AfterPoll(os.env, t, AwaitGone, running, os.State()) == goal
        invariant os.polls < pollsBefore
        decreases os.polls, if running then 1 else 0
      {
        var names := os.GetProcesses();
        if names.None? {
          return Interrupted;
        }
        running := IsProcessRunning(names.value, t.name);
      }
      status := ChangeResolution(os, t.originalWidth, t.originalHeight);
      if status.Fail? {
        return Failed(status.error);
      }
    }
  }

  // ----- Main -----------------------------------------------------------------

  /** Change the resolution, start the program, wait for it to exit, restore. */
  function LaunchBehaviour(env: Env, path: string, width: int32, height: int32, original: DevMode, w: World): (s: Step<Outcome>)
    ensures w.trace <= s.world.trace && s.world.polls <= w.polls
  {
    var c := ChangeBehaviour(env, w, width, height);
    if c.result.Fail? then Step(Failed(c.result.error), c.world)
    else RunAndRestoreBehaviour(env, path, original, c.world)
  }

  /** Start the program, wait for it to exit, restore the width and height read at the start. */
  function RunAndRestoreBehaviour(env: Env, path: string, original: DevMode, w: World): (s: Step<Outcome>)
    ensures w.trace <= s.world.trace && s.world.polls <= w.polls
  {
    var started := env.startSucceeds(|w.trace|);
    var w1 := Record(w, StartProcess(path, started));
    if !started then Step(Failed(SpawnFailed(path)), w1)
    else
      var w2 := Record(w1, AwaitExit(path));
      var r := ChangeBehaviour(env, w2, original.pelsWidth, original.pelsHeight);
      Step(if r.result.Fail? then Failed(r.result.error) else Finished, r.world)
  }

  /** The `try` block: read the current mode, then one of the three modes of operation. */
  function SessionBehaviour(env: Env, p: Params, w: World): (s: Step<Outcome>)
    ensures w.trace <= s.world.trace && s.world.polls <= w.polls
  {
    var q := QueryBehaviour(env, w);
    if q.result.None? then Step(Failed(QueryFailed), q.world)
    else
      var original := q.result.value;
      match p.programPath
      case Some(path) =>
        if p.waitForProgram then
          var t := Target(FileNameWithoutExtension(path), p.width, p.height, original.pelsWidth, original.pelsHeight);
          WatchBehaviour(env, t, AwaitStart, q.world)
        else LaunchBehaviour(env, path, p.width, p.height, original, q.world)
      case None =>
        var c := ChangeBehaviour(env, q.world, p.width, p.height);
        Step(if c.result.Fail? then Failed(c.result.error) else Finished, c.world)
  }

  function MainBehaviour(env: Env, args: seq<string>, w: World): (s: Step<Outcome>)
    ensures w.trace <= s.world.trace && s.world.polls <= w.polls
  {
    if |args| == 0 then
      var q := QueryBehaviour(env, w);
      match q.result
      case None => Step(Failed(QueryFailed), q.world)
      case Some(dm) => Step(Reported(dm.pelsWidth, dm.pelsHeight), q.world)
    else
      match Parse(args)
      case Unrecognised(_) => Step(Usage, w)
      case Crashed(c) => Step(Unhandled(c), w)
      case Parsed(p) =>
        if p.width == 0 || p.height == 0 then Step(Usage, w)
        else SessionBehaviour(env, p, w)
  }

  /** The program's entry point, from the arguments to the end of the run. */
  method Execute(os: Os, args: seq<string>) returns (outcome: Outcome)
    modifies os
    ensures Step(outcome, os.State()) == MainBehaviour(os.env, args, old(os.State()))
  {
    if |args| == 0 {
      var current := GetCurrentSettings(os);
      if current.None? {
        return Failed(QueryFailed);
      }
      return Reported(current.value.pelsWidth, current.value.pelsHeight);
    }

    var parsed := ParseArguments(args);
    if parsed.Unrecognised? {
      return Usage;
    } else if parsed.Crashed? {
      return Unhandled(parsed.crash);
    }
    var p := parsed.params;
    if p.width == 0 || p.height == 0 {
      return Usage;
    }

    var currentSettings := GetCurrentSettings(os);
    if currentSettings.None? {
      return Failed(QueryFailed);
    }
    var original := currentSettings.value;
    if p.waitForProgram && p.programPath.Some? {
      var processName := FileNameWithoutExtension(p.programPath.value);
      outcome := WatchProgram(os, Target(processName, p.width, p.height, original.pelsWidth, original.pelsHeight));
    } else if p.programPath.Some? {
      var path := p.programPath.value;
      var status := ChangeResolution(os, p.width, p.height);
      if status.Fail? {
        return Failed(status.error);
      }
      var started := os.Start(path);
      if !started {
        return Failed(SpawnFailed(path));
      }
      os.WaitForExit(path);
      status := ChangeResolution(os, original.pelsWidth, original.pelsHeight);
      outcome := if status.Fail? then Failed(status.error) else Finished;
    } else {
      var status := ChangeResolution(os, p.width, p.height);
      outcome := if status.Fail? then Failed(status.error) else Finished;
    }
  }
}
