/** What a run of `Main` does, stated over the calls it makes: failures end the
    run, every change request is the record just read with the resolution replaced,
    the three modes make the calls they promise in order, and the watch loop
    alternates change and restore, each following the observation that calls for it. */
module SessionProperties {
  import opened Types
  import opened Display
  import opened Arguments
  import opened Processes
  import opened Win32
  import opened Session

  // ----- views of a trace -----------------------------------------------------

  /** The calls a step appended to the trace. */
  function Added(before: World, after: World): seq<Call>
    requires before.trace <= after.trace
  {
    after.trace[|before.trace|..]
  }

  lemma AddedSplit(a: World, b: World, c: World)
    requires a.trace <= b.trace <= c.trace
    ensures Added(a, c) == Added(a, b) + Added(b, c)
  {
  }

  /** The error a call reports, if it failed. */
  function FailureOf(c: Call): Option<Error>
  {
    match c
    case EnumSettings(_, result) => if result.None? then Some(QueryFailed) else None
    case ChangeSettings(_, _, code) => if code != DispChangeSuccessful then Some(ChangeFailed(code)) else None
    case StartProcess(path, started) => if started then None else Some(SpawnFailed(path))
    case _ => None
  }

  predicate NoFailures(calls: seq<Call>)
  {
    forall i | 0 <= i < |calls| :: FailureOf(calls[i]).None?
  }

  /** No call but the last failed, and the run ends Failed exactly when the last call
      failed, with that call's error (the raw code for a rejected change). */
  predicate StopsAtFailure(calls: seq<Call>, outcome: Outcome)
  {
    (forall i | 0 <= i < |calls| - 1 :: FailureOf(calls[i]).None?) &&
    (outcome.Failed? <==> calls != [] && FailureOf(calls[|calls| - 1]).Some?) &&
    (outcome.Failed? ==> FailureOf(calls[|calls| - 1]) == Some(outcome.error))
  }

  /** Each change request comes straight after a successful query, submits that
      record changed only in width, height and mask, and asks for a persistent change. */
  predicate ChangesFollowQueries(calls: seq<Call>)
  {
    forall i | 0 <= i < |calls| && calls[i].ChangeSettings? ::
      0 < i && calls[i - 1].EnumSettings? && calls[i - 1].result.Some? &&
      SameOutsideResolution(calls[i - 1].result.value, calls[i].submitted) &&
      calls[i].submitted.fields == PelsFieldsMask &&
      calls[i].flags == CdsUpdateRegistry
  }

  predicate WellFormed(calls: seq<Call>, outcome: Outcome)
  {
    StopsAtFailure(calls, outcome) && ChangesFollowQueries(calls)
  }

  lemma WellFormedAppend(a: seq<Call>, b: seq<Call>, outcome: Outcome)
    requires NoFailures(a) && ChangesFollowQueries(a)
    requires WellFormed(b, outcome)
    ensures WellFormed(a + b, outcome)
  {
    if b == [] {
      assert a + b == a;
    }
    forall i | 0 <= i < |a + b| && (a + b)[i].ChangeSettings?
      ensures 0 < i && (a + b)[i - 1].EnumSettings? && (a + b)[i - 1].result.Some?
    {
      if i >= |a| {
        assert (a + b)[i] == b[i - |a|];
      }
    }
  }

  /** What the display-mode, process and launch calls of a trace amount to. */
  datatype Effect =
    | Observed(names: seq<string>)
    | Applied(width: int32, height: int32)
    | Launched(path: string)
    | Awaited(path: string)

  function EffectOf(c: Call): seq<Effect>
  {
    match c
    case EnumSettings(_, _) => []
    case ChangeSettings(dm, _, _) => [Applied(dm.pelsWidth, dm.pelsHeight)]
    case ListProcesses(names) => [Observed(names)]
    case StartProcess(path, _) => [Launched(path)]
    case AwaitExit(path) => [Awaited(path)]
  }

  function Effects(calls: seq<Call>): seq<Effect>
  {
    if calls == [] then [] else EffectOf(calls[0]) + Effects(calls[1..])
  }

  lemma {:induction false} EffectsAppend(a: seq<Call>, b: seq<Call>)
    ensures Effects(a + b) == Effects(a) + Effects(b)
  {
    if a == [] {
      assert a + b == b;
    } else {
      assert (a + b)[1..] == a[1..] + b;
      EffectsAppend(a[1..], b);
    }
  }

  lemma EffectsSingleton(c: Call)
    ensures Effects([c]) == EffectOf(c)
  {
    assert [c][1..] == [];
  }

  // ----- ChangeResolution -----------------------------------------------------

  /** `ChangeResolution` queries once; when the query fails it stops there with the
      query error and never calls the change API; otherwise it submits the queried
      record with only the width, height and mask replaced, and succeeds exactly when
      the result code is 0, failing with that code otherwise. */
  lemma ChangeResolutionCalls(env: Env, w: World, width: int32, height: int32)
    ensures var s := ChangeBehaviour(env, w, width, height);
            var calls := Added(w, s.world);
            var q := env.currentSettings(|w.trace|);
            calls[0] == EnumSettings(EnumCurrentSettings, q) &&
            (q.None? ==> calls == [calls[0]] && s.result == Fail(QueryFailed)) &&
            (q.Some? ==>
               |calls| == 2 && calls[1].ChangeSettings? &&
               SameOutsideResolution(q.value, calls[1].submitted) &&
               calls[1].submitted.pelsWidth == width && calls[1].submitted.pelsHeight == height &&
               calls[1].submitted.fields == PelsFieldsMask &&
               calls[1].flags == CdsUpdateRegistry &&
               (s.result == Done <==> calls[1].code == 0) &&
               (s.result.Fail? ==> s.result.error == ChangeFailed(calls[1].code)))
  {
  }

  /** The facts about one `ChangeResolution` the session lemmas build on. */
  lemma ChangeSteps(env: Env, w: World, width: int32, height: int32)
    ensures var s := ChangeBehaviour(env, w, width, height);
            var calls := Added(w, s.world);
            var o := if s.result.Fail? then Failed(s.result.error) else Finished;
            WellFormed(calls, o) &&
            (s.result.Done? ==> NoFailures(calls))
  {
  }

  lemma ChangeEffects(env: Env, w: World, width: int32, height: int32)
    ensures var s := ChangeBehaviour(env, w, width, height);
            var calls := Added(w, s.world);
            (Effects(calls) == [] || Effects(calls) == [Applied(width, height)]) &&
            (s.result.Done? ==> Effects(calls) == [Applied(width, height)])
  {
    var s := ChangeBehaviour(env, w, width, height);
    var calls := Added(w, s.world);
    EffectsSingleton(calls[0]);
    if |calls| == 2 {
      assert calls == [calls[0]] + [calls[1]];
      EffectsSingleton(calls[1]);
      EffectsAppend([calls[0]], [calls[1]]);
    }
  }

  // ----- the watch loop -------------------------------------------------------

  /** The watch loop ends only by failure or by the operator once the polls are used
      up, and is well formed. */
  lemma {:induction false} WatchWellFormed(env: Env, t: Target, phase: Phase, w: World)
    ensures var s := WatchBehaviour(env, t, phase, w);
            WellFormed(Added(w, s.world), s.result) && (s.result.Failed? || s.result == Interrupted) &&
            (s.result == Interrupted ==> s.world.polls == 0)
    decreases w.polls, 0
  {
    if w.polls > 0 {
      var s := WatchBehaviour(env, t, phase, w);
      var names := env.processes(|w.trace|);
      var w' := World(w.trace + [ListProcesses(names)], w.polls - 1);
      AfterPollWellFormed(env, t, phase, IsProcessRunning(names, t.name), w');
      AddedSplit(w, w', s.world);
      assert Added(w, w') == [ListProcesses(names)];
      WellFormedAppend(Added(w, w'), Added(w', s.world), s.result);
    }
  }

  lemma {:induction false} AfterPollWellFormed(env: Env, t: Target, phase: Phase, running: bool, w: World)
    ensures var s := AfterPoll(env, t, phase, running, w);
            WellFormed(Added(w, s.world), s.result) && (s.result.Failed? || s.result == Interrupted) &&
            (s.result == Interrupted ==> s.world.polls == 0)
    decreases w.polls, 1
  {
    if running != (phase == AwaitStart) {
      WatchWellFormed(env, t, phase, w);
    } else {
      var width := if phase == AwaitStart then t.width else t.originalWidth;
      var height := if phase == AwaitStart then t.height else t.originalHeight;
      var c := ChangeBehaviour(env, w, width, height);
      ChangeSteps(env, w, width, height);
      if c.result.Done? {
        var next := if phase == AwaitStart then AwaitGone else AwaitStart;
        var s := WatchBehaviour(env, t, next, c.world);
        WatchWellFormed(env, t, next, c.world);
        AddedSplit(w, c.world, s.world);
        WellFormedAppend(Added(w, c.world), Added(c.world, s.world), s.result);
      }
    }
  }

  predicate Even(n: nat)
  {
    n % 2 == 0
  }

  /** How many change requests a sequence of effects holds. */
  function Applies(v: seq<Effect>): nat
  {
    if v == [] then 0 else Applies(v[..|v| - 1]) + (if v[|v| - 1].Applied? then 1 else 0)
  }

  /** Effect i of a watch session is an observation, or a change request that follows
      an observation: an even-numbered one (a change) follows a sighting of the target
      and asks for the requested resolution, an odd-numbered one (a restore) follows
      its absence and asks for the resolution read before the loop. */
  predicate AsWatched(v: seq<Effect>, i: nat, t: Target)
    requires i < |v|
  {
    v[i].Observed? ||
    (v[i].Applied? && 0 < i && v[i - 1].Observed? &&
     var restoring := !Even(Applies(v[..i]));
     IsProcessRunning(v[i - 1].names, t.name) == !restoring &&
     v[i] == if restoring then Applied(t.originalWidth, t.originalHeight) else Applied(t.width, t.height))
  }

  /** Every effect is as the watch loop allows (checked from the last one back). */
  predicate Alternates(v: seq<Effect>, t: Target)
  {
    v == [] || (Alternates(v[..|v| - 1], t) && AsWatched(v, |v| - 1, t))
  }

  /** The observation at i calls for action: it sees the target while a change is
      due (an even number of change requests so far), or misses it while a restore is due. */
  predicate ActsOn(v: seq<Effect>, i: nat, t: Target)
    requires i < |v| && v[i].Observed?
  {
    IsProcessRunning(v[i].names, t.name) == Even(Applies(v[..i]))
  }

  /** Every observation that calls for action, except perhaps the last, is followed
      by a change request. */
  predicate Answers(v: seq<Effect>, t: Target)
  {
    forall i | 0 <= i < |v| - 1 && v[i].Observed? && ActsOn(v, i, t) :: v[i + 1].Applied?
  }

  /** The last effect is not an observation still waiting for its action. */
  predicate Settled(v: seq<Effect>, t: Target)
  {
    v == [] || !v[|v| - 1].Observed? || !ActsOn(v, |v| - 1, t)
  }

  /** The observation at i, if it calls for action, is followed by the change
      request, or is the last effect of a run that failed (the query for the change
      was refused). */
  predicate Answered(v: seq<Effect>, i: nat, t: Target, outcome: Outcome)
    requires i < |v|
  {
    v[i].Observed? && ActsOn(v, i, t) ==>
      (i + 1 < |v| && v[i + 1].Applied?) || (i + 1 == |v| && outcome.Failed?)
  }

  lemma AnswersSnoc(v: seq<Effect>, e: Effect, t: Target)
    requires Answers(v, t) && (Settled(v, t) || e.Applied?)
    ensures Answers(v + [e], t)
  {
    var u := v + [e];
    forall i | 0 <= i < |u| - 1 && u[i].Observed? && ActsOn(u, i, t)
      ensures u[i + 1].Applied?
    {
      assert u[..i] == v[..i] && u[i] == v[i];
      assert ActsOn(v, i, t);
      if i < |v| - 1 {
        assert u[i + 1] == v[i + 1];
      }
    }
  }

  lemma {:induction false} AlternatesAt(v: seq<Effect>, t: Target, i: nat)
    requires Alternates(v, t) && i < |v|
    ensures AsWatched(v, i, t)
  {
    if i < |v| - 1 {
      var u := v[..|v| - 1];
      AlternatesAt(u, t, i);
      assert u[..i] == v[..i];
      assert u[i] == v[i];
      if 0 < i {
        assert u[i - 1] == v[i - 1];
      }
    }
  }

  lemma AlternatesSnoc(v: seq<Effect>, e: Effect, t: Target)
    requires Alternates(v, t)
    requires e.Observed? || (|v| > 0 && AsWatched(v + [e], |v|, t))
    ensures Alternates(v + [e], t)
    ensures Applies(v + [e]) == Applies(v) + (if e.Applied? then 1 else 0)
  {
    assert (v + [e])[..|v|] == v;
  }

  /** The loop keeps the alternation, from any history whose number of change
      requests matches the phase: every change request follows the observation that
      calls for it, and every observation that calls for a change request is followed
      by one, unless the run fails right there. */
  lemma {:induction false} WatchAlternation(env: Env, t: Target, phase: Phase, w: World, v: seq<Effect>)
    requires Alternates(v, t) && (Even(Applies(v)) <==> phase == AwaitStart)
    requires Answers(v, t) && Settled(v, t)
    ensures var s := WatchBehaviour(env, t, phase, w);
            var u := v + Effects(Added(w, s.world));
            Alternates(u, t) && Answers(u, t) && (Settled(u, t) || s.result.Failed?)
    decreases w.polls, 0
  {
    var s := WatchBehaviour(env, t, phase, w);
    if w.polls == 0 {
      assert v + Effects(Added(w, s.world)) == v;
    } else {
      var names := env.processes(|w.trace|);
      var w' := World(w.trace + [ListProcesses(names)], w.polls - 1);
      var v' := v + [Observed(names)];
      AlternatesSnoc(v, Observed(names), t);
      AnswersSnoc(v, Observed(names), t);
      var running := IsProcessRunning(names, t.name);
      assert s == AfterPoll(env, t, phase, running, w');
      AfterPollAlternation(env, t, phase, running, w', v');
      assert Added(w, w') == [ListProcesses(names)];
      EffectsSingleton(ListProcesses(names));
      ExtendView(v, Observed(names), w, w', s.world);
    }
  }

  lemma {:induction false} AfterPollAlternation(env: Env, t: Target, phase: Phase, running: bool, w: World, v: seq<Effect>)
    requires Alternates(v, t) && (Even(Applies(v)) <==> phase == AwaitStart)
    requires v != [] && v[|v| - 1].Observed? && IsProcessRunning(v[|v| - 1].names, t.name) == running
    requires Answers(v, t)
    ensures var s := AfterPoll(env, t, phase, running, w);
            var u := v + Effects(Added(w, s.world));
            Alternates(u, t) && Answers(u, t) && (Settled(u, t) || s.result.Failed?)
    decreases w.polls, 3
  {
    if running != (phase == AwaitStart) {
      assert Applies(v) == Applies(v[..|v| - 1]);
      assert !ActsOn(v, |v| - 1, t);
      WatchAlternation(env, t, phase, w, v);
    } else {
      ActAlternation(env, t, phase, w, v);
    }
  }

  /** An observation that calls for action is answered by the change request. */
  lemma {:induction false} ActAlternation(env: Env, t: Target, phase: Phase, w: World, v: seq<Effect>)
    requires Alternates(v, t) && (Even(Applies(v)) <==> phase == AwaitStart)
    requires v != [] && v[|v| - 1].Observed?
    requires IsProcessRunning(v[|v| - 1].names, t.name) == (phase == AwaitStart)
    requires Answers(v, t)
    ensures var s := AfterPoll(env, t, phase, phase == AwaitStart, w);
            var u := v + Effects(Added(w, s.world));
            Alternates(u, t) && Answers(u, t) && (Settled(u, t) || s.result.Failed?)
    decreases w.polls, 2
  {
    var s := AfterPoll(env, t, phase, phase == AwaitStart, w);
    var width := if phase == AwaitStart then t.width else t.originalWidth;
    var height := if phase == AwaitStart then t.height else t.originalHeight;
    var c := ChangeBehaviour(env, w, width, height);
    ChangeEffects(env, w, width, height);
    var e := Applied(width, height);
    AnswerStep(v, t, phase, e);
    if c.result.Fail? {
      assert s.world == c.world && s.result.Failed?;
      var u := v + Effects(Added(w, s.world));
      assert u == v || u == v + [e];
    } else {
      var next := if phase == AwaitStart then AwaitGone else AwaitStart;
      assert s == WatchBehaviour(env, t, next, c.world);
      ResumeAlternation(env, t, next, w, c.world, v, e);
    }
  }

  /** The change request the observation calls for extends the history in step. */
  lemma AnswerStep(v: seq<Effect>, t: Target, phase: Phase, e: Effect)
    requires Alternates(v, t) && (Even(Applies(v)) <==> phase == AwaitStart)
    requires v != [] && v[|v| - 1].Observed?
    requires IsProcessRunning(v[|v| - 1].names, t.name) == (phase == AwaitStart)
    requires Answers(v, t)
    requires e == if phase == AwaitStart then Applied(t.width, t.height)
                  else Applied(t.originalWidth, t.originalHeight)
    ensures Alternates(v + [e], t) && Answers(v + [e], t)
    ensures Even(Applies(v + [e])) <==> phase == AwaitGone
  {
    assert AsWatched(v + [e], |v|, t) by {
      assert (v + [e])[..|v|] == v;
      assert (v + [e])[|v| - 1] == v[|v| - 1];
    }
    AlternatesSnoc(v, e, t);
    AnswersSnoc(v, e, t);
  }

  /** After a successful change or restore the loop goes on in the other phase. */
  lemma {:induction false} ResumeAlternation(env: Env, t: Target, next: Phase, w: World, w': World, v: seq<Effect>, e: Effect)
    requires w.trace <= w'.trace && w'.polls == w.polls && Effects(Added(w, w')) == [e]
    requires Alternates(v + [e], t) && (Even(Applies(v + [e])) <==> next == AwaitStart)
    requires Answers(v + [e], t) && e.Applied?
    ensures var s := WatchBehaviour(env, t, next, w');
            var u := v + Effects(Added(w, s.world));
            Alternates(u, t) && Answers(u, t) && (Settled(u, t) || s.result.Failed?)
    decreases w'.polls, 1
  {
    var s := WatchBehaviour(env, t, next, w');
    WatchAlternation(env, t, next, w', v + [e]);
    ExtendView(v, e, w, w', s.world);
  }

  lemma ExtendView(v: seq<Effect>, e: Effect, a: World, b: World, c: World)
    requires a.trace <= b.trace <= c.trace && Effects(Added(a, b)) == [e]
    ensures v + Effects(Added(a, c)) == (v + [e]) + Effects(Added(b, c))
  {
    AddedSplit(a, b, c);
    EffectsAppend(Added(a, b), Added(b, c));
  }

  // ----- Main -----------------------------------------------------------------

  /** Any run: nothing is called after a failed call, a failure is what the run
      reports, and every change request updates the record just read. */
  lemma RunWellFormed(env: Env, args: seq<string>, w: World)
    ensures var s := MainBehaviour(env, args, w);
            w.trace <= s.world.trace && WellFormed(Added(w, s.world), s.result)
  {
    var s := MainBehaviour(env, args, w);
    if |args| > 0 && Parse(args).Parsed? {
      var p := Parse(args).params;
      if p.width != 0 && p.height != 0 {
        SessionWellFormed(env, p, w);
      }
    }
  }

  lemma SessionWellFormed(env: Env, p: Params, w: World)
    ensures var s := SessionBehaviour(env, p, w);
            w.trace <= s.world.trace && WellFormed(Added(w, s.world), s.result)
  {
    var s := SessionBehaviour(env, p, w);
    var q := QueryBehaviour(env, w);
    if q.result.Some? {
      var original := q.result.value;
      var rest: seq<Call>;
      if p.programPath.Some? && p.waitForProgram {
        var t := Target(FileNameWithoutExtension(p.programPath.value), p.width, p.height, original.pelsWidth, original.pelsHeight);
        WatchWellFormed(env, t, AwaitStart, q.world);
      } else if p.programPath.Some? {
        LaunchWellFormed(env, p.programPath.value, p.width, p.height, original, q.world);
      } else {
        ChangeSteps(env, q.world, p.width, p.height);
      }
      AddedSplit(w, q.world, s.world);
      assert Added(w, q.world) == [EnumSettings(EnumCurrentSettings, q.result)];
      WellFormedAppend(Added(w, q.world), Added(q.world, s.world), s.result);
    }
  }

  lemma LaunchWellFormed(env: Env, path: string, width: int32, height: int32, original: DevMode, w: World)
    ensures var s := LaunchBehaviour(env, path, width, height, original, w);
            w.trace <= s.world.trace && WellFormed(Added(w, s.world), s.result)
  {
    var s := LaunchBehaviour(env, path, width, height, original, w);
    var c := ChangeBehaviour(env, w, width, height);
    ChangeSteps(env, w, width, height);
    if c.result.Done? {
      RunAndRestoreWellFormed(env, path, original, c.world);
      AddedSplit(w, c.world, s.world);
      WellFormedAppend(Added(w, c.world), Added(c.world, s.world), s.result);
    }
  }

  lemma RunAndRestoreWellFormed(env: Env, path: string, original: DevMode, w: World)
    ensures var s := RunAndRestoreBehaviour(env, path, original, w);
            w.trace <= s.world.trace && WellFormed(Added(w, s.world), s.result)
  {
    var s := RunAndRestoreBehaviour(env, path, original, w);
    var started := env.startSucceeds(|w.trace|);
    var w1 := Record(w, StartProcess(path, started));
    if started {
      var w2 := Record(w1, AwaitExit(path));
      ChangeSteps(env, w2, original.pelsWidth, original.pelsHeight);
      assert Added(w, w2) == [StartProcess(path, started), AwaitExit(path)];
      AddedSplit(w, w2, s.world);
      WellFormedAppend(Added(w, w2), Added(w2, s.world), s.result);
    } else {
      assert Added(w, s.world) == [StartProcess(path, started)];
    }
  }

  // ----- the modes of operation -----------------------------------------------

  /** Without arguments the program reads the mode once and changes nothing. */
  lemma NoArgumentsOnlyQueries(env: Env, w: World)
    ensures var s := MainBehaviour(env, [], w);
            var calls := Added(w, s.world);
            |calls| == 1 && calls[0].EnumSettings? && Effects(calls) == [] &&
            (s.result.Reported? <==> calls[0].result.Some?) &&
            (s.result.Reported? ==>
               s.result.width == calls[0].result.value.pelsWidth &&
               s.result.height == calls[0].result.value.pelsHeight) &&
            (!s.result.Reported? ==> s.result == Failed(QueryFailed))
  {
    var s := MainBehaviour(env, [], w);
    EffectsSingleton(Added(w, s.world)[0]);
  }

  /** With arguments, nothing reaches the system unless they scan completely and
      give a non-zero width and height; negative values pass that test. */
  lemma ArgumentsGateCalls(env: Env, args: seq<string>, w: World)
    requires args != []
    ensures var s := MainBehaviour(env, args, w);
            match Parse(args)
            case Unrecognised(_) => s == Step(Usage, w)
            case Crashed(c) => s == Step(Unhandled(c), w)
            case Parsed(p) =>
              if p.width == 0 || p.height == 0 then s == Step(Usage, w)
              else w.trace < s.world.trace && s.world.trace[|w.trace|].EnumSettings?
  {
    var s := MainBehaviour(env, args, w);
    if Parse(args).Parsed? {
      var p := Parse(args).params;
      if p.width != 0 && p.height != 0 {
        SessionWellFormed(env, p, w);
        var q := QueryBehaviour(env, w);
        assert s.world.trace[|w.trace|] == q.world.trace[|w.trace|] by {
          SessionExtends(env, p, w);
        }
      }
    }
  }

  /** The session appends to what was there, starting with the query of line 144. */
  lemma SessionExtends(env: Env, p: Params, w: World)
    ensures var s := SessionBehaviour(env, p, w);
            QueryBehaviour(env, w).world.trace <= s.world.trace
  {
  }

  /** Without `-p` the run reads the mode and makes one change request, for the
      requested resolution, and no restore; `-w` makes no difference then. */
  lemma NoProgramChangesOnce(env: Env, p: Params, w: World)
    requires p.programPath.None?
    ensures SessionBehaviour(env, p, w) == SessionBehaviour(env, p.(waitForProgram := !p.waitForProgram), w)
    ensures var s := SessionBehaviour(env, p, w);
            var calls := Added(w, s.world);
            calls[0].EnumSettings? &&
            Effects(calls) <= [Applied(p.width, p.height)] &&
            (s.result.Finished? || s.result.Failed?) &&
            (s.result.Finished? ==> Effects(calls) == [Applied(p.width, p.height)])
  {
    var s := SessionBehaviour(env, p, w);
    var q := QueryBehaviour(env, w);
    if q.result.Some? {
      ChangeEffects(env, q.world, p.width, p.height);
      AddedSplit(w, q.world, s.world);
      assert Added(w, q.world) == [EnumSettings(EnumCurrentSettings, q.result)];
      EffectsSingleton(EnumSettings(EnumCurrentSettings, q.result));
      EffectsAppend(Added(w, q.world), Added(q.world, s.world));
    } else {
      EffectsSingleton(EnumSettings(EnumCurrentSettings, q.result));
    }
  }

  /** With `-p` and no `-w`: change to the requested resolution, start the program,
      wait for it to exit, then restore the width and height read at the start, in
      that order; a failure cuts the sequence short. */
  lemma LaunchOrder(env: Env, p: Params, w: World)
    requires p.programPath.Some? && !p.waitForProgram
    ensures var s := SessionBehaviour(env, p, w);
            var calls := Added(w, s.world);
            var path := p.programPath.value;
            calls[0].EnumSettings? &&
            (s.result.Finished? || s.result.Failed?) &&
            (calls[0].result.Some? ==>
               var original := calls[0].result.value;
               var expected := [Applied(p.width, p.height), Launched(path), Awaited(path),
                                Applied(original.pelsWidth, original.pelsHeight)];
               Effects(calls) <= expected &&
               (s.result.Finished? ==> Effects(calls) == expected))
  {
    var s := SessionBehaviour(env, p, w);
    var q := QueryBehaviour(env, w);
    var path := p.programPath.value;
    EffectsSingleton(EnumSettings(EnumCurrentSettings, q.result));
    assert Added(w, q.world) == [EnumSettings(EnumCurrentSettings, q.result)];
    if q.result.Some? {
      var original := q.result.value;
      LaunchEffects(env, path, p.width, p.height, original, q.world);
      AddedSplit(w, q.world, s.world);
      EffectsAppend(Added(w, q.world), Added(q.world, s.world));
    }
  }

  lemma LaunchEffects(env: Env, path: string, width: int32, height: int32, original: DevMode, w: World)
    ensures var s := LaunchBehaviour(env, path, width, height, original, w);
            var expected := [Applied(width, height), Launched(path), Awaited(path),
                             Applied(original.pelsWidth, original.pelsHeight)];
            w.trace <= s.world.trace &&
            Effects(Added(w, s.world)) <= expected &&
            (s.result.Finished? || s.result.Failed?) &&
            (s.result.Finished? ==> Effects(Added(w, s.world)) == expected)
  {
    var s := LaunchBehaviour(env, path, width, height, original, w);
    var expected := [Applied(width, height), Launched(path), Awaited(path),
                     Applied(original.pelsWidth, original.pelsHeight)];
    var c := ChangeBehaviour(env, w, width, height);
    ChangeEffects(env, w, width, height);
    if c.result.Done? {
      RunAndRestoreEffects(env, path, original, c.world);
      AddedSplit(w, c.world, s.world);
      EffectsAppend(Added(w, c.world), Added(c.world, s.world));
    }
  }

  lemma RunAndRestoreEffects(env: Env, path: string, original: DevMode, w: World)
    ensures var s := RunAndRestoreBehaviour(env, path, original, w);
            var expected := [Launched(path), Awaited(path), Applied(original.pelsWidth, original.pelsHeight)];
            w.trace <= s.world.trace &&
            Effects(Added(w, s.world)) <= expected &&
            (s.result.Finished? || s.result.Failed?) &&
            (s.result.Finished? ==> Effects(Added(w, s.world)) == expected)
  {
    var s := RunAndRestoreBehaviour(env, path, original, w);
    var started := env.startSucceeds(|w.trace|);
    var w1 := Record(w, StartProcess(path, started));
    EffectsSingleton(StartProcess(path, started));
    assert Added(w, w1) == [StartProcess(path, started)];
    if started {
      var w2 := Record(w1, AwaitExit(path));
      EffectsSingleton(AwaitExit(path));
      assert Added(w, w2) == [StartProcess(path, started), AwaitExit(path)];
      EffectsAppend([StartProcess(path, started)], [AwaitExit(path)]);
      ChangeEffects(env, w2, original.pelsWidth, original.pelsHeight);
      AddedSplit(w, w2, s.world);
      EffectsAppend(Added(w, w2), Added(w2, s.world));
    }
  }

  /** With `-p` and `-w`: after the query of line 144, the run holds only process
      polls and change requests; each change request follows a poll, the even-numbered
      ones (changes) a poll that saw the target and for the requested resolution, the
      odd-numbered ones (restores) a poll that no longer saw it and for the width and
      height that query returned, however many times the target comes and goes; and
      each observation that calls for a change or a restore is followed by its change
      request, unless the run fails right there. Only a failure, or the operator once
      the polls are used up, ends it. */
  lemma WatchAlternates(env: Env, p: Params, w: World)
    requires p.programPath.Some? && p.waitForProgram
    ensures var s := SessionBehaviour(env, p, w);
            var calls := Added(w, s.world);
            calls[0].EnumSettings? &&
            (s.result.Failed? || s.result == Interrupted) &&
            (s.result == Interrupted ==> s.world.polls == 0) &&
            (calls[0].result.Some? ==>
               var original := calls[0].result.value;
               var t := Target(FileNameWithoutExtension(p.programPath.value), p.width, p.height,
                               original.pelsWidth, original.pelsHeight);
               var v := Effects(calls);
               forall i | 0 <= i < |v| :: AsWatched(v, i, t) && Answered(v, i, t, s.result))
  {
    var s := SessionBehaviour(env, p, w);
    var q := QueryBehaviour(env, w);
    EffectsSingleton(EnumSettings(EnumCurrentSettings, q.result));
    assert Added(w, q.world) == [EnumSettings(EnumCurrentSettings, q.result)];
    if q.result.Some? {
      var original := q.result.value;
      var t := Target(FileNameWithoutExtension(p.programPath.value), p.width, p.height,
                      original.pelsWidth, original.pelsHeight);
      WatchWellFormed(env, t, AwaitStart, q.world);
      WatchAlternation(env, t, AwaitStart, q.world, []);
      AddedSplit(w, q.world, s.world);
      EffectsAppend(Added(w, q.world), Added(q.world, s.world));
      var v := Effects(Added(w, s.world));
      assert v == [] + Effects(Added(q.world, s.world));
      forall i | 0 <= i < |v|
        ensures AsWatched(v, i, t) && Answered(v, i, t, s.result)
      {
        AlternatesAt(v, t, i);
      }
    }
  }
}
