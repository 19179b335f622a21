/** What every run of the calibration runner keeps: the gain maps, the key,
    the end of the run and the closed loop with the actuators. */
module RunnerProofs {
  import opened Prelude
  import opened StepTest
  import opened Runner
  import F = Fopdt
  import Loop = StepLoop
  import Trace = StepTrace
  import Ending = StepTermination

  // ---- One sample: what may be fitted, and when ----

  /** A key is frozen before any device is stepped. */
  predicate Keyed(st: State) {
    && (!st.initialized ==> st.key.None? && (st.sub == Settle || st.sub == Done))
    && (st.sub == CpuStep || st.sub == RecoverGpu || st.sub == GpuStep ==> st.key.Some?)
  }

  predicate OnCpu(st: State) {
    st.sub == Settle || st.sub == CpuStep
  }

  /** Only the third effect of a batch can be a fit. */
  predicate FitsThirdOnly(effects: seq<Effect>) {
    forall i :: 0 <= i < |effects| && i != 2 ==> !effects[i].Fitted?
  }

  predicate HasFit(effects: seq<Effect>) {
    |effects| > 2 && effects[2].Fitted?
  }

  predicate Moves(st: State, out: Outcome) {
    && Keyed(out.0)
    && (st.key.Some? ==> out.0.key == st.key)
    && (OnCpu(out.0) ==> OnCpu(st))
    && FitsThirdOnly(out.1)
    && (HasFit(out.1) ==>
          && out.0.key.Some?
          && match out.1[2].device
             case Cpu => OnCpu(st) && !OnCpu(out.0) && out.0.sub != Done
             case Gpu => out.0.sub == Done)
  }

  lemma {:induction false} AbortMoves(st: State)
    requires Keyed(st)
    ensures Moves(st, Abort(st))
  {
  }

  lemma {:induction false} ConcludeKind(fit: Fitter, st: State, device: Device)
    ensures var e := Conclude(fit, st, device); e == Noted || (e.Fitted? && e.device == device)
  {
  }

  lemma {:induction false} FinishMoves(st: State, now: real, device: Device, e: Effect)
    requires Keyed(st) && st.sub == Trace.StepOf(device) && (e == Noted || (e.Fitted? && e.device == device))
    ensures Moves(st, Finish(st, now, device, e))
  {
    hide ObserveAll;
  }

  lemma {:induction false} ResponseMoves(fit: Fitter, st: State, now: real, ctx: Context, device: Device)
    requires Keyed(st) && st.sub == Trace.StepOf(device)
    ensures Moves(st, OnResponse(fit, st, now, ctx, device))
  {
    hide Conclude, Finish, Abort, StepHeld, GroupOf, NoteApplied;
    var st' := NoteApplied(st, now, ctx, device);
    AppliedMoves(st, now, ctx, device);
    AbortMoves(st');
    FinishMoves(st', now, device, Noted);
    if GroupOf(ctx, device).Some? {
      var t := now - OrElse(st'.commandedAt, now);
      var recorded := Trace.Extended(st, Input(Sample(Finite(now), None, None, None, None), ctx), device);
      ConcludeKind(fit, recorded, device);
      FinishMoves(recorded, now, device, Conclude(fit, recorded, device));
    }
  }

  lemma {:induction false} AppliedMoves(st: State, now: real, ctx: Context, device: Device)
    requires Keyed(st)
    ensures var st' := NoteApplied(st, now, ctx, device); Keyed(st') && st'.sub == st.sub && st'.key == st.key
  {
  }

  lemma {:induction false} WatchMoves(st: State, now: real, s: Sample, ctx: Context, held: bool)
    requires Keyed(st)
    ensures var st' := Watch(st, now, s, ctx, held); Keyed(st') && st'.sub == st.sub && st'.key == st.key && st'.initialized == st.initialized
  {
    hide ObserveAll, Flats, LoopQuiet;
  }

  lemma {:induction false} SettleMoves(st: State, now: real, s: Sample, ctx: Context)
    requires Keyed(st) && st.sub == Settle && st.initialized
    ensures Moves(st, OnSettle(st, now, s, ctx))
  {
    hide Watch, AllSatisfied, Abort, CanAdopt, SettleHeld;
    var adopted := Adopt(st, now, ctx);
    var held := SettleHeld(adopted, ctx);
    WatchMoves(adopted, now, s, ctx, held);
    AbortMoves(Watch(adopted, now, s, ctx, held));
  }

  lemma {:induction false} RecoveryMoves(st: State, now: real, s: Sample, ctx: Context)
    requires Keyed(st) && st.sub == RecoverGpu && st.initialized
    ensures Moves(st, OnRecovery(st, now, s, ctx))
  {
    hide Watch, AllSatisfied, Abort, RecoveryHeld;
    var held := RecoveryHeld(st, now, ctx);
    WatchMoves(st, now, s, ctx, held);
    AbortMoves(Watch(st, now, s, ctx, held));
  }

  lemma {:induction false} RetryMoves(st: State, now: real)
    requires Keyed(st) && st.initialized && st.sub != Done
    ensures Moves(st, Retry(st, now))
  {
    hide Abort, ObserveAll;
    AbortMoves(st);
  }

  lemma {:induction false} DispatchMoves(fit: Fitter, st: State, now: real, s: Sample, ctx: Context)
    requires Keyed(st) && st.initialized && st.sub != Done
    ensures Moves(st, Dispatch(fit, st, now, s, ctx))
  {
    hide OnSettle, OnRecovery, OnResponse, Moves, Keyed;
    match st.sub {
      case Settle => SettleMoves(st, now, s, ctx);
      case CpuStep => ResponseMoves(fit, st, now, ctx, Cpu);
      case RecoverGpu => RecoveryMoves(st, now, s, ctx);
      case GpuStep => ResponseMoves(fit, st, now, ctx, Gpu);
      case Done =>
    }
  }

  /** Phases go forward only, the frozen key stays, and a fit is reported only
      when its device's step ends. */
  lemma {:induction false} StepMoves(fit: Fitter, st: State, x: Input)
    requires Keyed(st) && st.sub != Done
    ensures Moves(st, Step(fit, st, x.s, x.ctx))
  {
    hide Abort, Retry, Dispatch, GuardTrips, ContextKey, AtLeast, ObserveAll;
    AbortMoves(st);
    if !ClockBad(st, x.s) {
      var now := x.s.t.v;
      var timed := Timed(st, now, x.s, x.ctx);
      var keyed := FreezeKey(timed, x.ctx);
      AbortMoves(timed);
      if st.initialized {
        RetryMoves(keyed, now);
        DispatchMoves(fit, keyed, now, x.s, x.ctx);
      }
    }
  }

  // ---- The gain maps over whole runs ----

  /** The gains reported for a device, in order. */
  function FitsOf(device: Device, effects: seq<RunnerEffect>): seq<F.Gains> {
    if effects == [] then []
    else
      var front := FitsOf(device, effects[..|effects| - 1]);
      match effects[|effects| - 1]
      case Machine(Fitted(d, g)) => if d == device then front + [g] else front
      case _ => front
  }

  predicate IsFit(device: Device, e: RunnerEffect) {
    e.Machine? && e.e.Fitted? && e.e.device == device
  }

  lemma {:induction false} FitsOfAppend(device: Device, a: seq<RunnerEffect>, b: seq<RunnerEffect>)
    ensures FitsOf(device, a + b) == FitsOf(device, a) + FitsOf(device, b)
  {
    if b == [] {
      assert a + b == a;
    } else {
      var n := |b| - 1;
      FitsOfAppend(device, a, b[..n]);
      assert (a + b)[..|a + b| - 1] == a + b[..n] && (a + b)[|a + b| - 1] == b[n];
    }
  }

  lemma {:induction false} NoFitsIn(device: Device, effects: seq<RunnerEffect>)
    requires forall i :: 0 <= i < |effects| ==> !IsFit(device, effects[i])
    ensures FitsOf(device, effects) == []
  {
    if effects != [] {
      assert !IsFit(device, effects[|effects| - 1]);
      NoFitsIn(device, effects[..|effects| - 1]);
    }
  }

  lemma {:induction false} NothingToMerge(device: Device, key: Option<Key>, effects: seq<Effect>, gains: GainMap)
    requires forall i :: 0 <= i < |effects| ==> !effects[i].Fitted? || effects[i].device != device
    ensures Merge(device, key, effects, gains) == gains
  {
    if effects != [] {
      assert !effects[|effects| - 1].Fitted? || effects[|effects| - 1].device != device;
      NothingToMerge(device, key, effects[..|effects| - 1], gains);
    }
  }

  /** The gain of a device in a batch whose only fit is third. */
  function FitIn(device: Device, effects: seq<Effect>): seq<F.Gains> {
    if HasFit(effects) && effects[2].device == device then [effects[2].gains] else []
  }

  function Credit(gains: GainMap, key: Option<Key>, fits: seq<F.Gains>): GainMap {
    if fits != [] && key.Some? then gains[key.value := fits[0]] else gains
  }

  lemma {:induction false} BatchMerges(device: Device, key: Option<Key>, effects: seq<Effect>, n: nat, gains: GainMap)
    requires FitsThirdOnly(effects) && key.Some? && n <= |effects|
    ensures Merge(device, key, effects[..n], gains) == Credit(gains, key, if n > 2 then FitIn(device, effects) else [])
    ensures FitsOf(device, Wrap(effects)[..n]) == (if n > 2 then FitIn(device, effects) else [])
  {
    if n > 0 {
      BatchMerges(device, key, effects, n - 1, gains);
      assert effects[..n][..n - 1] == effects[..n - 1] && Wrap(effects)[..n][..n - 1] == Wrap(effects)[..n - 1];
      assert effects[..n][n - 1] == effects[n - 1] && Wrap(effects)[..n][n - 1] == Machine(effects[n - 1]);
    }
  }

  /** A whole batch: at most one fit, credited under the key. */
  lemma {:induction false} SampleMerges(device: Device, key: Option<Key>, effects: seq<Effect>, gains: GainMap)
    requires FitsThirdOnly(effects) && (HasFit(effects) ==> key.Some?)
    ensures Merge(device, key, effects, gains) == Credit(gains, key, FitIn(device, effects))
    ensures FitsOf(device, Wrap(effects)) == FitIn(device, effects)
  {
    assert effects[..|effects|] == effects && Wrap(effects)[..|effects|] == Wrap(effects);
    if key.Some? {
      BatchMerges(device, key, effects, |effects|, gains);
    } else {
      hide FitsOf, Merge;
      NothingToMerge(device, key, effects, gains);
      NoFitsIn(device, Wrap(effects));
    }
  }

  predicate NoSave(effects: seq<RunnerEffect>) {
    forall i :: 0 <= i < |effects| ==> effects[i].Machine?
  }

  /** The only save, if any, is last but one and carries the final maps. */
  predicate SavesFinal(r: RunState, effects: seq<RunnerEffect>) {
    && |effects| >= 2 && NoSave(effects[..|effects| - 2])
    && effects[|effects| - 2..] == [SaveState(r.cpuGains, r.gpuGains), Finished]
  }

  ghost predicate Conserved(start: RunState, r: RunState, emitted: seq<RunnerEffect>) {
    var cpuFits, gpuFits := FitsOf(Cpu, emitted), FitsOf(Gpu, emitted);
    && |cpuFits| <= 1 && |gpuFits| <= 1
    && (cpuFits + gpuFits != [] ==> r.step.key.Some?)
    && r.cpuGains == Credit(start.cpuGains, r.step.key, cpuFits)
    && r.gpuGains == Credit(start.gpuGains, r.step.key, gpuFits)
    && (NoSave(emitted) || (r.finished && SavesFinal(r, emitted)))
  }

  ghost predicate Progress(r: RunState, emitted: seq<RunnerEffect>) {
    !r.finished ==>
      && Keyed(r.step) && r.step.sub != Done && NoSave(emitted)
      && FitsOf(Gpu, emitted) == [] && (OnCpu(r.step) ==> FitsOf(Cpu, emitted) == [])
  }

  lemma {:induction false} SampleConserves(fit: Fitter, start: RunState, r: RunState, emitted: seq<RunnerEffect>, x: Input)
    requires r.started && !r.finished && Conserved(start, r, emitted) && Progress(r, emitted)
    ensures var (r', more) := TakeSample(fit, r, x);
            Conserved(start, r', emitted + more) && Progress(r', emitted + more)
  {
    hide Step, FitsOf, Merge, Wrap, FitsThirdOnly;
    StepMoves(fit, r.step, x);
    var (step, effects) := Step(fit, r.step, x.s, x.ctx);
    var (r', more) := TakeSample(fit, r, x);
    SampleMerges(Cpu, step.key, effects, r.cpuGains);
    SampleMerges(Gpu, step.key, effects, r.gpuGains);
    var tail := if step.sub == Done then [SaveState(r'.cpuGains, r'.gpuGains), Finished] else [];
    NoFitsIn(Cpu, tail);
    NoFitsIn(Gpu, tail);
    FitsOfAppend(Cpu, Wrap(effects), tail);
    FitsOfAppend(Gpu, Wrap(effects), tail);
    FitsOfAppend(Cpu, emitted, more);
    FitsOfAppend(Gpu, emitted, more);
    assert FitsOf(Cpu, emitted + more) == FitsOf(Cpu, emitted) + FitIn(Cpu, effects);
    assert FitsOf(Gpu, emitted + more) == FitsOf(Gpu, emitted) + FitIn(Gpu, effects);
    assert NoSave(emitted + Wrap(effects));
    assert emitted + more == (emitted + Wrap(effects)) + tail;
  }

  lemma {:induction false} AbortConserves(start: RunState, r: RunState, emitted: seq<RunnerEffect>)
    requires !r.finished && Conserved(start, r, emitted) && Progress(r, emitted)
    ensures var (r', more) := OnAbort(r);
            Conserved(start, r', emitted + more) && Progress(r', emitted + more)
  {
    hide FitsOf, Merge, Wrap;
    var (r', more) := OnAbort(r);
    NoFitsIn(Cpu, more);
    NoFitsIn(Gpu, more);
    FitsOfAppend(Cpu, emitted, more);
    FitsOfAppend(Gpu, emitted, more);
  }

  lemma {:induction false} RunConserves(fit: Fitter, cpuGains: GainMap, gpuGains: GainMap, events: seq<Event>)
    ensures var start := Fresh(cpuGains, gpuGains);
            var (r, emitted) := Run(fit, start, events);
            Conserved(start, r, emitted) && Progress(r, emitted)
  {
    hide TakeSample, OnAbort;
    var start := Fresh(cpuGains, gpuGains);
    if events != [] {
      var (r, emitted) := Run(fit, start, events[..|events| - 1]);
      RunConserves(fit, cpuGains, gpuGains, events[..|events| - 1]);
      hide Conserved, Progress;
      var e := events[|events| - 1];
      if e.Sampled? && r.started && !r.finished {
        SampleConserves(fit, start, r, emitted, e.x);
      } else if e.Aborted? && !r.finished {
        AbortConserves(start, r, emitted);
      } else {
        IdleConserves(fit, start, r, emitted, e);
      }
    }
  }

  /** Events that change nothing but the started flag. */
  lemma {:induction false} IdleConserves(fit: Fitter, start: RunState, r: RunState, emitted: seq<RunnerEffect>, e: Event)
    requires e.Start? || r.finished || (e.Sampled? && !r.started)
    requires Conserved(start, r, emitted) && Progress(r, emitted)
    ensures OnEvent(fit, r, e).1 == []
    ensures OnEvent(fit, r, e).0 == if e.Start? then r.(started := true) else r
    ensures emitted + OnEvent(fit, r, e).1 == emitted
    ensures Conserved(start, OnEvent(fit, r, e).0, emitted) && Progress(OnEvent(fit, r, e).0, emitted)
  {
    hide FitsOf, Keyed;
  }

  /** Conservation of saved gains: whatever happens, each device is fitted at
      most once; a map differs from its starting value only in that fit,
      stored under the frozen key; and the maps are saved at most once, as
      the last thing, with exactly those contents. */
  lemma {:induction false} GainsAreConserved(fit: Fitter, cpuGains: GainMap, gpuGains: GainMap, events: seq<Event>, i: nat)
    requires var (r, emitted) := Run(fit, Fresh(cpuGains, gpuGains), events);
             i < |emitted| && emitted[i].SaveState?
    ensures var (r, emitted) := Run(fit, Fresh(cpuGains, gpuGains), events);
            && i == |emitted| - 2 && r.finished
            && |FitsOf(Cpu, emitted)| <= 1 && |FitsOf(Gpu, emitted)| <= 1
            && (forall k | Some(k) != r.step.key ::
                  && (k in emitted[i].cpuGains <==> k in cpuGains) && (k in cpuGains ==> emitted[i].cpuGains[k] == cpuGains[k])
                  && (k in emitted[i].gpuGains <==> k in gpuGains) && (k in gpuGains ==> emitted[i].gpuGains[k] == gpuGains[k]))
            && emitted[i].cpuGains == Credit(cpuGains, r.step.key, FitsOf(Cpu, emitted))
            && emitted[i].gpuGains == Credit(gpuGains, r.step.key, FitsOf(Gpu, emitted))
  {
    hide Run, FitsOf;
    RunConserves(fit, cpuGains, gpuGains, events);
    var (r, emitted) := Run(fit, Fresh(cpuGains, gpuGains), events);
    assert !NoSave(emitted) && SavesFinal(r, emitted);
    assert forall j :: 0 <= j < |emitted| - 2 ==> emitted[j] == emitted[..|emitted| - 2][j];
  }

  /** The key never changes once frozen, and a finished runner does nothing. */
  lemma {:induction false} FrozenAndFinal(fit: Fitter, cpuGains: GainMap, gpuGains: GainMap, events: seq<Event>, e: Event)
    ensures var r := Run(fit, Fresh(cpuGains, gpuGains), events).0;
            var (r', more) := OnEvent(fit, r, e);
            && (r.step.key.Some? ==> r'.step.key == r.step.key)
            && (r.finished ==> more == [] && r'.finished && r'.step == r.step && r'.cpuGains == r.cpuGains && r'.gpuGains == r.gpuGains)
  {
    hide Run, Step, Conserved, Keyed, Merge, Wrap;
    RunConserves(fit, cpuGains, gpuGains, events);
    var r := Run(fit, Fresh(cpuGains, gpuGains), events).0;
    if !r.finished && e.Sampled? {
      StepMoves(fit, r.step, e.x);
    }
  }

  // ---- The samples a runner has passed on ----

  function Delivered(events: seq<Event>): seq<Input> {
    if events == [] then []
    else
      var front := events[..|events| - 1];
      match events[|events| - 1]
      case Sampled(x) => if Start in front then Delivered(front) + [x] else Delivered(front)
      case _ => Delivered(front)
  }

  /** Until it finishes, the runner's test is exactly the test of the samples
      delivered since the start, and that test has not ended. */
  lemma {:induction false} RunnerFollowsTest(fit: Fitter, start: RunState, events: seq<Event>)
    requires start.step == INITIAL && !start.started && !start.finished
    ensures var r := Run(fit, start, events).0;
            && r.started == (Start in events)
            && (!r.finished ==> r.step == After(fit, Delivered(events)) && !Ending.Ends(fit, Delivered(events)))
  {
    hide Step, Merge, Wrap, Ending.Ends;
    if events == [] {
      NothingEnds(fit);
    } else {
      var front, e := events[..|events| - 1], events[|events| - 1];
      assert events == front + [e];
      RunnerFollowsTest(fit, start, front);
      var r := Run(fit, start, front).0;
      if e.Sampled? && r.started && !r.finished {
        EndsLater(fit, Delivered(front), e.x);
      }
    }
  }

  lemma {:induction false} NothingEnds(fit: Fitter)
    ensures !Ending.Ends(fit, [])
  {
  }

  lemma {:induction false} EndsLater(fit: Fitter, run: seq<Input>, x: Input)
    ensures After(fit, run + [x]) == Step(fit, After(fit, run), x.s, x.ctx).0
    ensures Ending.Ends(fit, run + [x]) <==> Ending.Ends(fit, run) || After(fit, run + [x]).sub == Done
  {
    hide Step;
    var run' := run + [x];
    assert run'[..|run'| - 1] == run;
    assert run'[..|run'|] == run';
    assert forall i :: 0 <= i <= |run| ==> run'[..i] == run[..i];
  }

  /** Through the runner every fair calibration finishes. */
  lemma {:induction false} RunnerFinishes(fit: Fitter, start: RunState, events: seq<Event>, tick: real, lag: real)
    requires start.step == INITIAL && !start.started && !start.finished
    requires tick > 0.0 && lag >= 0.0 && Ending.Fair(Delivered(events), tick, lag) && Delivered(events) != []
    requires (|Delivered(events)| - 1) as real * tick >= 5.0 * Ending.FullBudget(tick, lag)
    ensures Run(fit, start, events).0.finished
  {
    hide Run, Ending.Fair, Ending.FullBudget;
    RunnerFollowsTest(fit, start, events);
    Ending.CalibrationEnds(fit, Delivered(events), tick, lag);
  }

  // ---- The closed loop ----

  function Drive(act: Loop.Actuators, p: Loop.Plant, effects: seq<RunnerEffect>): Loop.Plant {
    if effects == [] then p
    else
      var p' := Drive(act, p, effects[..|effects| - 1]);
      if effects[|effects| - 1].Machine? then Loop.Apply(act, p', effects[|effects| - 1].e) else p'
  }

  /** Every delivered sample reports verified caps at the plant's values. */
  ghost predicate Truthful(fit: Fitter, act: Loop.Actuators, p: Loop.Plant, start: RunState, events: seq<Event>) {
    if events == [] then true
    else
      var front, e := events[..|events| - 1], events[|events| - 1];
      && Truthful(fit, act, p, start, front)
      && (e.Sampled? ==> Loop.Reports(Drive(act, p, Run(fit, start, front).1), e.x.ctx))
  }

  function BurnerStarts(effects: seq<RunnerEffect>): nat {
    if effects == [] then 0
    else BurnerStarts(effects[..|effects| - 1]) + if effects[|effects| - 1] == Machine(StartBurner(BURNER_THREADS)) then 1 else 0
  }

  lemma {:induction false} DriveAppend(act: Loop.Actuators, p: Loop.Plant, a: seq<RunnerEffect>, b: seq<RunnerEffect>)
    ensures Drive(act, p, a + b) == Drive(act, Drive(act, p, a), b)
    ensures BurnerStarts(a + b) == BurnerStarts(a) + BurnerStarts(b)
  {
    if b == [] {
      assert a + b == a;
    } else {
      hide Loop.Apply;
      var n := |b| - 1;
      DriveAppend(act, p, a, b[..n]);
      assert (a + b)[..|a + b| - 1] == a + b[..n] && (a + b)[|a + b| - 1] == b[n];
    }
  }

  lemma {:induction false} DriveWrapped(act: Loop.Actuators, p: Loop.Plant, effects: seq<Effect>)
    ensures Drive(act, p, Wrap(effects)) == Loop.ApplyAll(act, p, effects)
    ensures StartBurner(BURNER_THREADS) !in effects ==> BurnerStarts(Wrap(effects)) == 0
    decreases |effects|
  {
    hide Loop.Apply;
    if effects != [] {
      var e := effects[0];
      DriveWrapped(act, Loop.Apply(act, p, e), effects[1..]);
      assert Wrap(effects) == [Machine(e)] + Wrap(effects[1..]);
      DriveAppend(act, p, [Machine(e)], Wrap(effects[1..]));
      assert [Machine(e)][..0] == [];
      assert Drive(act, p, [Machine(e)]) == Loop.Apply(act, Drive(act, p, [Machine(e)][..0]), e);
      assert BurnerStarts([Machine(e)]) == BurnerStarts([Machine(e)][..0]) + if Machine(e) == Machine(StartBurner(BURNER_THREADS)) then 1 else 0;
    }
  }

  predicate Closed(act: Loop.Actuators, r: RunState, p: Loop.Plant, starts: nat) {
    if !r.finished && r.step == INITIAL then starts == 0 && !p.burner
    else
      && Loop.InLoop(act, r.step, p) && starts <= 1
      && (r.finished <==> r.step.sub == Done) && (r.step.initialized || r.finished)
  }

  lemma {:induction false} SampleStaysClosed(fit: Fitter, act: Loop.Actuators, r: RunState, p: Loop.Plant, starts: nat, x: Input)
    requires Loop.Settled(act) && r.started && !r.finished && Closed(act, r, p, starts) && Loop.Reports(p, x.ctx)
    ensures var (r', more) := TakeSample(fit, r, x);
            Closed(act, r', Drive(act, p, more), starts + BurnerStarts(more)) && r'.step != INITIAL
  {
    hide Step, Merge, Wrap, Drive, BurnerStarts, Loop.InLoop, Loop.ApplyAll, Loop.Reports, Loop.RestoresFirst;
    var (step, effects) := Step(fit, r.step, x.s, x.ctx);
    var tail := (TakeSample(fit, r, x).1)[|effects|..];
    assert TakeSample(fit, r, x).1 == Wrap(effects) + tail;
    TailIsIdle(act, Drive(act, p, Wrap(effects)), tail);
    DriveAppend(act, p, Wrap(effects), tail);
    DriveWrapped(act, p, effects);
    if r.step == INITIAL {
      Loop.FirstClosesLoop(fit, act, p, x);
      if StartBurner(BURNER_THREADS) in effects {
        StartsOnce(HeldPair(step));
      }
    } else {
      Loop.StepClosesLoop(fit, act, r.step, p, x);
    }
  }

  lemma {:induction false} StartsOnce(pair: seq<Effect>)
    requires |pair| == 2 && pair[0].SetCpu? && pair[1].SetGpu?
    ensures BurnerStarts(Wrap([StartBurner(BURNER_THREADS)] + pair)) == 1
  {
    var w := Wrap([StartBurner(BURNER_THREADS)] + pair);
    assert w == [Machine(StartBurner(BURNER_THREADS)), Machine(pair[0]), Machine(pair[1])];
    assert w[..2] == [Machine(StartBurner(BURNER_THREADS)), Machine(pair[0])];
    assert w[..2][..1] == [Machine(StartBurner(BURNER_THREADS))];
    assert BurnerStarts(w[..2][..1]) == 1 && BurnerStarts(w[..2]) == 1;
  }

  lemma {:induction false} TailIsIdle(act: Loop.Actuators, p: Loop.Plant, tail: seq<RunnerEffect>)
    requires tail == [] || (|tail| == 2 && !tail[0].Machine? && !tail[1].Machine?)
    ensures Drive(act, p, tail) == p && BurnerStarts(tail) == 0
  {
    if tail != [] {
      assert tail[..1][..0] == [];
      assert Drive(act, p, tail[..1]) == Drive(act, p, tail[..1][..0]);
      assert BurnerStarts(tail[..1]) == BurnerStarts(tail[..1][..0]);
    }
  }

  lemma {:induction false} AbortStaysClosed(act: Loop.Actuators, r: RunState, p: Loop.Plant, starts: nat)
    requires !r.finished && Closed(act, r, p, starts)
    ensures var (r', more) := OnAbort(r);
            Closed(act, r', Drive(act, p, more), starts + BurnerStarts(more))
  {
    hide Wrap, Drive, BurnerStarts, Loop.InLoop, Loop.ApplyAll, Loop.RestoresFirst;
    var (step, effects) := Abort(r.step);
    DriveWrapped(act, p, effects);
    if r.step == INITIAL {
      Loop.RefusedLoop(act, p);
    } else {
      Loop.AbortLoop(act, r.step, p);
    }
  }

  /** The closed loop over whole runs: between samples the plant carries the
      baseline except for the one device being stepped; a finished run has
      restored the baseline and stopped the burner, which was started at
      most once. */
  lemma {:induction false} RunStaysClosed(fit: Fitter, act: Loop.Actuators, p: Loop.Plant, start: RunState, events: seq<Event>)
    requires Loop.Settled(act) && !p.burner && Truthful(fit, act, p, start, events)
    requires start.step == INITIAL && !start.started && !start.finished
    ensures var (r, emitted) := Run(fit, start, events);
            && Closed(act, r, Drive(act, p, emitted), BurnerStarts(emitted))
            && (r.finished ==>
                  && !Drive(act, p, emitted).burner
                  && (r.step.initialized ==> Drive(act, p, emitted).cpu == act.cpu(r.step.baseCpu)
                                             && Drive(act, p, emitted).gpu == act.gpu(r.step.baseGpu)))
  {
    hide TakeSample, OnAbort, Loop.Reports, Drive, BurnerStarts, Loop.Settled;
    if events == [] {
      TailIsIdle(act, p, []);
    } else {
      var front, e := events[..|events| - 1], events[|events| - 1];
      RunStaysClosed(fit, act, p, start, front);
      var (r, emitted) := Run(fit, start, front);
      var more := OnEvent(fit, r, e).1;
      DriveAppend(act, p, emitted, more);
      var p' := Drive(act, p, emitted);
      if e.Sampled? && r.started && !r.finished {
        SampleStaysClosed(fit, act, r, p', BurnerStarts(emitted), e.x);
      } else if e.Aborted? && !r.finished {
        AbortStaysClosed(act, r, p', BurnerStarts(emitted));
      } else {
        IdleStays(fit, r, e);
        TailIsIdle(act, p', more);
      }
    }
  }

  lemma {:induction false} IdleStays(fit: Fitter, r: RunState, e: Event)
    requires e.Start? || r.finished || (e.Sampled? && !r.started)
    ensures OnEvent(fit, r, e).1 == []
    ensures OnEvent(fit, r, e).0 == if e.Start? then r.(started := true) else r
  {
    hide Step, Abort;
  }

  // ---- Where saved gains come from ----

  lemma {:induction false} FitComesFromBatch(device: Device, effects: seq<RunnerEffect>)
    requires FitsOf(device, effects) != []
    ensures exists i :: 0 <= i < |effects| && IsFit(device, effects[i]) && effects[i].e.gains == FitsOf(device, effects)[0]
  {
    var n := |effects| - 1;
    if FitsOf(device, effects[..n]) == [] {
      assert IsFit(device, effects[n]);
    } else {
      FitComesFromBatch(device, effects[..n]);
      var i :| 0 <= i < n && IsFit(device, effects[..n][i]) && effects[..n][i].e.gains == FitsOf(device, effects[..n])[0];
      assert IsFit(device, effects[i]);
    }
  }

  /** A fitted gain was reported by one delivered sample of the run. */
  lemma {:induction false} SampleFits(fit: Fitter, r: RunState, x: Input, device: Device)
    requires FitsOf(device, TakeSample(fit, r, x).1) != []
    ensures Fitted(device, FitsOf(device, TakeSample(fit, r, x).1)[0]) in Step(fit, r.step, x.s, x.ctx).1
    ensures r.started && !r.finished
  {
    hide Step, Merge, FitsOf;
    NoFitsIn(device, []);
    var more := TakeSample(fit, r, x).1;
    FitComesFromBatch(device, more);
    var i :| 0 <= i < |more| && IsFit(device, more[i]) && more[i].e.gains == FitsOf(device, more)[0];
    assert Step(fit, r.step, x.s, x.ctx).1[i] == more[i].e;
  }

  /** Saved gains are certified: each comes from a delivered sample whose fit
      used a contiguous trace of at least 180 samples with the stepped pair
      verified throughout. */
  lemma {:induction false} FittedGainsAreCertified(fit: Fitter, start: RunState, events: seq<Event>, device: Device)
    returns (run: seq<Input>, x: Input)
    requires start.step == INITIAL && !start.started && !start.finished
    requires FitsOf(device, Run(fit, start, events).1) != []
    ensures run + [x] <= Delivered(events)
    ensures var gains := FitsOf(device, Run(fit, start, events).1)[0];
            && Fitted(device, gains) in Step(fit, After(fit, run), x.s, x.ctx).1
            && Trace.CertifiedFit(fit, run, After(fit, run), x, device, gains)
  {
    hide TakeSample, OnAbort, Step, After, Trace.CertifiedFit;
    var front, e := events[..|events| - 1], events[|events| - 1];
    var (r, emitted) := Run(fit, start, front);
    var more := OnEvent(fit, r, e).1;
    FitsOfAppend(device, emitted, more);
    assert events == front + [e];
    if FitsOf(device, emitted) != [] {
      run, x := FittedGainsAreCertified(fit, start, front, device);
    } else {
      RunnerFollowsTest(fit, start, front);
      NoAbortFits(device, fit, r, e);
      SampleFits(fit, r, e.x, device);
      run, x := Delivered(front), e.x;
      Trace.FittedTraceIsCertified(fit, run, x, device, FitsOf(device, more)[0]);
    }
  }

  lemma {:induction false} NoAbortFits(device: Device, fit: Fitter, r: RunState, e: Event)
    requires FitsOf(device, OnEvent(fit, r, e).1) != []
    ensures e.Sampled?
  {
    hide FitsOf, TakeSample;
    if !e.Sampled? {
      NoFitsIn(device, OnEvent(fit, r, e).1);
    }
  }
}
