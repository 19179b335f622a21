/** When a phase of the step test goes on, moves on or ends the run: exact
    decisions of a judged sample, and the times they are counted from. */
module StepEndings {
  import opened Prelude
  import opened StepTest
  import opened TimedWindow
  import B = StepBaseline
  import T = StepTrace

  /** The sample reaches its phase: clock, guards and key pass, and no cap was
      reset. */
  predicate Judged(st: State, x: Input) {
    && st.initialized && !ClockBad(st, x.s) && !x.ctx.cpuReset
    && !GuardTrips(Timed(st, x.s.t.v, x.s, x.ctx), x.s, x.ctx)
    && (st.key.Some? ==> ContextKey(x.ctx) == st.key)
  }

  /** The loop is quiet and all three windows are long and flat enough. */
  predicate Flat(x: Input, st': State) {
    && x.ctx.fanctrlActive && !x.ctx.ecMismatch && x.ctx.argmaxControllable
    && SpanWithin(st'.cpuWindow, 60.0, 1.0) && SpanWithin(st'.gpuWindow, 60.0, 2.0) && SpanWithin(st'.fanWindow, 20.0, 150.0)
  }

  /** Both caps are verified at the pair. */
  predicate AtPair(x: Input, c: real, g: nat) {
    && x.ctx.cpuVerified && x.ctx.gpuVerified
    && x.ctx.cpuCap.Some? && -0.25 <= x.ctx.cpuCap.value - c <= 0.25 && x.ctx.gpuCap == Some(g)
  }

  /** A pair is known, adopted before or by this very report. */
  predicate PairKnown(st: State, x: Input) {
    st.commandedAt.Some? || (x.ctx.cpuCap.Some? && x.ctx.gpuCap.Some? && B.Reports(x, st.runStarted, x.ctx.cpuCap.value, x.ctx.gpuCap.value))
  }

  lemma {:induction false} JudgedDispatches(fit: Fitter, st: State, x: Input)
    requires Judged(st, x)
    ensures var keyed := FreezeKey(Timed(st, x.s.t.v, x.s, x.ctx), x.ctx);
            && Step(fit, st, x.s, x.ctx) == Dispatch(fit, keyed, x.s.t.v, x.s, x.ctx)
            && keyed == st.(lastAt := Some(x.s.t.v), hotStreak := keyed.hotStreak, key := keyed.key)
            && keyed.key == (if st.key.Some? then st.key else ContextKey(x.ctx))
  {
    hide Dispatch, GuardTrips, ContextKey;
  }

  lemma {:induction false} FlatMeans(st: State, now: real, x: Input, held: bool)
    ensures var st' := Watch(st, now, x.s, x.ctx, held); AllSatisfied(st'.gates) <==> held && Flat(x, st')
  {
    SettledMeans(st, now, x.s, x.ctx, held);
    hide AllSatisfied, ObserveAll, SpanWithin, Push;
  }

  /** Settling moves on exactly when a known pair is held and all is flat; it
      ends the run exactly when that comes without a key, or when it has not
      come ten minutes after settling began. */
  lemma {:induction false} SettleDecides(fit: Fitter, st: State, x: Input)
    requires Judged(st, x) && st.sub == Settle && st.settleStarted.Some? && st.runStarted.Some?
    ensures var st' := Step(fit, st, x.s, x.ctx).0;
            var settled := PairKnown(st, x) && AtPair(x, st'.baseCpu, st'.baseGpu) && Flat(x, st');
            && (st'.sub == CpuStep <==> settled && st'.key.Some?)
            && (st'.sub == Done <==> if settled then st'.key.None? else x.s.t.v - st.settleStarted.value >= 600.0)
            && (st'.sub == CpuStep || st'.sub == Done || st'.sub == Settle)
            && st'.key == (if st.key.Some? then st.key else ContextKey(x.ctx))
  {
    JudgedDispatches(fit, st, x);
    var keyed := FreezeKey(Timed(st, x.s.t.v, x.s, x.ctx), x.ctx);
    SettleOutcome(keyed, x.s.t.v, x);
    hide Step, OnSettle, Timed, FreezeKey, ContextKey, Flat, ClockBad, GuardTrips, B.Reports;
  }

  lemma {:induction false} SettleOutcome(st: State, now: real, x: Input)
    requires st.sub == Settle && st.settleStarted.Some? && st.runStarted.Some?
    ensures var st' := OnSettle(st, now, x.s, x.ctx).0;
            var settled := PairKnown(st, x) && AtPair(x, st'.baseCpu, st'.baseGpu) && Flat(x, st');
            && (st'.sub == CpuStep <==> settled && st'.key.Some?)
            && (st'.sub == Done <==> if settled then st'.key.None? else now - st.settleStarted.value >= 600.0)
            && (st'.sub == CpuStep || st'.sub == Done || st'.sub == Settle) && st'.key == st.key
  {
    hide Watch, AllSatisfied, SpanWithin;
    var adopted := Adopt(st, now, x.ctx);
    var held := SettleHeld(adopted, x.ctx);
    FlatMeans(adopted, now, x, held);
    B.WatchKeepsBase(adopted, now, x.s, x.ctx, held);
    WatchKeepsTimes(adopted, now, x, held);
  }

  lemma {:induction false} WatchKeepsTimes(st: State, now: real, x: Input, held: bool)
    ensures var st' := Watch(st, now, x.s, x.ctx, held);
            && st'.settleStarted == st.settleStarted && st'.recoveryStarted == st.recoveryStarted && st'.key == st.key
            && st'.lastAt == st.lastAt && st'.appliedGpu == st.appliedGpu
  {
    hide ObserveAll, Push, LoopQuiet, Flats;
  }

  /** Recovery moves on exactly when both writes completed since it began, the
      pair is held and all is flat; it ends the run exactly when that has not
      come ten minutes after. */
  lemma {:induction false} RecoveryDecides(fit: Fitter, st: State, x: Input)
    requires Judged(st, x) && st.sub == RecoverGpu && st.recoveryStarted.Some?
    ensures var st' := Step(fit, st, x.s, x.ctx).0;
            var start := st.recoveryStarted.value;
            var settled := && x.ctx.cpuCompletedAt.Some? && x.ctx.cpuCompletedAt.value >= start
                           && x.ctx.gpuCompletedAt.Some? && x.ctx.gpuCompletedAt.value >= start
                           && AtPair(x, st.baseCpu, st.baseGpu) && Flat(x, st');
            && (st'.sub == GpuStep <==> settled)
            && (st'.sub == Done <==> !settled && x.s.t.v - start >= 600.0)
            && (st'.sub == GpuStep || st'.sub == Done || st'.sub == RecoverGpu)
  {
    JudgedDispatches(fit, st, x);
    var keyed := FreezeKey(Timed(st, x.s.t.v, x.s, x.ctx), x.ctx);
    hide Step, Timed, FreezeKey, ContextKey, Flat, Watch, AllSatisfied, ClockBad, GuardTrips;
    var held := RecoveryHeld(keyed, x.s.t.v, x.ctx);
    FlatMeans(keyed, x.s.t.v, x, held);
    B.WatchKeepsBase(keyed, x.s.t.v, x.s, x.ctx, held);
    WatchKeepsTimes(keyed, x.s.t.v, x, held);
    SameFlat(x, Watch(keyed, x.s.t.v, x.s, x.ctx, held), Step(fit, st, x.s, x.ctx).0);
  }

  lemma {:induction false} SameFlat(x: Input, a: State, b: State)
    requires a.cpuWindow == b.cpuWindow && a.gpuWindow == b.gpuWindow && a.fanWindow == b.fanWindow
    ensures Flat(x, a) <==> Flat(x, b)
  {
    hide SpanWithin;
  }

  // ---- Responses ----

  /** The step's own write is known to be applied, before or by this report. */
  predicate Reported(st: State, x: Input, d: Device) {
    match d
    case Cpu =>
      || st.appliedCpu.Some?
      || (x.ctx.cpuVerified && x.ctx.cpuCap.Some? && CompletedSince(x.ctx.cpuCompletedAt, st.commandedAt))
    case Gpu =>
      || st.appliedGpu.Some?
      || (x.ctx.gpuVerified && x.ctx.gpuCap.Some? && CompletedSince(x.ctx.gpuCompletedAt, st.commandedAt))
  }

  predicate CompletedSince(completed: Option<real>, commanded: Option<real>) {
    completed.Some? && (commanded.Some? ==> completed.value >= commanded.value)
  }

  /** Both caps are verified at the stepped pair. */
  predicate AtStep(st: State, x: Input, d: Device) {
    match d
    case Cpu => x.ctx.cpuCap.Some? && AtPair(x, if st.appliedCpu.Some? then st.appliedCpu.value else x.ctx.cpuCap.value, st.baseGpu)
    case Gpu => x.ctx.gpuCap.Some? && AtPair(x, st.baseCpu, if st.appliedGpu.Some? then st.appliedGpu.value else x.ctx.gpuCap.value)
  }

  /** The time the response is counted from. */
  function CountedFrom(st: State, x: Input, d: Device): Option<real> {
    match d
    case Cpu => if st.appliedCpu.Some? then st.commandedAt else x.ctx.cpuCompletedAt
    case Gpu => if st.appliedGpu.Some? then st.commandedAt else x.ctx.gpuCompletedAt
  }

  /** Nothing more is recorded: no reading of the group, more than two seconds
      since the last one, or six minutes of response. */
  predicate Finishing(st: State, x: Input, d: Device)
    requires x.s.t.Finite?
  {
    var group := if d == Cpu then x.ctx.cpuGroup else x.ctx.gpuGroup;
    var since := OrElse(CountedFrom(st, x, d), x.s.t.v);
    || group.None? || group.value.NonFinite?
    || x.s.t.v - OrElse(st.responseLast, since) > 2.0
    || x.s.t.v - since >= 360.0
  }

  lemma {:induction false} ResponseOutcome(fit: Fitter, st: State, now: real, x: Input, d: Device)
    requires st.sub == T.StepOf(d) && st.commandedAt.Some? && x.s.t == Finite(now)
    ensures var st' := OnResponse(fit, st, now, x.ctx, d).0;
            && (st'.sub == st.sub <==>
                  if Reported(st, x, d) then AtStep(st, x, d) && !Finishing(st, x, d) else now - st.commandedAt.value < 360.0)
            && (d == Cpu ==> (st'.sub == RecoverGpu <==> Reported(st, x, d) && AtStep(st, x, d) && Finishing(st, x, d)))
            && (st'.sub == st.sub || st'.sub == Done || (d == Cpu && st'.sub == RecoverGpu))
  {
    hide Conclude, HeldPair;
  }

  /** A response goes on exactly while its write is reported and held and its
      readings follow each other for six minutes, or while it has not waited
      six minutes for that report. The CPU's leads to recovery exactly when
      finished with the pair held; everything else ends the run. */
  lemma {:induction false} ResponseDecides(fit: Fitter, st: State, x: Input, d: Device)
    requires Judged(st, x) && st.sub == T.StepOf(d) && st.commandedAt.Some?
    ensures var st' := Step(fit, st, x.s, x.ctx).0;
            && (st'.sub == st.sub <==>
                  if Reported(st, x, d) then AtStep(st, x, d) && !Finishing(st, x, d) else x.s.t.v - st.commandedAt.value < 360.0)
            && (d == Cpu ==> (st'.sub == RecoverGpu <==> Reported(st, x, d) && AtStep(st, x, d) && Finishing(st, x, d)))
            && (st'.sub == st.sub || st'.sub == Done || (d == Cpu && st'.sub == RecoverGpu))
  {
    JudgedDispatches(fit, st, x);
    hide Step, OnResponse, ContextKey, GuardTrips, Timed, FreezeKey, ClockBad;
    var keyed := FreezeKey(Timed(st, x.s.t.v, x.s, x.ctx), x.ctx);
    ResponseOutcome(fit, keyed, x.s.t.v, x, d);
    SameResponse(st, keyed, x, d);
  }

  lemma {:induction false} SameResponse(st: State, keyed: State, x: Input, d: Device)
    requires keyed == st.(lastAt := keyed.lastAt, hotStreak := keyed.hotStreak, key := keyed.key)
    requires st.commandedAt.Some? && x.s.t.Finite?
    ensures Reported(st, x, d) == Reported(keyed, x, d) && AtStep(st, x, d) == AtStep(keyed, x, d) && Finishing(st, x, d) == Finishing(keyed, x, d)
  {
  }

  // ---- The times phases are counted from ----

  /** The last sample that entered the phase, a retry entering it anew. */
  function Since(fit: Fitter, run: seq<Input>, sub: Sub): Option<real> {
    if run == [] then None
    else
      var front, x := run[..|run| - 1], run[|run| - 1];
      var st := After(fit, front);
      var (st', batch) := Step(fit, st, x.s, x.ctx);
      if st'.sub == sub && (st.sub != sub || !st.initialized || Retrying in batch) then FiniteOf(Some(x.s.t)) else Since(fit, front, sub)
  }

  ghost predicate Timely(fit: Fitter, run: seq<Input>, st: State) {
    && (st.initialized && st.sub == Settle ==> st.settleStarted.Some? && st.settleStarted == Since(fit, run, Settle))
    && (st.initialized && st.sub == RecoverGpu ==> st.recoveryStarted.Some? && st.recoveryStarted == Since(fit, run, RecoverGpu))
    && (st.sub == CpuStep || st.sub == GpuStep ==>
          && st.initialized && st.commandedAt.Some? && Since(fit, run, st.sub).Some? && st.commandedAt.value >= Since(fit, run, st.sub).value)
    && (!st.initialized ==> st.sub == Settle || st.sub == Done)
    && (st.sub == RecoverGpu ==> st.initialized)
  }

  /** One step starts each phase's clock as it enters it, and keeps it within. */
  predicate Clocks(st: State, st': State, batch: seq<Effect>, now: real) {
    && (st'.sub == Settle ==>
          st'.settleStarted == if st.sub != Settle || !st.initialized || Retrying in batch then Some(now) else st.settleStarted)
    && (st'.sub == RecoverGpu ==>
          st'.recoveryStarted == if st.sub != RecoverGpu || Retrying in batch then Some(now) else st.recoveryStarted)
    && (st'.sub == CpuStep || st'.sub == GpuStep ==>
          && st'.commandedAt.Some?
          && (if st.sub != st'.sub then st'.commandedAt == Some(now)
              else st.commandedAt.Some? ==> st'.commandedAt.value >= st.commandedAt.value)
          && Retrying !in batch)
  }

  lemma {:induction false} ResponseClocks(fit: Fitter, st: State, now: real, ctx: Context, d: Device)
    requires st.sub == T.StepOf(d) && st.commandedAt.Some?
    ensures Clocks(st, OnResponse(fit, st, now, ctx, d).0, OnResponse(fit, st, now, ctx, d).1, now)
  {
    hide StepHeld, GroupOf, PairHeld, StepSize;
  }

  lemma {:induction false} SettleClocks(st: State, now: real, x: Input)
    requires st.sub == Settle && st.initialized
    ensures Clocks(st, OnSettle(st, now, x.s, x.ctx).0, OnSettle(st, now, x.s, x.ctx).1, now)
    ensures OnSettle(st, now, x.s, x.ctx).0.sub != GpuStep && OnSettle(st, now, x.s, x.ctx).0.initialized
  {
    hide Watch, AllSatisfied, CanAdopt, SettleHeld;
    var adopted := Adopt(st, now, x.ctx);
    B.WatchKeepsBase(adopted, now, x.s, x.ctx, SettleHeld(adopted, x.ctx));
    WatchKeepsTimes(adopted, now, x, SettleHeld(adopted, x.ctx));
  }

  lemma {:induction false} RecoveryClocks(st: State, now: real, x: Input)
    requires st.sub == RecoverGpu && st.initialized
    ensures Clocks(st, OnRecovery(st, now, x.s, x.ctx).0, OnRecovery(st, now, x.s, x.ctx).1, now)
    ensures OnRecovery(st, now, x.s, x.ctx).0.initialized
  {
    hide Watch, AllSatisfied, RecoveryHeld;
    var held := RecoveryHeld(st, now, x.ctx);
    B.WatchKeepsBase(st, now, x.s, x.ctx, held);
    WatchKeepsTimes(st, now, x, held);
  }

  lemma {:induction false} RetryClocks(st: State, now: real)
    requires st.initialized
    ensures Clocks(st, Retry(st, now).0, Retry(st, now).1, now) && Retry(st, now).0.initialized
  {
  }

  lemma {:induction false} ResponseStaysBegun(fit: Fitter, st: State, now: real, ctx: Context, d: Device)
    ensures OnResponse(fit, st, now, ctx, d).0.initialized == st.initialized
  {
    hide StepHeld, GroupOf, PairHeld, Conclude, HeldPair;
  }

  /** Every step keeps its clocks; a run that has not begun is in no phase. */
  lemma {:induction false} StepClocks(fit: Fitter, st: State, x: Input)
    requires (st.sub == CpuStep || st.sub == GpuStep ==> st.commandedAt.Some? && st.initialized) && (st.sub == RecoverGpu ==> st.initialized)
    requires B.Unbegun(st)
    ensures var (st', batch) := Step(fit, st, x.s, x.ctx);
            && (ClockBad(st, x.s) ==> st'.sub == Done && st'.initialized == st.initialized)
            && (!ClockBad(st, x.s) ==> Clocks(st, st', batch, x.s.t.v) && st'.initialized)
  {
    hide OnResponse, OnSettle, OnRecovery, Retry, GuardTrips, ContextKey, ObserveAll, Clocks;
    if !ClockBad(st, x.s) {
      var timed := Timed(st, x.s.t.v, x.s, x.ctx);
      var keyed := FreezeKey(timed, x.ctx);
      if GuardTrips(timed, x.s, x.ctx) || KeyChanged(timed, x.ctx) {
        EndClocks(st, Abort(timed).0, Abort(timed).1, x.s.t.v);
      } else if !st.initialized {
        BeginClocks(st, x);
      } else {
        assert keyed.initialized && keyed.sub == st.sub && keyed.commandedAt == st.commandedAt;
        if x.ctx.cpuReset {
          RetryClocks(keyed, x.s.t.v);
        } else {
          match st.sub {
            case Settle => SettleClocks(keyed, x.s.t.v, x);
            case RecoverGpu => RecoveryClocks(keyed, x.s.t.v, x);
            case CpuStep =>
              ResponseClocks(fit, keyed, x.s.t.v, x.ctx, Cpu);
              ResponseStaysBegun(fit, keyed, x.s.t.v, x.ctx, Cpu);
            case GpuStep =>
              ResponseClocks(fit, keyed, x.s.t.v, x.ctx, Gpu);
              ResponseStaysBegun(fit, keyed, x.s.t.v, x.ctx, Gpu);
            case Done => EndClocks(st, keyed, [], x.s.t.v);
          }
        }
        var (st', batch) := Step(fit, st, x.s, x.ctx);
        SameClocks(st, keyed, st', batch, x.s.t.v);
      }
    }
  }

  lemma {:induction false} EndClocks(st: State, st': State, batch: seq<Effect>, now: real)
    requires st'.sub == Done
    ensures Clocks(st, st', batch, now)
  {
  }

  lemma {:induction false} SameClocks(st: State, keyed: State, st': State, batch: seq<Effect>, now: real)
    requires keyed == st.(lastAt := keyed.lastAt, hotStreak := keyed.hotStreak, key := keyed.key)
    requires Clocks(keyed, st', batch, now)
    ensures Clocks(st, st', batch, now)
  {
  }

  lemma {:induction false} BeginClocks(st: State, x: Input)
    requires !st.initialized && !ClockBad(st, x.s) && (st.sub == Settle || st.sub == Done)
    ensures var keyed := FreezeKey(Timed(st, x.s.t.v, x.s, x.ctx), x.ctx);
            var st' := FirstGates(keyed, x.s.t.v, x.ctx);
            && Clocks(st, st', [StartBurner(BURNER_THREADS)] + HeldPair(keyed), x.s.t.v) && st'.initialized
  {
    hide ContextKey, ObserveAll;
  }

  lemma {:induction false} SinceSnoc(fit: Fitter, front: seq<Input>, x: Input, sub: Sub)
    ensures var st := After(fit, front);
            var (st', batch) := Step(fit, st, x.s, x.ctx);
            && After(fit, front + [x]) == st'
            && Since(fit, front + [x], sub) ==
                 if st'.sub == sub && (st.sub != sub || !st.initialized || Retrying in batch) then FiniteOf(Some(x.s.t))
                 else Since(fit, front, sub)
  {
    hide Step;
    assert (front + [x])[..|front + [x]| - 1] == front;
  }

  lemma {:induction false} TimelyStep(fit: Fitter, front: seq<Input>, x: Input)
    requires Timely(fit, front, After(fit, front)) && B.Unbegun(After(fit, front))
    ensures Timely(fit, front + [x], After(fit, front + [x]))
  {
    var st := After(fit, front);
    var st' := Step(fit, st, x.s, x.ctx).0;
    StepClocks(fit, st, x);
    SinceSnoc(fit, front, x, st'.sub);
    hide Step, After, Since, ClockBad, B.Unbegun;
    if !ClockBad(st, x.s) {
      GoodClock(st, x);
    }
  }

  lemma {:induction false} GoodClock(st: State, x: Input)
    requires !ClockBad(st, x.s)
    ensures x.s.t.Finite?
  {
  }

  lemma {:induction false} RunIsTimely(fit: Fitter, run: seq<Input>)
    ensures Timely(fit, run, After(fit, run)) && B.Unbegun(After(fit, run))
  {
    hide Timely;
    if run == [] {
      InitialIsTimely(fit);
    } else {
      var front, x := run[..|run| - 1], run[|run| - 1];
      RunIsTimely(fit, front);
      B.RunIsBased(fit, run);
      TimelyStep(fit, front, x);
      assert front + [x] == run;
    }
  }

  lemma {:induction false} InitialIsTimely(fit: Fitter)
    ensures Timely(fit, [], INITIAL) && B.Unbegun(INITIAL)
  {
  }

  /** No phase of any run is cut short: a sample that passes clock, guards, key
      and reset check ends settling or recovery for lack of steadiness exactly
      ten minutes or more after the sample that last entered it, and a step for
      lack of its write no sooner than six minutes after the sample that asked. */
  lemma {:induction false} NoPhaseIsCutShort(fit: Fitter, run: seq<Input>, x: Input)
    requires Judged(After(fit, run), x)
    ensures var st := After(fit, run);
            var st' := Step(fit, st, x.s, x.ctx).0;
            && (st.sub == Settle ==>
                  var start := Since(fit, run, Settle);
                  start.Some? && (st'.key.Some? ==> (st'.sub == Done <==> st'.sub != CpuStep && x.s.t.v - start.value >= 600.0)))
            && (st.sub == RecoverGpu ==>
                  var start := Since(fit, run, RecoverGpu);
                  start.Some? && (st'.sub == Done <==> st'.sub != GpuStep && x.s.t.v - start.value >= 600.0))
            && ((st.sub == CpuStep || st.sub == GpuStep) && st'.sub == Done && !Reported(st, x, PhaseDevice(st)) ==>
                  var start := Since(fit, run, st.sub);
                  start.Some? && x.s.t.v - start.value >= 360.0)
  {
    hide Step, After, Since, ClockBad, GuardTrips, ContextKey, AtStep, Finishing, Reported, PairKnown, AtPair, Flat, Timed;
    var st := After(fit, run);
    RunIsTimely(fit, run);
    B.RunIsBased(fit, run);
    BegunRun(fit, run);
    match st.sub {
      case Settle => SettleDecides(fit, st, x);
      case RecoverGpu => RecoveryDecides(fit, st, x);
      case CpuStep => ResponseDecides(fit, st, x, Cpu);
      case GpuStep => ResponseDecides(fit, st, x, Gpu);
      case Done =>
    }
  }

  lemma {:induction false} BegunRun(fit: Fitter, run: seq<Input>)
    ensures After(fit, run).initialized <==> After(fit, run).runStarted.Some?
  {
    hide After, B.Bases;
    B.RunIsBased(fit, run);
  }

  // ---- Starting over ----

  predicate Emptied(st: State) {
    && st.cpuWindow == [] && st.gpuWindow == [] && st.fanWindow == [] && st.primary == []
    && st.responseLast.None? && st.commandedAt.None? && st.appliedGpu.None?
    && |st.gates| == 7 && forall i :: 0 <= i < 7 ==> !st.gates[i].observed && !st.gates[i].satisfied
  }

  /** Entering recovery, and every retry, starts from nothing: no reading, no
      response, no applied step and no gate observed. */
  lemma {:induction false} PhasesStartOver(fit: Fitter, st: State, x: Input)
    requires st.initialized
    ensures var (st', batch) := Step(fit, st, x.s, x.ctx);
            Retrying in batch || (st'.sub == RecoverGpu && st.sub != RecoverGpu) ==> Emptied(st')
  {
    hide OnResponse, OnSettle, OnRecovery, Retry, GuardTrips, ContextKey, Emptied;
    if !ClockBad(st, x.s) {
      var keyed := FreezeKey(Timed(st, x.s.t.v, x.s, x.ctx), x.ctx);
      RetryEmpties(keyed, x.s.t.v);
      if keyed.sub == Settle {
        SettlePhases(keyed, x.s.t.v, x);
      }
      RecoveryNeverRetries(keyed, x.s.t.v, x);
      ResponseEmpties(fit, keyed, x.s.t.v, x.ctx, Cpu);
      ResponseEmpties(fit, keyed, x.s.t.v, x.ctx, Gpu);
    }
  }

  lemma {:induction false} RetryEmpties(st: State, now: real)
    ensures Retrying in Retry(st, now).1 ==> Emptied(Retry(st, now).0)
    ensures Retry(st, now).0.sub == RecoverGpu ==> Retrying in Retry(st, now).1
  {
  }

  lemma {:induction false} SettlePhases(st: State, now: real, x: Input)
    requires st.sub == Settle
    ensures OnSettle(st, now, x.s, x.ctx).0.sub != RecoverGpu && Retrying !in OnSettle(st, now, x.s, x.ctx).1
  {
    hide Watch, AllSatisfied, CanAdopt, SettleHeld;
    var adopted := Adopt(st, now, x.ctx);
    B.WatchKeepsBase(adopted, now, x.s, x.ctx, SettleHeld(adopted, x.ctx));
  }

  lemma {:induction false} RecoveryNeverRetries(st: State, now: real, x: Input)
    ensures Retrying !in OnRecovery(st, now, x.s, x.ctx).1
  {
    hide Watch, AllSatisfied, RecoveryHeld;
  }

  lemma {:induction false} ResponseEmpties(fit: Fitter, st: State, now: real, ctx: Context, d: Device)
    ensures var (st', batch) := OnResponse(fit, st, now, ctx, d);
            Retrying !in batch && (st'.sub == RecoverGpu && st.sub != RecoverGpu ==> Emptied(st'))
  {
    hide StepHeld, GroupOf, PairHeld, StepSize;
  }

  /** The first sample opens all seven gates at its time, four of them closed
      and three as the fan loop is. */
  lemma {:induction false} FirstSampleObserves(fit: Fitter, st: State, x: Input)
    requires B.Unbegun(st) && !st.initialized && st.gates == FRESH_GATES && !ClockBad(st, x.s)
    ensures var (st', batch) := Step(fit, st, x.s, x.ctx);
            var verdicts := [false, x.ctx.fanctrlActive, !x.ctx.ecMismatch, x.ctx.argmaxControllable, false, false, false];
            st'.sub == Settle ==>
              |st'.gates| == 7 && forall i :: 0 <= i < 7 ==> st'.gates[i] == GateDuration(verdicts[i], true, x.s.t.v, x.s.t.v)
  {
    hide ContextKey, GuardTrips;
  }
}
