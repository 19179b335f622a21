/** Where the step test's caps come from: the pair the first sample asks for,
    the reported pair that becomes the baseline, and the two steps from it. */
module StepBaseline {
  import opened Prelude
  import opened StepTest
  import T = StepTrace
  import F = Fopdt
  import TW = TimedWindow

  // ---- The first sample ----

  lemma {:induction false} NothingBegun(fit: Fitter, run: seq<Input>)
    requires forall i :: 0 <= i < |run| ==> run[i].s.t.NonFinite?
    ensures var st := After(fit, run);
            !st.initialized && st.key.None? && st.lastAt.None? && st.hotStreak == 0 && st.runStarted.None?
  {
    hide Judge;
    if run != [] {
      var front := run[..|run| - 1];
      assert forall i :: 0 <= i < |front| ==> front[i] == run[i];
      NothingBegun(fit, front);
    }
  }

  /** The first sample with a clock asks for the caps in force, or for the
      floors where a cap is not known or not to be kept, and starts the burner
      unless a guard trips at once. */
  lemma {:induction false} FirstSampleAsks(fit: Fitter, run: seq<Input>, x: Input)
    requires (forall i :: 0 <= i < |run| ==> run[i].s.t.NonFinite?) && x.s.t.Finite?
    ensures var batch := Step(fit, After(fit, run), x.s, x.ctx).1;
            var hot := (x.s.ecMax.Some? && x.s.ecMax.value >= 95) || (x.s.gpuTemp.Some? && x.s.gpuTemp.value >= x.ctx.gpuHot);
            var w := if x.ctx.useCurrentCaps && x.ctx.cpuCap.Some? then x.ctx.cpuCap.value else x.ctx.cpuFloor;
            var m := if x.ctx.useCurrentCaps && x.ctx.gpuCap.Some? then x.ctx.gpuCap.value else x.ctx.gpuFloor;
            batch == if hot then [SetCpu(w), SetGpu(m), StopBurner, Noted] else [StartBurner(24), SetCpu(w), SetGpu(m)]
  {
    hide ContextKey, ObserveAll, After;
    NothingBegun(fit, run);
  }

  // ---- The baseline ----

  /** The time of the first sample with a clock. */
  function StartOf(run: seq<Input>): Option<real> {
    if run == [] then None
    else
      match StartOf(run[..|run| - 1])
      case Some(t) => Some(t)
      case None => FiniteOf(Some(run[|run| - 1].s.t))
  }

  /** The sample reports this pair verified, both writes completed in the run. */
  predicate Reports(x: Input, start: Option<real>, c: real, g: nat) {
    && x.ctx.cpuVerified && x.ctx.gpuVerified && x.ctx.cpuCap == Some(c) && x.ctx.gpuCap == Some(g)
    && start.Some?
    && x.ctx.cpuCompletedAt.Some? && x.ctx.cpuCompletedAt.value >= start.value
    && x.ctx.gpuCompletedAt.Some? && x.ctx.gpuCompletedAt.value >= start.value
  }

  /** Fifteen watts up, within the reported maximum. */
  function WattsUp(x: Input, c: real): real {
    if c + 15.0 <= x.ctx.cpuMax then c + 15.0 else x.ctx.cpuMax
  }

  /** 500 MHz up, within the reported maximum and thirty-two bits. */
  function MhzUp(x: Input, g: nat): nat {
    if g + 500 <= x.ctx.gpuMax && g + 500 <= U32_MAX then g + 500 else if U32_MAX <= x.ctx.gpuMax then U32_MAX else x.ctx.gpuMax
  }

  predicate Bases(x: Input, start: Option<real>, st: State) {
    && Reports(x, start, st.baseCpu, st.baseGpu)
    && st.stepCpu == WattsUp(x, st.baseCpu) && st.stepGpu == MhzUp(x, st.baseGpu)
  }

  ghost predicate Based(run: seq<Input>, st: State) {
    && st.runStarted == StartOf(run) && (st.initialized <==> st.runStarted.Some?)
    && ((st.sub == Settle && st.commandedAt.Some?) || st.sub == CpuStep || st.sub == RecoverGpu || st.sub == GpuStep ==>
          exists i :: 0 <= i < |run| && Bases(run[i], st.runStarted, st))
  }

  /** What decides the baseline. */
  predicate SameBase(st: State, st': State) {
    && st'.runStarted == st.runStarted && st'.initialized == st.initialized
    && st'.baseCpu == st.baseCpu && st'.baseGpu == st.baseGpu && st'.stepCpu == st.stepCpu && st'.stepGpu == st.stepGpu
  }

  lemma {:induction false} StartSnoc(run: seq<Input>, x: Input)
    ensures StartOf(run + [x]) == if StartOf(run).Some? then StartOf(run) else FiniteOf(Some(x.s.t))
  {
    assert (run + [x])[..|run + [x]| - 1] == run;
  }

  lemma {:induction false} BaseStays(run: seq<Input>, x: Input, st: State, st': State)
    requires exists i :: 0 <= i < |run| && Bases(run[i], st.runStarted, st)
    requires SameBase(st, st')
    ensures exists i :: 0 <= i < |run + [x]| && Bases((run + [x])[i], st'.runStarted, st')
  {
    var i :| 0 <= i < |run| && Bases(run[i], st.runStarted, st);
    assert (run + [x])[i] == run[i];
    SameBases(run[i], st, st');
  }

  lemma {:induction false} SameBases(x: Input, st: State, st': State)
    requires Bases(x, st.runStarted, st) && SameBase(st, st')
    ensures Bases(x, st'.runStarted, st')
  {
  }

  /** Adoption takes the reported pair; without it nothing moves. */
  lemma {:induction false} AdoptBases(st: State, now: real, x: Input)
    requires st.runStarted.Some?
    ensures CanAdopt(st, now, x.ctx) ==> Bases(x, st.runStarted, Adopt(st, now, x.ctx))
    ensures !CanAdopt(st, now, x.ctx) ==> Adopt(st, now, x.ctx) == st
    ensures Adopt(st, now, x.ctx).commandedAt.Some? <==> CanAdopt(st, now, x.ctx) || st.commandedAt.Some?
  {
  }

  lemma {:induction false} WatchKeepsBase(st: State, now: real, s: Sample, ctx: Context, held: bool)
    ensures var st' := Watch(st, now, s, ctx, held); SameBase(st, st') && st'.commandedAt == st.commandedAt && st'.sub == st.sub
  {
    hide ObserveAll, TW.Push, LoopQuiet, Flats;
  }

  lemma {:induction false} SettleBases(run: seq<Input>, st: State, now: real, x: Input)
    requires st.sub == Settle && st.runStarted.Some? && st.initialized
    requires st.commandedAt.Some? ==> exists i :: 0 <= i < |run| && Bases(run[i], st.runStarted, st)
    ensures var st' := OnSettle(st, now, x.s, x.ctx).0;
            && st'.runStarted == st.runStarted && st'.initialized
            && ((st'.sub == Settle && st'.commandedAt.Some?) || st'.sub == CpuStep ==>
                  exists i :: 0 <= i < |run + [x]| && Bases((run + [x])[i], st'.runStarted, st'))
            && (st'.sub == Settle || st'.sub == CpuStep || st'.sub == Done)
  {
    hide Watch, AllSatisfied, CanAdopt, Bases, Adopt;
    var adopted := Adopt(st, now, x.ctx);
    AdoptBases(st, now, x);
    var held := SettleHeld(adopted, x.ctx);
    var watched := Watch(adopted, now, x.s, x.ctx, held);
    WatchKeepsBase(adopted, now, x.s, x.ctx, held);
    var st' := OnSettle(st, now, x.s, x.ctx).0;
    if AllSatisfied(watched.gates) {
      HeldWhenSatisfied(adopted, now, x.s, x.ctx, held);
    }
    if adopted.commandedAt.Some? {
      if CanAdopt(st, now, x.ctx) {
        assert (run + [x])[|run|] == x;
        SameBases(x, adopted, st') by { AdoptKeepsStart(st, now, x.ctx); }
      } else {
        BaseStays(run, x, st, st');
      }
    }
    AdoptKeepsStart(st, now, x.ctx);
  }

  lemma {:induction false} AdoptKeepsStart(st: State, now: real, ctx: Context)
    ensures var st' := Adopt(st, now, ctx); st'.runStarted == st.runStarted && st'.initialized == st.initialized && st'.sub == st.sub
  {
    hide CanAdopt;
  }

  lemma {:induction false} HeldWhenSatisfied(st: State, now: real, s: Sample, ctx: Context, held: bool)
    requires AllSatisfied(Watch(st, now, s, ctx, held).gates)
    ensures held
  {
    SettledMeans(st, now, s, ctx, held);
  }

  lemma {:induction false} RecoveryBases(st: State, now: real, x: Input)
    requires st.sub == RecoverGpu
    ensures var (st', batch) := OnRecovery(st, now, x.s, x.ctx);
            && SameBase(st, st') && (st'.sub == RecoverGpu || st'.sub == GpuStep || st'.sub == Done)
            && (st'.sub == GpuStep ==> batch == [SetGpu(st'.stepGpu)])
  {
    hide Watch, AllSatisfied, RecoveryHeld;
    WatchKeepsBase(st, now, x.s, x.ctx, RecoveryHeld(st, now, x.ctx));
  }

  lemma {:induction false} ResponseBases(fit: Fitter, st: State, now: real, ctx: Context, device: Device)
    requires st.sub == T.StepOf(device)
    ensures SameBase(st, OnResponse(fit, st, now, ctx, device).0) && OnResponse(fit, st, now, ctx, device).0.sub != Settle
  {
    hide Conclude, StepHeld, GroupOf, HeldPair;
  }

  lemma {:induction false} RetryBases(st: State, now: real)
    ensures var st' := Retry(st, now).0;
            && SameBase(st, st') && (st'.sub == Settle ==> st'.commandedAt.None?)
            && (st'.sub != Settle && st'.sub != Done ==> st.sub == RecoverGpu || st.sub == GpuStep)
  {
  }

  /** Freezing the key and the bookkeeping before the guards keep the base of
      a run that has begun. */
  lemma {:induction false} KeyedBase(st: State, x: Input)
    requires st.initialized && !ClockBad(st, x.s)
    ensures var keyed := FreezeKey(Timed(st, x.s.t.v, x.s, x.ctx), x.ctx);
            SameBase(st, keyed) && keyed.sub == st.sub && keyed.commandedAt == st.commandedAt
  {
    hide ContextKey;
  }

  lemma {:induction false} BegunBases(fit: Fitter, run: seq<Input>, st: State, x: Input)
    requires Based(run, st) && !st.initialized && !ClockBad(st, x.s) && st.sub != CpuStep
    ensures var st' := Step(fit, st, x.s, x.ctx).0; st'.runStarted == FiniteOf(Some(x.s.t)) && st'.initialized && (st'.sub == st.sub || st'.sub == Done)
    ensures Step(fit, st, x.s, x.ctx).0.commandedAt == st.commandedAt
  {
    hide ContextKey, ObserveAll, Bases, GuardTrips;
  }

  /** Before the run begins nothing is adopted. */
  predicate Unbegun(st: State) {
    !st.initialized ==> (st.sub == Settle || st.sub == Done) && st.commandedAt.None? && st.lastAt.None?
  }

  lemma {:induction false} StepKeepsBase(fit: Fitter, run: seq<Input>, st: State, x: Input)
    requires Based(run, st) && Unbegun(st)
    ensures Based(run + [x], Step(fit, st, x.s, x.ctx).0) && Unbegun(Step(fit, st, x.s, x.ctx).0)
  {
    hide OnSettle, OnRecovery, OnResponse, Retry, Bases, GuardTrips, KeyChanged, Timed, FreezeKey, FirstGates, SameBase, Begin;
    StartSnoc(run, x);
    var st' := Step(fit, st, x.s, x.ctx).0;
    if ClockBad(st, x.s) {
      assert st'.sub == Done;
    } else if !st.initialized {
      BegunBases(fit, run, st, x);
    } else {
      KeyedBase(st, x);
      TimedBase(st, x);
      var keyed := FreezeKey(Timed(st, x.s.t.v, x.s, x.ctx), x.ctx);
      PhaseKeepsBase(fit, run, st, keyed, x);
    }
  }

  lemma {:induction false} TimedBase(st: State, x: Input)
    requires st.initialized && !ClockBad(st, x.s)
    ensures SameBase(st, Timed(st, x.s.t.v, x.s, x.ctx))
  {
  }

  lemma {:induction false} PhaseKeepsBase(fit: Fitter, run: seq<Input>, st: State, keyed: State, x: Input)
    requires Based(run, st) && st.initialized && !ClockBad(st, x.s)
    requires keyed == FreezeKey(Timed(st, x.s.t.v, x.s, x.ctx), x.ctx)
    requires SameBase(st, keyed) && keyed.sub == st.sub && keyed.commandedAt == st.commandedAt
    requires SameBase(st, Timed(st, x.s.t.v, x.s, x.ctx))
    ensures var st' := Step(fit, st, x.s, x.ctx).0;
            && st'.runStarted == st.runStarted && st'.initialized
            && ((st'.sub == Settle && st'.commandedAt.Some?) || st'.sub == CpuStep || st'.sub == RecoverGpu || st'.sub == GpuStep ==>
                  exists i :: 0 <= i < |run + [x]| && Bases((run + [x])[i], st'.runStarted, st'))
  {
    hide OnSettle, OnRecovery, OnResponse, Retry, Bases, GuardTrips, KeyChanged, Timed, FreezeKey;
    var timed := Timed(st, x.s.t.v, x.s, x.ctx);
    var st' := Step(fit, st, x.s, x.ctx).0;
    if !GuardTrips(timed, x.s, x.ctx) && !KeyChanged(timed, x.ctx) {
      if (st.sub == Settle && st.commandedAt.Some?) || st.sub == CpuStep || st.sub == RecoverGpu || st.sub == GpuStep {
        var i :| 0 <= i < |run| && Bases(run[i], st.runStarted, st);
        SameBases(run[i], st, keyed);
      }
      if x.ctx.cpuReset {
        RetryBases(keyed, x.s.t.v);
        if st'.sub != Settle && st'.sub != Done {
          BaseStays(run, x, keyed, st');
        }
      } else {
        match st.sub {
          case Settle => SettleBases(run, keyed, x.s.t.v, x);
          case CpuStep =>
            ResponseBases(fit, keyed, x.s.t.v, x.ctx, Cpu);
            BaseStays(run, x, keyed, st');
          case RecoverGpu =>
            RecoveryBases(keyed, x.s.t.v, x);
            BaseStays(run, x, keyed, st');
          case GpuStep =>
            ResponseBases(fit, keyed, x.s.t.v, x.ctx, Gpu);
            BaseStays(run, x, keyed, st');
          case Done =>
        }
      }
    }
  }

  lemma {:induction false} RunIsBased(fit: Fitter, run: seq<Input>)
    ensures Based(run, After(fit, run)) && Unbegun(After(fit, run))
  {
    hide Step;
    if run != [] {
      hide Based, Unbegun;
      var front, x := run[..|run| - 1], run[|run| - 1];
      RunIsBased(fit, front);
      StepKeepsBase(fit, front, After(fit, front), x);
      assert front + [x] == run;
    }
  }

  // ---- The two steps ----

  /** The batch asks one device for one step above a pair this sample reports. */
  predicate Asks(x: Input, start: Option<real>, device: Device, batch: seq<Effect>) {
    && x.ctx.cpuCap.Some? && x.ctx.gpuCap.Some? && Reports(x, start, x.ctx.cpuCap.value, x.ctx.gpuCap.value)
    && batch == match device
                case Cpu => [SetCpu(WattsUp(x, x.ctx.cpuCap.value))]
                case Gpu => [SetGpu(MhzUp(x, x.ctx.gpuCap.value))]
  }

  lemma {:induction false} BasesAsk(x: Input, st: State)
    requires Bases(x, st.runStarted, st)
    ensures Asks(x, st.runStarted, Cpu, [SetCpu(st.stepCpu)]) && Asks(x, st.runStarted, Gpu, [SetGpu(st.stepGpu)])
  {
  }

  lemma {:induction false} EntryBatch(fit: Fitter, st: State, x: Input)
    requires Unbegun(st)
    ensures var (st', batch) := Step(fit, st, x.s, x.ctx);
            && (st.sub == Settle && st'.sub == CpuStep ==> batch == [SetCpu(st'.stepCpu)])
            && (st.sub == RecoverGpu && st'.sub == GpuStep ==> batch == [SetGpu(st'.stepGpu)])
  {
    hide OnResponse, OnSettle, OnRecovery, GuardTrips, ContextKey, ObserveAll;
    if !ClockBad(st, x.s) {
      var keyed := FreezeKey(Timed(st, x.s.t.v, x.s, x.ctx), x.ctx);
      SettleEntry(keyed, x.s.t.v, x);
      if keyed.sub == RecoverGpu {
        RecoveryBases(keyed, x.s.t.v, x);
      }
    }
  }

  lemma {:induction false} SettleEntry(st: State, now: real, x: Input)
    ensures var (st', batch) := OnSettle(st, now, x.s, x.ctx); st.sub == Settle && st'.sub == CpuStep ==> batch == [SetCpu(st'.stepCpu)]
  {
    hide Watch, AllSatisfied, CanAdopt, Adopt;
    var adopted := Adopt(st, now, x.ctx);
    AdoptKeepsStart(st, now, x.ctx);
    WatchKeepsBase(adopted, now, x.s, x.ctx, SettleHeld(adopted, x.ctx));
  }

  /** Entering either step asks for exactly that one write: fifteen watts, or
      500 MHz, above a pair the run reported verified with both writes completed
      since it began, and never above the reported maximum. */
  lemma {:induction false} StepsAskOneStepAbove(fit: Fitter, run: seq<Input>, x: Input)
    ensures var st := After(fit, run);
            var (st', batch) := Step(fit, st, x.s, x.ctx);
            && (st.sub == Settle && st'.sub == CpuStep ==>
                  exists i :: 0 <= i < |run + [x]| && Asks((run + [x])[i], StartOf(run + [x]), Cpu, batch))
            && (st.sub == RecoverGpu && st'.sub == GpuStep ==>
                  exists i :: 0 <= i < |run + [x]| && Asks((run + [x])[i], StartOf(run + [x]), Gpu, batch))
  {
    hide Step, After, Asks, Bases;
    var st := After(fit, run);
    var st' := Step(fit, st, x.s, x.ctx).0;
    RunIsBased(fit, run);
    StepKeepsBase(fit, run, st, x);
    EntryBatch(fit, st, x);
    if st'.sub == CpuStep || st'.sub == GpuStep {
      var i :| 0 <= i < |run + [x]| && Bases((run + [x])[i], st'.runStarted, st');
      BasesAsk((run + [x])[i], st');
    }
  }

  /** The pair a fitted batch puts back, against which the step was measured,
      is one the run reported verified. */
  lemma {:induction false} FittedPairWasReported(fit: Fitter, run: seq<Input>, x: Input, d: Device, gains: F.Gains)
    requires Fitted(d, gains) in Step(fit, After(fit, run), x.s, x.ctx).1
    ensures var batch := Step(fit, After(fit, run), x.s, x.ctx).1;
            && |batch| >= 2 && batch[0].SetCpu? && batch[1].SetGpu?
            && exists i :: 0 <= i < |run| && Reports(run[i], StartOf(run), batch[0].watts, batch[1].mhz)
  {
    hide Step, After, OnResponse;
    var st := After(fit, run);
    T.FittedOnlyInSteps(fit, st, x, d, gains);
    var keyed := FreezeKey(Timed(st, x.s.t.v, x.s, x.ctx), x.ctx);
    KeyedBase(st, x);
    T.SteppedBatch(fit, st, x);
    BatchDevice(fit, keyed, x, PhaseDevice(st), d, gains);
    T.ConclusionBatch(fit, keyed, x, d, gains);
    RunIsBased(fit, run);
  }

  lemma {:induction false} BatchDevice(fit: Fitter, st: State, x: Input, device: Device, d: Device, gains: F.Gains)
    requires x.s.t.Finite? && Fitted(d, gains) in OnResponse(fit, st, x.s.t.v, x.ctx, device).1
    ensures d == device
  {
    hide PairHeld, Conclude;
    T.ConcludeKind(fit, T.Extended(st, x, device), device) by { hide ContextKey; }
  }
}
