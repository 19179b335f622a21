/** What the windows and the response trace say about the samples that made
    them: a device is stepped only after certified steadiness, and fitted only
    from a contiguous trace taken while the stepped pair was verified. */
module StepHistory {
  import opened Prelude
  import opened TimedWindow
  import opened StepTest

  datatype Quantity = CpuGroup | GpuGroup | Fan

  function Value(q: Quantity, x: Input): Option<real> {
    match q
    case CpuGroup => FiniteOf(x.ctx.cpuGroup)
    case GpuGroup => FiniteOf(x.ctx.gpuGroup)
    case Fan => FiniteOf(x.s.fan)
  }

  function WindowOf(st: State, q: Quantity): seq<Reading> {
    match q case CpuGroup => st.cpuWindow case GpuGroup => st.gpuWindow case Fan => st.fanWindow
  }

  function Horizon(q: Quantity): real {
    if q == Fan then FAN_WINDOW_S else GROUP_WINDOW_S
  }

  function Tolerance(q: Quantity): real {
    match q case CpuGroup => CPU_GROUP_SPAN_C case GpuGroup => GPU_GROUP_SPAN_C case Fan => FAN_SPAN_RPM
  }

  /** A sample with both caps verified at the pair and the fan loop quiet. */
  predicate Certified(x: Input, cpu: real, gpu: nat) {
    PairHeld(x.ctx, cpu, gpu) && LoopQuiet(x.ctx)
  }

  predicate Tells(x: Input, r: Reading, q: Quantity, cpu: real, gpu: nat) {
    x.s.t == Finite(r.at) && Value(q, x) == Some(r.value) && Certified(x, cpu, gpu)
  }

  /** The window holds, one by one, what the last samples of the run read. */
  ghost predicate Mirrors(run: seq<Input>, w: seq<Reading>, q: Quantity, cpu: real, gpu: nat) {
    && |w| <= |run|
    && forall i :: 0 <= i < |w| ==> Tells(run[|run| - |w| + i], w[i], q, cpu, gpu)
  }

  lemma {:induction false} TrimMirrors(run: seq<Input>, w: seq<Reading>, q: Quantity, cpu: real, gpu: nat, now: real, horizon: real)
    requires Mirrors(run, w, q, cpu, gpu)
    ensures Mirrors(run, Trim(w, now, horizon), q, cpu, gpu)
    decreases |w|
  {
    hide Tells;
    if |w| >= 2 && now - w[1].at >= horizon {
      assert forall i :: 0 <= i < |w[1..]| ==> w[1..][i] == w[i + 1];
      TrimMirrors(run, w[1..], q, cpu, gpu, now, horizon);
    }
  }

  lemma {:induction false} PushMirrors(run: seq<Input>, w: seq<Reading>, x: Input, q: Quantity, cpu: real, gpu: nat, now: real, horizon: real)
    requires Mirrors(run, w, q, cpu, gpu) && x.s.t == Finite(now) && Certified(x, cpu, gpu)
    ensures Mirrors(run + [x], Push(w, Value(q, x), now, horizon), q, cpu, gpu)
  {
    if Value(q, x).Some? {
      var w' := w + [Reading(now, Value(q, x).value)];
      var run' := run + [x];
      forall i | 0 <= i < |w'| ensures Tells(run'[|run'| - |w'| + i], w'[i], q, cpu, gpu) {
        assert i < |w| ==> run'[|run'| - |w'| + i] == run[|run| - |w| + i];
        hide Certified;
      }
      hide Tells;
      TrimMirrors(run', w', q, cpu, gpu, now, horizon);
    }
  }

  /** While settling or recovering, all three windows mirror certified
      samples; before a baseline is adopted they are empty. */
  ghost predicate Watching(run: seq<Input>, st: State) {
    && (!st.initialized ==> st.sub == Settle || st.sub == Done)
    && (st.sub == Settle || st.sub == RecoverGpu ==> forall q :: Mirrors(run, WindowOf(st, q), q, st.baseCpu, st.baseGpu))
    && (st.sub == Settle && (!st.initialized || st.commandedAt.None?) ==> Emptied(st))
  }

  predicate Emptied(st: State) {
    st.cpuWindow == [] && st.gpuWindow == [] && st.fanWindow == []
  }

  lemma {:induction false} EmptiedMirrors(run: seq<Input>, st: State)
    requires Emptied(st)
    ensures forall q, cpu, gpu :: Mirrors(run, WindowOf(st, q), q, cpu, gpu)
  {
    hide Tells;
  }

  lemma {:induction false} WatchMirrors(run: seq<Input>, st: State, x: Input, now: real, capsHeld: bool)
    requires x.s.t == Finite(now)
    requires capsHeld ==> PairHeld(x.ctx, st.baseCpu, st.baseGpu)
    requires capsHeld ==> forall q :: Mirrors(run, WindowOf(st, q), q, st.baseCpu, st.baseGpu)
    ensures var st' := Watch(st, now, x.s, x.ctx, capsHeld);
            forall q :: Mirrors(run + [x], WindowOf(st', q), q, st.baseCpu, st.baseGpu)
  {
    hide Mirrors, ObserveAll, Push, PairHeld, LoopQuiet, Flats;
    var st' := Watch(st, now, x.s, x.ctx, capsHeld);
    if capsHeld && LoopQuiet(x.ctx) {
      forall q ensures Mirrors(run + [x], WindowOf(st', q), q, st.baseCpu, st.baseGpu) {
        PushMirrors(run, WindowOf(st, q), x, q, st.baseCpu, st.baseGpu, now, Horizon(q));
      }
    } else {
      EmptiedMirrors(run + [x], st');
    }
  }

  /** What one settling sample leaves in the windows. */
  lemma {:induction false} SettleMirrors(run: seq<Input>, st: State, x: Input, now: real)
    requires st.sub == Settle && x.s.t == Finite(now) && st.initialized && Watching(run, st)
    ensures var adopted := Adopt(st, now, x.ctx);
            var st' := Watch(adopted, now, x.s, x.ctx, SettleHeld(adopted, x.ctx));
            && (forall q :: Mirrors(run + [x], WindowOf(st', q), q, st'.baseCpu, st'.baseGpu))
            && (st'.commandedAt.None? ==> Emptied(st'))
  {
    hide Mirrors, ObserveAll, Push, PairHeld, Flats, CanAdopt;
    var adopted := Adopt(st, now, x.ctx);
    if CanAdopt(st, now, x.ctx) {
      CanAdoptNeedsNoPair(st, now, x.ctx);
      EmptiedMirrors(run, adopted);
    }
    WatchMirrors(run, adopted, x, now, SettleHeld(adopted, x.ctx));
  }

  lemma {:induction false} CanAdoptNeedsNoPair(st: State, now: real, ctx: Context)
    ensures CanAdopt(st, now, ctx) ==> st.commandedAt.None?
  {
  }

  lemma {:induction false} DispatchWatches(fit: Fitter, run: seq<Input>, st: State, x: Input, now: real)
    requires x.s.t == Finite(now) && st.initialized && Watching(run, st)
    ensures Watching(run + [x], Dispatch(fit, st, now, x.s, x.ctx).0)
  {
    hide Mirrors, Conclude, PairHeld, GroupOf, NoteApplied, AllSatisfied, Push, ObserveAll, CanAdopt, RecoveryHeld, SettleHeld;
    var st' := Dispatch(fit, st, now, x.s, x.ctx).0;
    match st.sub {
      case Settle => SettleMirrors(run, st, x, now);
      case RecoverGpu =>
        RecoveryNeedsPair(st, now, x.ctx);
        WatchMirrors(run, st, x, now, RecoveryHeld(st, now, x.ctx));
      case _ => StepsKeepWatching(fit, run, st, x, now);
    }
  }

  lemma {:induction false} RecoveryNeedsPair(st: State, now: real, ctx: Context)
    ensures RecoveryHeld(st, now, ctx) ==> PairHeld(ctx, st.baseCpu, st.baseGpu)
  {
  }

  lemma {:induction false} StepsKeepWatching(fit: Fitter, run: seq<Input>, st: State, x: Input, now: real)
    requires st.initialized && (st.sub == CpuStep || st.sub == GpuStep || st.sub == Done)
    ensures Watching(run + [x], Dispatch(fit, st, now, x.s, x.ctx).0)
  {
    hide Mirrors, Conclude, PairHeld, GroupOf, StepHeld;
    var st' := Dispatch(fit, st, now, x.s, x.ctx).0;
    if Emptied(st') {
      EmptiedMirrors(run + [x], st');
    }
  }

  lemma {:induction false} RetryWatches(run: seq<Input>, st: State, x: Input, now: real)
    requires st.initialized
    ensures Watching(run + [x], Retry(st, now).0)
  {
    hide Mirrors;
    var st' := Retry(st, now).0;
    if Emptied(st') {
      EmptiedMirrors(run + [x], st');
    }
  }

  lemma {:induction false} StepWatches(fit: Fitter, run: seq<Input>, st: State, x: Input)
    requires Watching(run, st)
    ensures Watching(run + [x], Step(fit, st, x.s, x.ctx).0)
  {
    hide Mirrors, Dispatch, Retry, ContextKey, GuardTrips, ObserveAll;
    if !ClockBad(st, x.s) {
      var now := x.s.t.v;
      var keyed := FreezeKey(Timed(st, now, x.s, x.ctx), x.ctx);
      assert forall q :: WindowOf(keyed, q) == WindowOf(st, q);
      if st.initialized {
        DispatchWatches(fit, run, keyed, x, now);
        RetryWatches(run, keyed, x, now);
      } else if st.sub == Settle {
        EmptiedMirrors(run + [x], FirstGates(keyed, now, x.ctx));
      }
    }
  }

  lemma {:induction false} RunWatches(fit: Fitter, run: seq<Input>)
    ensures Watching(run, After(fit, run))
  {
    hide Step, Mirrors;
    if run == [] {
      EmptiedMirrors(run, INITIAL);
    } else {
      hide Watching;
      var front, x := run[..|run| - 1], run[|run| - 1];
      RunWatches(fit, front);
      StepWatches(fit, front, After(fit, front), x);
      assert front + [x] == run;
    }
  }

  // ---- Entering a step ----

  /** From sample k on, every sample is certified at the pair and reads the
      quantity, no two readings differ by more than the tolerance, and sample
      k is already a full horizon old. */
  ghost predicate SteadyFrom(run: seq<Input>, k: nat, q: Quantity, cpu: real, gpu: nat) {
    && k < |run|
    && (forall i :: k <= i < |run| ==> run[i].s.t.Finite? && Value(q, run[i]).Some? && Certified(run[i], cpu, gpu))
    && run[|run| - 1].s.t.v - run[k].s.t.v >= Horizon(q)
    && forall i, j :: k <= i < |run| && k <= j < |run| ==> Value(q, run[i]).value - Value(q, run[j]).value <= Tolerance(q)
  }

  ghost predicate Steady(run: seq<Input>, cpu: real, gpu: nat) {
    forall q :: SteadySince(run, q, cpu, gpu)
  }

  ghost predicate SteadySince(run: seq<Input>, q: Quantity, cpu: real, gpu: nat) {
    exists k: nat :: SteadyFrom(run, k, q, cpu, gpu)
  }

  lemma {:induction false} FlatMirrorIsSteady(run: seq<Input>, w: seq<Reading>, q: Quantity, cpu: real, gpu: nat)
    requires Mirrors(run, w, q, cpu, gpu) && SpanWithin(w, Horizon(q), Tolerance(q))
    ensures SteadyFrom(run, |run| - |w|, q, cpu, gpu)
  {
    hide Value, Certified, SpanWithin, Mirrors, Tells, Tolerance, Horizon, FlatFrom;
    SpanWithinMeaning(w, Horizon(q), Tolerance(q));
    MirrorsFit(run, w, q, cpu, gpu);
    var k := |run| - |w|;
    forall i | k <= i < |run|
      ensures run[i].s.t == Finite(w[i - k].at) && Value(q, run[i]) == Some(w[i - k].value) && Certified(run[i], cpu, gpu)
    {
      MirrorTells(run, w, q, cpu, gpu, i - k);
    }
    forall i, j | k <= i < |run| && k <= j < |run|
      ensures Value(q, run[i]).value - Value(q, run[j]).value <= Tolerance(q)
    {
      FlatPair(w, Tolerance(q), i - k, j - k);
    }
  }

  lemma {:induction false} MirrorTells(run: seq<Input>, w: seq<Reading>, q: Quantity, cpu: real, gpu: nat, i: nat)
    requires Mirrors(run, w, q, cpu, gpu) && i < |w|
    ensures |w| <= |run|
    ensures var x := run[|run| - |w| + i];
            x.s.t == Finite(w[i].at) && Value(q, x) == Some(w[i].value) && Certified(x, cpu, gpu)
  {
    hide Certified, Value;
    assert Tells(run[|run| - |w| + i], w[i], q, cpu, gpu);
  }

  lemma {:induction false} FlatPair(w: seq<Reading>, tolerance: real, i: nat, j: nat)
    requires FlatFrom(w, 0, tolerance) && i < |w| && j < |w|
    ensures w[i].value - w[j].value <= tolerance
  {
  }

  lemma {:induction false} SettledMirrorsAreSteady(run: seq<Input>, st: State)
    requires forall q :: Mirrors(run, WindowOf(st, q), q, st.baseCpu, st.baseGpu)
    requires forall q :: SpanWithin(WindowOf(st, q), Horizon(q), Tolerance(q))
    ensures Steady(run, st.baseCpu, st.baseGpu)
  {
    hide Mirrors, SpanWithin, SteadyFrom;
    forall q ensures SteadySince(run, q, st.baseCpu, st.baseGpu) {
      FlatMirrorIsSteady(run, WindowOf(st, q), q, st.baseCpu, st.baseGpu);
      assert |WindowOf(st, q)| <= |run| by { MirrorsFit(run, WindowOf(st, q), q, st.baseCpu, st.baseGpu); }
    }
  }

  lemma {:induction false} MirrorsFit(run: seq<Input>, w: seq<Reading>, q: Quantity, cpu: real, gpu: nat)
    requires Mirrors(run, w, q, cpu, gpu)
    ensures |w| <= |run|
  {
    hide Tells;
  }

  /** All gates passed on this sample. */
  lemma {:induction false} PassedGatesAreSteady(run: seq<Input>, st: State, x: Input, now: real, capsHeld: bool)
    requires var st' := Watch(st, now, x.s, x.ctx, capsHeld);
             && AllSatisfied(st'.gates)
             && forall q :: Mirrors(run + [x], WindowOf(st', q), q, st'.baseCpu, st'.baseGpu)
    ensures Steady(run + [x], st.baseCpu, st.baseGpu)
  {
    hide Mirrors, SpanWithin, AllSatisfied, ObserveAll, Push, Steady;
    SettledMeans(st, now, x.s, x.ctx, capsHeld);
    SettledMirrorsAreSteady(run + [x], Watch(st, now, x.s, x.ctx, capsHeld));
  }

  /** The state a sample's phase is dispatched on. */
  function Entered(st: State, x: Input): State
    requires x.s.t.Finite?
  {
    FreezeKey(Timed(st, x.s.t.v, x.s, x.ctx), x.ctx)
  }

  lemma {:induction false} OnlySettlingEnters(fit: Fitter, st: State, x: Input)
    requires var st' := Step(fit, st, x.s, x.ctx).0; st'.sub != st.sub && (st'.sub == CpuStep || st'.sub == GpuStep)
    ensures !ClockBad(st, x.s) && st.initialized
    ensures Step(fit, st, x.s, x.ctx) == Dispatch(fit, Entered(st, x), x.s.t.v, x.s, x.ctx)
    ensures st.sub == Settle || st.sub == RecoverGpu
    ensures st.sub == Settle <==> Step(fit, st, x.s, x.ctx).0.sub == CpuStep
  {
    hide ObserveAll, GuardTrips, ContextKey, Dispatch;
    if !ClockBad(st, x.s) && st.initialized {
      DispatchEnters(fit, Entered(st, x), x, x.s.t.v);
    }
  }

  lemma {:induction false} DispatchEnters(fit: Fitter, st: State, x: Input, now: real)
    ensures var sub' := Dispatch(fit, st, now, x.s, x.ctx).0.sub;
            && (sub' == CpuStep ==> st.sub == CpuStep || st.sub == Settle)
            && (sub' == GpuStep ==> st.sub == GpuStep || st.sub == RecoverGpu)
  {
    hide ObserveAll, Push, Flats, Conclude, PairHeld, GroupOf, AllSatisfied, CanAdopt, RecoveryHeld, SettleHeld;
  }

  lemma {:induction false} EntryIsSteady(fit: Fitter, run: seq<Input>, st: State, x: Input, now: real)
    requires x.s.t == Finite(now) && st.initialized && Watching(run, st) && (st.sub == Settle || st.sub == RecoverGpu)
    requires var st' := Dispatch(fit, st, now, x.s, x.ctx).0; st'.sub == CpuStep || st'.sub == GpuStep
    ensures var st' := Dispatch(fit, st, now, x.s, x.ctx).0; Steady(run + [x], st'.baseCpu, st'.baseGpu)
  {
    hide Mirrors, PairHeld, AllSatisfied, Push, ObserveAll, CanAdopt, RecoveryHeld, SettleHeld, Steady, Flats;
    if st.sub == Settle {
      SettleMirrors(run, st, x, now);
      var adopted := Adopt(st, now, x.ctx);
      PassedGatesAreSteady(run, adopted, x, now, SettleHeld(adopted, x.ctx));
    } else {
      RecoveryNeedsPair(st, now, x.ctx);
      WatchMirrors(run, st, x, now, RecoveryHeld(st, now, x.ctx));
      PassedGatesAreSteady(run, st, x, now, RecoveryHeld(st, now, x.ctx));
    }
  }

  /** A device is stepped only from certified steadiness: in every run, when a
      sample enters the CPU or the GPU step, the groups were flat over a
      minute and the fans over twenty seconds, every sample of those stretches
      having both caps verified at the baseline and the fan loop quiet. */
  lemma {:induction false} StepsStartSteady(fit: Fitter, run: seq<Input>, x: Input)
    ensures Enters(After(fit, run), Step(fit, After(fit, run), x.s, x.ctx).0) ==>
              var st' := Step(fit, After(fit, run), x.s, x.ctx).0;
              Steady(run + [x], st'.baseCpu, st'.baseGpu)
  {
    hide After, Step, Dispatch, Watching, Steady, Mirrors;
    var st := After(fit, run);
    if Enters(st, Step(fit, st, x.s, x.ctx).0) {
      RunWatches(fit, run);
      OnlySettlingEnters(fit, st, x);
      EnteredWatches(run, st, x);
      EntryIsSteady(fit, run, Entered(st, x), x, x.s.t.v);
    }
  }

  /** A transition into the CPU or the GPU step. */
  predicate Enters(st: State, st': State) {
    st'.sub != st.sub && (st'.sub == CpuStep || st'.sub == GpuStep)
  }

  lemma {:induction false} EnteredWatches(run: seq<Input>, st: State, x: Input)
    requires Watching(run, st) && st.initialized && x.s.t.Finite?
    ensures Watching(run, Entered(st, x)) && Entered(st, x).initialized && Entered(st, x).sub == st.sub
  {
    hide Mirrors, ContextKey;
    assert forall q :: WindowOf(Entered(st, x), q) == WindowOf(st, q);
  }

  // ---- How long a gate has held ----

  datatype Observation = Observation(at: real, ok: bool)

  function GateAfter(seen: seq<Observation>): GateDuration {
    if seen == [] then FRESH_GATE else GateAfter(seen[..|seen| - 1]).Observe(seen[|seen| - 1].at, seen[|seen| - 1].ok)
  }

  /** Index k opens the last stretch of equal verdicts. */
  predicate OpensLastStretch(seen: seq<Observation>, k: nat) {
    && k < |seen|
    && (forall i :: k <= i < |seen| ==> seen[i].ok == seen[|seen| - 1].ok)
    && (k > 0 ==> seen[k - 1].ok != seen[|seen| - 1].ok)
  }

  /** A gate dates its verdict from the first observation of the unbroken
      stretch that ends now. */
  lemma {:induction false} GateDatesItsStretch(seen: seq<Observation>) returns (k: nat)
    requires seen != []
    ensures OpensLastStretch(seen, k)
    ensures GateAfter(seen) == GateDuration(seen[|seen| - 1].ok, true, seen[k].at, seen[|seen| - 1].at)
  {
    var n := |seen| - 1;
    if n == 0 {
      k := 0;
    } else {
      var front := seen[..n];
      var j := GateDatesItsStretch(front);
      k := if seen[n].ok == seen[n - 1].ok then j else n;
      assert forall i :: 0 <= i < n ==> front[i] == seen[i];
    }
  }

  // ---- The hot streak of the thermal guard ----

  /** The clock accepts a sample that is not before the last accepted one. */
  predicate Accepts(counted: seq<Input>, x: Input) {
    x.s.t.Finite? && (counted != [] && counted[|counted| - 1].s.t.Finite? ==> x.s.t.v >= counted[|counted| - 1].s.t.v)
  }

  /** The samples of a run that the clock accepted; only they are counted. */
  function Counted(run: seq<Input>): seq<Input> {
    if run == [] then []
    else
      var front := Counted(run[..|run| - 1]);
      if Accepts(front, run[|run| - 1]) then front + [run[|run| - 1]] else front
  }

  predicate CpuHot(x: Input) {
    AtLeast(x.s.cpuTemp, x.ctx.cpuHot)
  }

  function HotTail(xs: seq<Input>): nat {
    if xs != [] && CpuHot(xs[|xs| - 1]) then HotTail(xs[..|xs| - 1]) + 1 else 0
  }

  predicate LastThreeHot(xs: seq<Input>) {
    |xs| >= CPU_HOT_SAMPLES && CpuHot(xs[|xs| - 1]) && CpuHot(xs[|xs| - 2]) && CpuHot(xs[|xs| - 3])
  }

  predicate SameStreak(st: State, st': State) {
    st'.hotStreak == st.hotStreak && st'.lastAt == st.lastAt
  }

  lemma {:induction false} SettlingKeepsStreak(st: State, now: real, s: Sample, ctx: Context)
    ensures SameStreak(st, OnSettle(st, now, s, ctx).0)
  {
    hide ObserveAll, AllSatisfied, Push, LoopQuiet, PairHeld, CanAdopt, Flats;
  }

  lemma {:induction false} RecoveryKeepsStreak(st: State, now: real, s: Sample, ctx: Context)
    ensures SameStreak(st, OnRecovery(st, now, s, ctx).0)
  {
    hide ObserveAll, AllSatisfied, Push, LoopQuiet, PairHeld, CanAdopt, Flats;
  }

  lemma {:induction false} EndsKeepStreak(st: State, now: real, ctx: Context)
    ensures SameStreak(st, Retry(st, now).0) && SameStreak(st, Abort(st).0) && SameStreak(st, FirstGates(st, now, ctx))
  {
    hide ObserveAll;
  }

  lemma {:induction false} ResponseKeepsStreak(fit: Fitter, st: State, now: real, ctx: Context, device: Device)
    ensures SameStreak(st, OnResponse(fit, st, now, ctx, device).0)
  {
    hide Conclude, PairHeld, GroupOf;
  }

  lemma {:induction false} StepKeepsStreak(fit: Fitter, st: State, x: Input)
    ensures SameStreak(if ClockBad(st, x.s) then st else Timed(st, x.s.t.v, x.s, x.ctx), Step(fit, st, x.s, x.ctx).0)
  {
    hide OnSettle, OnRecovery, OnResponse, Retry, Abort, FirstGates, Timed, GuardTrips, KeyChanged, ContextKey;
    var timed := if ClockBad(st, x.s) then st else Timed(st, x.s.t.v, x.s, x.ctx);
    var now := if x.s.t.Finite? then x.s.t.v else 0.0;
    EndsKeepStreak(timed, now, x.ctx);
    var keyed := FreezeKey(timed, x.ctx);
    EndsKeepStreak(keyed, now, x.ctx);
    SettlingKeepsStreak(keyed, now, x.s, x.ctx);
    RecoveryKeepsStreak(keyed, now, x.s, x.ctx);
    ResponseKeepsStreak(fit, keyed, now, x.ctx, Cpu);
    ResponseKeepsStreak(fit, keyed, now, x.ctx, Gpu);
  }

  lemma {:induction false} TimedCounts(st: State, x: Input)
    requires x.s.t.Finite?
    ensures var timed := Timed(st, x.s.t.v, x.s, x.ctx);
            timed.lastAt == Some(x.s.t.v) && timed.hotStreak == if CpuHot(x) then MinN(st.hotStreak + 1, U8_MAX) else 0
  {
    hide ContextKey;
  }

  /** In every run the streak is the number of hot samples at the end of the
      accepted ones, up to 255, and the clock is the last of them. */
  lemma {:induction false} StreakIsHotTail(fit: Fitter, run: seq<Input>)
    ensures var st, counted := After(fit, run), Counted(run);
            && st.hotStreak == MinN(HotTail(counted), U8_MAX)
            && (if counted == [] then st.lastAt == None
                else counted[|counted| - 1].s.t.Finite? && st.lastAt == Some(counted[|counted| - 1].s.t.v))
  {
    hide Step, Timed, CpuHot;
    if run != [] {
      var front, x := run[..|run| - 1], run[|run| - 1];
      StreakIsHotTail(fit, front);
      var st := After(fit, front);
      StepKeepsStreak(fit, st, x);
      assert ClockBad(st, x.s) <==> !Accepts(Counted(front), x);
      if !ClockBad(st, x.s) {
        TimedCounts(st, x);
        assert Counted(run)[..|Counted(run)| - 1] == Counted(front);
      }
    }
  }

  lemma {:induction false} TailOfThree(xs: seq<Input>)
    ensures HotTail(xs) >= CPU_HOT_SAMPLES <==> LastThreeHot(xs)
  {
    hide CpuHot;
    if xs != [] && CpuHot(xs[|xs| - 1]) {
      var a := xs[..|xs| - 1];
      if a != [] && CpuHot(a[|a| - 1]) {
        var b := a[..|a| - 1];
        assert HotTail(xs) == HotTail(b) + 2;
      }
    }
  }

  /** The thermal guard trips on a sample exactly when the embedded controller
      reads 95 or more, the GPU is hot, or this and the two accepted samples
      before it were all CPU-hot; the run is then over. */
  lemma {:induction false} GuardTripsMeaning(fit: Fitter, run: seq<Input>, x: Input)
    requires Accepts(Counted(run), x)
    ensures var st := After(fit, run);
            && !ClockBad(st, x.s)
            && (GuardTrips(Timed(st, x.s.t.v, x.s, x.ctx), x.s, x.ctx) <==>
                  || (x.s.ecMax.Some? && x.s.ecMax.value >= EC_MAX_ABORT_C)
                  || AtLeast(x.s.gpuTemp, x.ctx.gpuHot)
                  || LastThreeHot(Counted(run) + [x]))
            && (GuardTrips(Timed(st, x.s.t.v, x.s, x.ctx), x.s, x.ctx) ==> Step(fit, st, x.s, x.ctx).0.sub == Done)
  {
    hide After, Timed, Dispatch, Retry, FirstGates, KeyChanged, LastThreeHot, CpuHot;
    StreakIsHotTail(fit, run);
    TimedCounts(After(fit, run), x);
    var all := Counted(run) + [x];
    assert all[..|all| - 1] == Counted(run);
    TailOfThree(all);
  }
}
