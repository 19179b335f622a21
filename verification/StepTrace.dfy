/** Every fitted response is one contiguous stretch of the run's last samples,
    taken while the stepped pair was verified. */
module StepTrace {
  import opened Prelude
  import opened StepTest
  import opened TimedWindow
  import LS = LeastSquares
  import F = Fopdt
  import FP = FopdtProofs

  function StepOf(device: Device): Sub {
    if device == Cpu then CpuStep else GpuStep
  }

  /** The verified pair of a step: the stepped device at its applied cap, the
      other at the baseline. */
  function AppliedPair(st: State, device: Device): (real, nat) {
    match device
    case Cpu => (OrElse(st.appliedCpu, st.stepCpu), st.baseGpu)
    case Gpu => (st.baseCpu, OrElse(st.appliedGpu, st.stepGpu))
  }

  /** A sample contributes its group temperature, timed from the applied write. */
  predicate Records(x: Input, p: LS.Point, device: Device, since: real, pair: (real, nat), key: Option<Key>) {
    && x.s.t == Finite(since + p.t)
    && GroupOf(x.ctx, device) == Some(p.y)
    && PairHeld(x.ctx, pair.0, pair.1)
    && ContextKey(x.ctx) == key
    && !x.ctx.cpuReset
  }

  ghost predicate Recorded(run: seq<Input>, trace: seq<LS.Point>, device: Device, since: real, pair: (real, nat), key: Option<Key>) {
    && |trace| <= |run|
    && forall i :: 0 <= i < |trace| ==> Records(run[|run| - |trace| + i], trace[i], device, since, pair, key)
  }

  /** Starts within two seconds, never steps back and never skips more than two seconds. */
  ghost predicate Contiguous(trace: seq<LS.Point>) {
    && (trace != [] ==> trace[0].t <= RESPONSE_MAX_GAP_S)
    && forall i :: 0 <= i < |trace| - 1 ==> trace[i].t <= trace[i + 1].t <= trace[i].t + RESPONSE_MAX_GAP_S
  }

  /** The sample whose verified write the step counts from. */
  predicate Notes(x: Input, st: State, device: Device) {
    match device
    case Cpu => x.ctx.cpuCap == st.appliedCpu && x.ctx.cpuCompletedAt == st.commandedAt
    case Gpu => x.ctx.gpuCap == st.appliedGpu && x.ctx.gpuCompletedAt == st.commandedAt
  }

  /** The response under way at time `last`: nothing is recorded before the
      write is applied, the first sample recorded is the one that reported it,
      and the recording ends at the last response. */
  ghost predicate Collecting(run: seq<Input>, st: State, device: Device, last: real) {
    && st.initialized && st.commandedAt.Some? && st.key.Some?
    && (st.responseLast.Some? <==> st.primary != [])
    && (st.primary == [] ==> !Applied(st, device))
    && (st.primary != [] ==>
          && Applied(st, device)
          && Contiguous(st.primary)
          && Recorded(run, st.primary, device, st.commandedAt.value, AppliedPair(st, device), st.key)
          && Notes(run[|run| - |st.primary|], st, device)
          && st.responseLast == Some(st.commandedAt.value + st.primary[|st.primary| - 1].t)
          && st.responseLast.value <= last)
  }

  ghost predicate Tracing(run: seq<Input>, st: State) {
    && (st.sub == RecoverGpu ==> st.initialized && st.key.Some? && st.appliedGpu.None?)
    && (st.sub == CpuStep ==> st.lastAt.Some? && Collecting(run, st, Cpu, st.lastAt.value))
    && (st.sub == GpuStep ==> st.lastAt.Some? && Collecting(run, st, Gpu, st.lastAt.value))
  }

  lemma {:induction false} RecordOne(run: seq<Input>, trace: seq<LS.Point>, x: Input, p: LS.Point, device: Device,
                                     since: real, pair: (real, nat), key: Option<Key>)
    requires Recorded(run, trace, device, since, pair, key) && Records(x, p, device, since, pair, key)
    ensures Recorded(run + [x], trace + [p], device, since, pair, key)
  {
    hide Records;
    var run', trace' := run + [x], trace + [p];
    forall i | 0 <= i < |trace'| ensures Records(run'[|run'| - |trace'| + i], trace'[i], device, since, pair, key) {
      if i < |trace| {
        assert run'[|run'| - |trace'| + i] == run[|run| - |trace| + i];
      }
    }
  }

  lemma {:induction false} ExtendContiguous(trace: seq<LS.Point>, p: LS.Point)
    requires Contiguous(trace)
    requires if trace == [] then p.t <= RESPONSE_MAX_GAP_S else trace[|trace| - 1].t <= p.t <= trace[|trace| - 1].t + RESPONSE_MAX_GAP_S
    ensures Contiguous(trace + [p])
  {
    var trace' := trace + [p];
    forall i | 0 <= i < |trace'| - 1 ensures trace'[i].t <= trace'[i + 1].t <= trace'[i].t + RESPONSE_MAX_GAP_S {
      if i == |trace| - 1 {
        assert trace'[i] == trace[|trace| - 1] && trace'[i + 1] == p;
      } else {
        assert trace'[i] == trace[i] && trace'[i + 1] == trace[i + 1];
      }
    }
  }

  /** A sample that reaches the recording line of a step. */
  predicate Recording(st: State, x: Input, device: Device) {
    && x.s.t.Finite? && !x.ctx.cpuReset && ContextKey(x.ctx) == st.key
    && var now := x.s.t.v;
       var st' := NoteApplied(st, now, x.ctx, device);
       && Applied(st', device) && StepHeld(st', x.ctx, device) && GroupOf(x.ctx, device).Some?
       && (if st'.responseLast.Some? then now - st'.responseLast.value else now - OrElse(st'.commandedAt, now)) <= RESPONSE_MAX_GAP_S
  }

  /** The trace with the sample recorded. */
  function Extended(st: State, x: Input, device: Device): State
    requires x.s.t.Finite? && GroupOf(x.ctx, device).Some?
  {
    var now := x.s.t.v;
    var st' := NoteApplied(st, now, x.ctx, device);
    st'.(responseLast := Some(now),
         primary := st'.primary + [LS.Point(now - OrElse(st'.commandedAt, now), GroupOf(x.ctx, device).value)])
  }

  lemma {:induction false} ExtendCollects(run: seq<Input>, st: State, x: Input, device: Device, last: real)
    requires x.s.t.Finite? && last <= x.s.t.v
    requires Collecting(run, st, device, last) && Recording(st, x, device)
    ensures Collecting(run + [x], Extended(st, x, device), device, x.s.t.v)
  {
    hide Recorded, PairHeld, Contiguous, ContextKey;
    var now := x.s.t.v;
    var st' := NoteApplied(st, now, x.ctx, device);
    var since := st'.commandedAt.value;
    var p := LS.Point(now - since, GroupOf(x.ctx, device).value);
    assert Records(x, p, device, since, AppliedPair(st', device), st'.key);
    if st.primary == [] {
      NothingRecorded(run, device, since, AppliedPair(st', device), st'.key);
    }
    RecordOne(run, st'.primary, x, p, device, since, AppliedPair(st', device), st'.key);
    ExtendContiguous(st'.primary, p);
  }

  lemma {:induction false} NothingRecorded(run: seq<Input>, device: Device, since: real, pair: (real, nat), key: Option<Key>)
    ensures Recorded(run, [], device, since, pair, key) && Contiguous([])
  {
  }

  /** A response sample keeps collecting, leaves the step, or both records and
      concludes. */
  lemma {:induction false} ResponseCollects(fit: Fitter, run: seq<Input>, st: State, x: Input, device: Device, last: real)
    requires x.s.t.Finite? && last <= x.s.t.v && Collecting(run, st, device, last) && st.sub == StepOf(device)
    requires !x.ctx.cpuReset && ContextKey(x.ctx) == st.key
    ensures var st' := OnResponse(fit, st, x.s.t.v, x.ctx, device).0;
            st'.sub == StepOf(device) ==> Collecting(run + [x], st', device, x.s.t.v)
  {
    hide Recorded, PairHeld, Contiguous, ContextKey, Conclude, HeldPair;
    if Recording(st, x, device) {
      ExtendCollects(run, st, x, device, last);
    }
  }

  lemma {:induction false} StepTraces(fit: Fitter, run: seq<Input>, st: State, x: Input)
    requires Tracing(run, st)
    ensures Tracing(run + [x], Step(fit, st, x.s, x.ctx).0)
  {
    hide Collecting, OnResponse, OnSettle, OnRecovery, ObserveAll, GuardTrips, ContextKey;
    if !ClockBad(st, x.s) {
      var now := x.s.t.v;
      var keyed := FreezeKey(Timed(st, now, x.s, x.ctx), x.ctx);
      TracingIsKeyed(run, st);
      if !GuardTrips(Timed(st, now, x.s, x.ctx), x.s, x.ctx) && !KeyChanged(Timed(st, now, x.s, x.ctx), x.ctx) && !x.ctx.cpuReset {
        match st.sub {
          case Settle => EntryCollects(run + [x], keyed, x, now);
          case RecoverGpu => EntryCollects(run + [x], keyed, x, now);
          case CpuStep =>
            TracingCollects(run, st, Cpu);
            KeyedCollects(run, st, x, Cpu);
            ResponseCollects(fit, run, keyed, x, Cpu, st.lastAt.value);
            ResponseStays(fit, keyed, now, x.ctx, Cpu);
          case GpuStep =>
            TracingCollects(run, st, Gpu);
            KeyedCollects(run, st, x, Gpu);
            ResponseCollects(fit, run, keyed, x, Gpu, st.lastAt.value);
            ResponseStays(fit, keyed, now, x.ctx, Gpu);
          case Done =>
        }
      }
    }
  }

  lemma {:induction false} KeyedCollects(run: seq<Input>, st: State, x: Input, device: Device)
    requires st.lastAt.Some? && Collecting(run, st, device, st.lastAt.value) && !ClockBad(st, x.s)
    requires !KeyChanged(Timed(st, x.s.t.v, x.s, x.ctx), x.ctx)
    ensures var keyed := FreezeKey(Timed(st, x.s.t.v, x.s, x.ctx), x.ctx);
            Collecting(run, keyed, device, st.lastAt.value) && ContextKey(x.ctx) == keyed.key && keyed.sub == st.sub
    ensures var keyed := FreezeKey(Timed(st, x.s.t.v, x.s, x.ctx), x.ctx); keyed.key.Some? && keyed.initialized
  {
    hide Recorded, Contiguous, ContextKey;
  }

  /** A step is entered with nothing recorded, and under a key. */
  lemma {:induction false} EntryCollects(run: seq<Input>, st: State, x: Input, now: real)
    requires st.initialized && (st.sub == RecoverGpu ==> st.key.Some? && st.appliedGpu.None?)
    requires st.lastAt == Some(now)
    ensures st.sub == Settle ==> Tracing(run, OnSettle(st, now, x.s, x.ctx).0)
    ensures st.sub == RecoverGpu ==> Tracing(run, OnRecovery(st, now, x.s, x.ctx).0)
  {
    hide ObserveAll, AllSatisfied, Push, LoopQuiet, PairHeld, CanAdopt, Flats, Recorded, Contiguous, RecoveryHeld, SettleHeld;
  }

  lemma {:induction false} ResponseStays(fit: Fitter, st: State, now: real, ctx: Context, device: Device)
    requires st.sub == StepOf(device)
    ensures var st' := OnResponse(fit, st, now, ctx, device).0;
            && (st'.sub == StepOf(device) || st'.sub == Done || (st'.sub == RecoverGpu && st'.appliedGpu.None?))
            && st'.lastAt == st.lastAt && st'.key == st.key && st'.initialized == st.initialized
  {
    hide Conclude, StepHeld, GroupOf, HeldPair;
  }

  lemma {:induction false} RunTraces(fit: Fitter, run: seq<Input>)
    ensures Tracing(run, After(fit, run))
  {
    hide Step;
    if run != [] {
      hide Tracing;
      var front, x := run[..|run| - 1], run[|run| - 1];
      RunTraces(fit, front);
      StepTraces(fit, front, After(fit, front), x);
      assert front + [x] == run;
    }
  }

  // ---- Fitted traces ----

  /** Gaps of at most two seconds cover six minutes with 180 samples. */
  lemma {:induction false} ContiguousReach(trace: seq<LS.Point>, n: nat)
    requires Contiguous(trace) && n < |trace|
    ensures trace[n].t <= RESPONSE_MAX_GAP_S * (n + 1) as real
  {
    if n > 0 {
      ContiguousReach(trace, n - 1);
    }
  }

  lemma {:induction false} LongTraceIsDense(trace: seq<LS.Point>)
    requires Contiguous(trace) && trace != [] && trace[|trace| - 1].t >= DEVICE_FIT_WINDOW_S
    ensures |trace| >= 180
  {
    ContiguousReach(trace, |trace| - 1);
  }

  /** A fit is only ever asked of a recorded trace that spans the window. */
  ghost predicate FitTrace(run: seq<Input>, trace: seq<LS.Point>, device: Device, since: real, pair: (real, nat), key: Option<Key>) {
    && Recorded(run, trace, device, since, pair, key)
    && Contiguous(trace) && |trace| >= 180
    && trace[|trace| - 1].t >= DEVICE_FIT_WINDOW_S
  }

  predicate Concludes(st: State, x: Input, device: Device) {
    && Recording(st, x, device)
    && var st' := NoteApplied(st, x.s.t.v, x.ctx, device);
       x.s.t.v - OrElse(st'.commandedAt, x.s.t.v) >= DEVICE_FIT_WINDOW_S
  }

  lemma {:induction false} OnlyConclusionsFit(fit: Fitter, st: State, x: Input, device: Device, d: Device, gains: F.Gains)
    requires x.s.t.Finite? && !x.ctx.cpuReset && ContextKey(x.ctx) == st.key
    requires Fitted(d, gains) in OnResponse(fit, st, x.s.t.v, x.ctx, device).1
    ensures d == device && Concludes(st, x, device)
    ensures Conclude(fit, Extended(st, x, device), device) == Fitted(device, gains)
  {
    hide PairHeld, ContextKey, Conclude;
    ConcludeKind(fit, Extended(st, x, device), device);
  }

  lemma {:induction false} ConcludeKind(fit: Fitter, st: State, device: Device)
    ensures var e := Conclude(fit, st, device); e == Noted || (e.Fitted? && e.device == device)
  {
  }

  lemma {:induction false} FittedOnlyInSteps(fit: Fitter, st: State, x: Input, d: Device, gains: F.Gains)
    requires Fitted(d, gains) in Step(fit, st, x.s, x.ctx).1
    ensures !ClockBad(st, x.s) && st.initialized && !x.ctx.cpuReset && st.sub == StepOf(PhaseDevice(st))
    ensures !KeyChanged(Timed(st, x.s.t.v, x.s, x.ctx), x.ctx)
    ensures var keyed := FreezeKey(Timed(st, x.s.t.v, x.s, x.ctx), x.ctx);
            Fitted(d, gains) in OnResponse(fit, keyed, x.s.t.v, x.ctx, PhaseDevice(st)).1
  {
    hide OnResponse, ObserveAll, GuardTrips, ContextKey, Adopt, Watch, AllSatisfied, RecoveryHeld;
  }

  /** Whenever gains are reported, they were fitted to a contiguous trace of at
      least 180 samples reaching from the first two seconds to the end of the
      six-minute window. The trace is exactly the run's last samples, all with
      the stepped pair verified, under the frozen key, and without a reset. */
  lemma {:induction false} FittedTraceIsCertified(fit: Fitter, run: seq<Input>, x: Input, d: Device, gains: F.Gains)
    ensures Fitted(d, gains) in Step(fit, After(fit, run), x.s, x.ctx).1 ==> CertifiedFit(fit, run, After(fit, run), x, d, gains)
  {
    hide Step, After, Tracing, Recorded, Contiguous, ContextKey, PairHeld, OnResponse, Records;
    var st := After(fit, run);
    if Fitted(d, gains) in Step(fit, st, x.s, x.ctx).1 {
      RunTraces(fit, run);
      FittedOnlyInSteps(fit, st, x, d, gains);
      var keyed := FreezeKey(Timed(st, x.s.t.v, x.s, x.ctx), x.ctx);
      TracingCollects(run, st, PhaseDevice(st));
      KeyedCollects(run, st, x, PhaseDevice(st));
      OnlyConclusionsFit(fit, keyed, x, PhaseDevice(st), d, gains);
      ExtendCollects(run, keyed, x, d, st.lastAt.value);
      LongTraceIsDense(Extended(keyed, x, d).primary);
    }
  }

  /** The gains are the fit of a certified trace that this sample completes. */
  ghost predicate CertifiedFit(fit: Fitter, run: seq<Input>, st: State, x: Input, d: Device, gains: F.Gains) {
    && x.s.t.Finite? && GroupOf(x.ctx, d).Some? && st.key.Some?
    && var st' := Extended(FreezeKey(Timed(st, x.s.t.v, x.s, x.ctx), x.ctx), x, d);
       && st'.commandedAt.Some? && st'.key == st.key
       && FitTrace(run + [x], st'.primary, d, st'.commandedAt.value, AppliedPair(st', d), st.key)
       && Applied(st', d) && Notes((run + [x])[|run| + 1 - |st'.primary|], st', d)
       && fit(d, st'.primary, StepSize(st', d), st.key.value.interval) == Some(gains)
  }

  /** One sample of a response: its group temperature, timed from the write the
      response's first sample reported, with both caps verified. The stepped
      device stays at that write's cap, the other at the held one. */
  predicate ReportedAt(x: Input, p: LS.Point, first: Input, d: Device, c: real, g: nat) {
    && x.ctx.cpuVerified && x.ctx.gpuVerified && !x.ctx.cpuReset
    && x.ctx.cpuCap.Some? && x.ctx.gpuCap.Some?
    && x.ctx.strategy == first.ctx.strategy && x.ctx.maInterval == first.ctx.maInterval
    && match d
       case Cpu =>
         && first.ctx.cpuCompletedAt.Some? && first.ctx.cpuCap.Some?
         && x.s.t == Finite(first.ctx.cpuCompletedAt.value + p.t) && x.ctx.cpuGroup == Some(Finite(p.y))
         && -0.25 <= x.ctx.cpuCap.value - first.ctx.cpuCap.value <= 0.25 && x.ctx.gpuCap == Some(g)
       case Gpu =>
         && first.ctx.gpuCompletedAt.Some?
         && x.s.t == Finite(first.ctx.gpuCompletedAt.value + p.t) && x.ctx.gpuGroup == Some(Finite(p.y))
         && -0.25 <= x.ctx.cpuCap.value - c <= 0.25 && x.ctx.gpuCap == first.ctx.gpuCap
  }

  /** The gains are the fit of what the run's last samples reported: their
      temperatures, against the stepped device's reported cap less the held one. */
  ghost predicate FitOfReports(fit: Fitter, run: seq<Input>, trace: seq<LS.Point>, d: Device, c: real, g: nat, gains: F.Gains) {
    && 180 <= |trace| <= |run|
    && var reports := run[|run| - |trace|..];
       var first := reports[0].ctx;
       && trace[0].t <= 2.0 && trace[|trace| - 1].t >= 360.0
       && (forall i :: 0 <= i < |trace| ==> ReportedAt(reports[i], trace[i], reports[0], d, c, g))
       && (forall i :: 0 <= i < |trace| - 1 ==> trace[i].t <= trace[i + 1].t <= trace[i].t + 2.0)
       && first.cpuCap.Some? && first.gpuCap.Some?
       && first.strategy.Some? && first.strategy.value != "" && first.maInterval.Some? && first.maInterval.value > 0
       && match d
          case Cpu => fit(d, trace, first.cpuCap.value - c, first.maInterval.value) == Some(gains)
          case Gpu => fit(d, trace, first.gpuCap.value as real - g as real, first.maInterval.value) == Some(gains)
  }

  lemma {:induction false} RecordIsReported(x: Input, p: LS.Point, first: Input, d: Device, st: State)
    requires Applied(st, d) && Notes(first, st, d) && st.commandedAt.Some? && st.key.Some?
    requires Records(x, p, d, st.commandedAt.value, AppliedPair(st, d), st.key)
    requires ContextKey(first.ctx) == st.key
    ensures ReportedAt(x, p, first, d, st.baseCpu, st.baseGpu)
    ensures first.ctx.maInterval == Some(st.key.value.interval) && st.key.value.interval > 0
    ensures first.ctx.strategy == Some(st.key.value.strategy) && st.key.value.strategy != ""
  {
    KeyIsReported(x.ctx, st.key.value);
    KeyIsReported(first.ctx, st.key.value);
    hide ContextKey;
  }

  lemma {:induction false} KeyIsReported(ctx: Context, key: Key)
    requires ContextKey(ctx) == Some(key)
    ensures ctx.strategy == Some(key.strategy) && ctx.maInterval == Some(key.interval)
    ensures key.strategy != "" && key.interval > 0
  {
  }

  lemma {:induction false} TraceIsReported(fit: Fitter, run: seq<Input>, st: State, d: Device, gains: F.Gains)
    requires st.commandedAt.Some? && st.key.Some? && Applied(st, d) && |st.primary| <= |run| && st.primary != []
    requires FitTrace(run, st.primary, d, st.commandedAt.value, AppliedPair(st, d), st.key)
    requires Notes(run[|run| - |st.primary|], st, d)
    requires fit(d, st.primary, StepSize(st, d), st.key.value.interval) == Some(gains)
    ensures FitOfReports(fit, run, st.primary, d, st.baseCpu, st.baseGpu, gains)
  {
    hide Records, ReportedAt, ContextKey;
    var trace := st.primary;
    var reports := run[|run| - |trace|..];
    var first := reports[0];
    assert Records(first, trace[0], d, st.commandedAt.value, AppliedPair(st, d), st.key);
    RecordHasKey(first, trace[0], d, st);
    forall i | 0 <= i < |trace| ensures ReportedAt(reports[i], trace[i], first, d, st.baseCpu, st.baseGpu) {
      assert reports[i] == run[|run| - |trace| + i];
      RecordIsReported(reports[i], trace[i], first, d, st);
    }
    RecordIsReported(first, trace[0], first, d, st);
    ReportHasCaps(first, trace[0], d, st.baseCpu, st.baseGpu);
  }

  lemma {:induction false} RecordHasKey(x: Input, p: LS.Point, d: Device, st: State)
    requires st.commandedAt.Some? && Records(x, p, d, st.commandedAt.value, AppliedPair(st, d), st.key)
    ensures ContextKey(x.ctx) == st.key
  {
    hide ContextKey, PairHeld;
  }

  lemma {:induction false} ReportHasCaps(x: Input, p: LS.Point, d: Device, c: real, g: nat)
    requires ReportedAt(x, p, x, d, c, g)
    ensures x.ctx.cpuCap.Some? && x.ctx.gpuCap.Some?
  {
  }

  /** Every fit the machine reports is, over the run's own reports, the fit of
      the certified response against the reported step: the batch puts the held
      pair back, and the step is the stepped device's cap less that pair's. */
  lemma {:induction false} FittedStepIsReported(fit: Fitter, run: seq<Input>, x: Input, d: Device, gains: F.Gains)
    requires Fitted(d, gains) in Step(fit, After(fit, run), x.s, x.ctx).1
    ensures var batch := Step(fit, After(fit, run), x.s, x.ctx).1;
            && |batch| >= 3 && batch[0].SetCpu? && batch[1].SetGpu? && batch[2] == Fitted(d, gains)
            && batch == [batch[0], batch[1], batch[2]] + (if d == Gpu then [StopBurner] else [])
            && exists trace :: FitOfReports(fit, run + [x], trace, d, batch[0].watts, batch[1].mhz, gains)
  {
    hide Step, After, FitTrace, Notes, ContextKey, OnResponse, StepSize, FitOfReports;
    var st := After(fit, run);
    FittedTraceIsCertified(fit, run, x, d, gains);
    FittedOnlyInSteps(fit, st, x, d, gains);
    var keyed := FreezeKey(Timed(st, x.s.t.v, x.s, x.ctx), x.ctx);
    RunTraces(fit, run);
    TracingCollects(run, st, PhaseDevice(st)) by { hide Collecting; }
    KeyedCollects(run, st, x, PhaseDevice(st)) by { hide Collecting; }
    OnlyConclusionsFit(fit, keyed, x, PhaseDevice(st), d, gains);
    ConclusionBatch(fit, keyed, x, d, gains);
    SteppedBatch(fit, st, x);
    var st' := Extended(keyed, x, d);
    TraceIsReported(fit, run + [x], st', d, gains) by { FitTraceFits(run + [x], st'.primary, d, st'.commandedAt.value, AppliedPair(st', d), st.key); }
  }

  lemma {:induction false} FitTraceFits(run: seq<Input>, trace: seq<LS.Point>, device: Device, since: real, pair: (real, nat), key: Option<Key>)
    requires FitTrace(run, trace, device, since, pair, key)
    ensures 180 <= |trace| <= |run|
  {
    hide Records;
  }

  lemma {:induction false} ConclusionBatch(fit: Fitter, st: State, x: Input, d: Device, gains: F.Gains)
    requires x.s.t.Finite? && Fitted(d, gains) in OnResponse(fit, st, x.s.t.v, x.ctx, d).1
    ensures OnResponse(fit, st, x.s.t.v, x.ctx, d).1 ==
              [SetCpu(st.baseCpu), SetGpu(st.baseGpu), Fitted(d, gains)] + (if d == Gpu then [StopBurner] else [])
  {
    hide PairHeld, Conclude;
  }

  lemma {:induction false} SteppedBatch(fit: Fitter, st: State, x: Input)
    requires !ClockBad(st, x.s) && st.initialized && !x.ctx.cpuReset && (st.sub == CpuStep || st.sub == GpuStep)
    requires !KeyChanged(Timed(st, x.s.t.v, x.s, x.ctx), x.ctx)
    requires exists d, gains :: Fitted(d, gains) in Step(fit, st, x.s, x.ctx).1
    ensures Step(fit, st, x.s, x.ctx).1 ==
              OnResponse(fit, FreezeKey(Timed(st, x.s.t.v, x.s, x.ctx), x.ctx), x.s.t.v, x.ctx, PhaseDevice(st)).1
  {
    hide OnResponse, ContextKey, GuardTrips;
  }

  lemma {:induction false} TracingIsKeyed(run: seq<Input>, st: State)
    requires Tracing(run, st)
    ensures st.sub == Settle || st.sub == Done || (st.initialized && st.key.Some?)
    ensures st.sub == RecoverGpu ==> st.appliedGpu.None?
  {
    hide Recorded, Contiguous;
  }

  lemma {:induction false} TracingCollects(run: seq<Input>, st: State, device: Device)
    requires Tracing(run, st) && st.sub == StepOf(device)
    ensures st.initialized && st.lastAt.Some? && Collecting(run, st, device, st.lastAt.value)
  {
    hide Recorded, Contiguous;
  }

  /** Such a trace is never too short and never too brief to search: the
      too-few-samples rejection cannot come from the machine. */
  lemma {:induction false} MachineTracesAreLongEnough(run: seq<Input>, trace: seq<LS.Point>, device: Device, since: real, pair: (real, nat), key: Option<Key>,
                                                      exp: real -> real, step: Float, minResponse: real)
    requires FitTrace(run, trace, device, since, pair, key)
    ensures F.Fit(exp, trace, step, minResponse) != F.Err(F.TooFewSamples)
    ensures F.Span(trace) >= DEVICE_FIT_WINDOW_S - RESPONSE_MAX_GAP_S
  {
    hide F.SearchTrace, Recorded;
    FP.EarliestIsLeast(trace);
    assert trace[0] in trace && trace[|trace| - 1] in trace;
    hide F.Earliest, F.Latest;
  }
}
