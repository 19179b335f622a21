/** Every calibration run ends: a budget of seconds that each sample spends. */
module StepTermination {
  import opened Prelude
  import opened StepTest
  import opened TimedWindow

  /** What the reports must satisfy for the deadlines to bite: a completion
      stamp runs at most `lag` ahead of its sample, and a verified cap has a value. */
  predicate Honest(x: Input, lag: real) {
    && (x.s.t.Finite? && x.ctx.cpuCompletedAt.Some? ==> x.ctx.cpuCompletedAt.value <= x.s.t.v + lag)
    && (x.s.t.Finite? && x.ctx.gpuCompletedAt.Some? ==> x.ctx.gpuCompletedAt.value <= x.s.t.v + lag)
    && (x.ctx.cpuVerified ==> x.ctx.cpuCap.Some?)
    && (x.ctx.gpuVerified ==> x.ctx.gpuCap.Some?)
  }

  /** The clock jumps back, breaks, or moves by at least `tick`. */
  predicate Advances(last: real, t: Float, tick: real) {
    t.Finite? ==> t.v < last || t.v >= last + tick
  }

  function ReplyBudget(tick: real, lag: real): real {
    2.0 * (DEVICE_FIT_WINDOW_S + tick) + lag
  }

  function FullBudget(tick: real, lag: real): real {
    2.0 * (DEVICE_SETTLE_S + tick) + 2.0 * ReplyBudget(tick, lag)
  }

  /** Seconds left of a deadline that started at `start`. */
  function Left(start: Option<real>, length: real, last: real): real {
    OrElse(start, last) + length - last
  }

  function ReplyLeft(st: State, device: Device, last: real, tick: real, lag: real): real {
    Left(st.commandedAt, DEVICE_FIT_WINDOW_S + tick, last)
    + if Applied(st, device) then 0.0 else DEVICE_FIT_WINDOW_S + tick + lag
  }

  /** Seconds the run can still take without another retry. */
  function PhaseLeft(st: State, last: real, tick: real, lag: real): real {
    match st.sub
    case Settle => Left(st.settleStarted, DEVICE_SETTLE_S + tick, last) + DEVICE_SETTLE_S + tick + 2.0 * ReplyBudget(tick, lag)
    case CpuStep => ReplyLeft(st, Cpu, last, tick, lag) + DEVICE_SETTLE_S + tick + ReplyBudget(tick, lag)
    case RecoverGpu => Left(st.recoveryStarted, DEVICE_SETTLE_S + tick, last) + ReplyBudget(tick, lag)
    case GpuStep => ReplyLeft(st, Gpu, last, tick, lag)
    case Done => 0.0
  }

  function RetryLeft(retries: nat, full: real): real {
    if retries == 0 then 2.0 * full else if retries == 1 then full else 0.0
  }

  function Budget(st: State, last: real, tick: real, lag: real): real {
    RetryLeft(st.cpuRetries, FullBudget(tick, lag)) + RetryLeft(st.gpuRetries, FullBudget(tick, lag))
    + PhaseLeft(st, last, tick, lag)
  }

  predicate Running(start: Option<real>, length: real, last: real) {
    start.Some? && last - start.value < length
  }

  /** A run under way: no deadline of the current phase has passed. */
  predicate Live(st: State, last: real) {
    && st.initialized && st.lastAt == Some(last)
    && st.cpuRetries <= MAX_RETRIES && st.gpuRetries <= MAX_RETRIES
    && match st.sub
       case Settle => Running(st.settleStarted, DEVICE_SETTLE_S, last)
       case CpuStep => Running(st.commandedAt, DEVICE_FIT_WINDOW_S, last)
       case RecoverGpu => Running(st.recoveryStarted, DEVICE_SETTLE_S, last)
       case GpuStep => Running(st.commandedAt, DEVICE_FIT_WINDOW_S, last)
       case Done => false
  }

  /** One sample either ends the run or spends at least one tick. */
  predicate Spends(st: State, last: real, st': State, now: real, tick: real, lag: real) {
    st'.sub == Done || (Live(st', now) && Budget(st', now, tick, lag) <= Budget(st, last, tick, lag) - tick)
  }

  predicate Ready(st: State, last: real, now: real, tick: real, lag: real) {
    && st.lastAt == Some(now) && Live(st.(lastAt := Some(last)), last)
    && tick > 0.0 && lag >= 0.0 && now >= last + tick
  }

  lemma {:induction false} SettleSpends(st: State, last: real, now: real, s: Sample, ctx: Context, tick: real, lag: real)
    requires Ready(st, last, now, tick, lag) && st.sub == Settle
    ensures Spends(st, last, OnSettle(st, now, s, ctx).0, now, tick, lag)
  {
    hide ObserveAll, AllSatisfied, Push, LoopQuiet, PairHeld, CanAdopt, Flats;
  }

  lemma {:induction false} RecoverySpends(st: State, last: real, now: real, s: Sample, ctx: Context, tick: real, lag: real)
    requires Ready(st, last, now, tick, lag) && st.sub == RecoverGpu
    ensures Spends(st, last, OnRecovery(st, now, s, ctx).0, now, tick, lag)
  {
    hide ObserveAll, AllSatisfied, Push, LoopQuiet, PairHeld, Flats;
  }

  lemma {:induction false} ResponseSpends(fit: Fitter, st: State, last: real, x: Input, device: Device, tick: real, lag: real)
    requires x.s.t.Finite? && Honest(x, lag)
    requires Ready(st, last, x.s.t.v, tick, lag) && st.sub == (if device == Cpu then CpuStep else GpuStep)
    ensures Spends(st, last, OnResponse(fit, st, x.s.t.v, x.ctx, device).0, x.s.t.v, tick, lag)
  {
    hide Conclude, PairHeld, HeldPair, GroupOf;
  }

  lemma {:induction false} RetrySpends(st: State, last: real, now: real, tick: real, lag: real)
    requires Ready(st, last, now, tick, lag)
    ensures Spends(st, last, Retry(st, now).0, now, tick, lag)
  {
    hide ObserveAll;
  }

  lemma {:induction false} StepSpends(fit: Fitter, st: State, last: real, x: Input, tick: real, lag: real)
    requires tick > 0.0 && lag >= 0.0
    requires Live(st, last) && Honest(x, lag) && Advances(last, x.s.t, tick)
    ensures var st' := Step(fit, st, x.s, x.ctx).0;
            st'.sub == Done || (x.s.t.Finite? && Spends(st, last, st', x.s.t.v, tick, lag))
  {
    hide OnSettle, OnRecovery, OnResponse, Retry, GuardTrips, KeyChanged, ContextKey, Honest;
    if !ClockBad(st, x.s) {
      var now := x.s.t.v;
      var keyed := FreezeKey(Timed(st, now, x.s, x.ctx), x.ctx);
      assert Ready(keyed, last, now, tick, lag) && Budget(keyed, last, tick, lag) == Budget(st, last, tick, lag);
      assert keyed.sub == st.sub;
      if x.ctx.cpuReset {
        RetrySpends(keyed, last, now, tick, lag);
      } else {
        match st.sub {
          case Settle => SettleSpends(keyed, last, now, x.s, x.ctx, tick, lag);
          case CpuStep => ResponseSpends(fit, keyed, last, x, Cpu, tick, lag);
          case RecoverGpu => RecoverySpends(keyed, last, now, x.s, x.ctx, tick, lag);
          case GpuStep => ResponseSpends(fit, keyed, last, x, Gpu, tick, lag);
          case Done =>
        }
      }
      hide Budget, Live;
    }
  }

  // ---- Whole runs ----

  predicate Fair(inputs: seq<Input>, tick: real, lag: real) {
    && (forall i :: 0 <= i < |inputs| ==> Honest(inputs[i], lag))
    && forall i :: 0 < i < |inputs| && inputs[i - 1].s.t.Finite? ==> Advances(inputs[i - 1].s.t.v, inputs[i].s.t, tick)
  }

  /** The run has ended by its i-th sample for some i. */
  ghost predicate Ends(fit: Fitter, inputs: seq<Input>) {
    exists i :: 0 < i <= |inputs| && After(fit, inputs[..i]).sub == Done
  }

  lemma {:induction false} FirstSampleStarts(fit: Fitter, x: Input, tick: real, lag: real)
    requires tick > 0.0 && lag >= 0.0
    ensures var st := Step(fit, INITIAL, x.s, x.ctx).0;
            st.sub == Done || (x.s.t.Finite? && Live(st, x.s.t.v) && Budget(st, x.s.t.v, tick, lag) <= 5.0 * FullBudget(tick, lag))
  {
    hide ObserveAll, ContextKey, GuardTrips;
  }

  lemma {:induction false} SamplesSpend(fit: Fitter, inputs: seq<Input>, n: nat, tick: real, lag: real)
    requires tick > 0.0 && lag >= 0.0 && Fair(inputs, tick, lag) && 0 < n <= |inputs|
    requires !Ends(fit, inputs)
    ensures inputs[n - 1].s.t.Finite?
    ensures Live(After(fit, inputs[..n]), inputs[n - 1].s.t.v)
    ensures Budget(After(fit, inputs[..n]), inputs[n - 1].s.t.v, tick, lag) + (n - 1) as real * tick <= 5.0 * FullBudget(tick, lag)
  {
    hide Step, Live, Budget, FullBudget;
    var x := inputs[n - 1];
    assert inputs[..n][..n - 1] == inputs[..n - 1] && inputs[..n][n - 1] == x;
    assert After(fit, inputs[..n]) == Step(fit, After(fit, inputs[..n - 1]), x.s, x.ctx).0;
    if n == 1 {
      FirstSampleStarts(fit, x, tick, lag);
    } else {
      SamplesSpend(fit, inputs, n - 1, tick, lag);
      StepSpends(fit, After(fit, inputs[..n - 1]), inputs[n - 2].s.t.v, x, tick, lag);
      OneMore(n, tick);
    }
  }

  lemma {:induction false} OneMore(n: nat, tick: real)
    requires n > 0
    ensures (n - 1) as real * tick == (n - 2) as real * tick + tick
  {
  }

  lemma {:induction false} LiveHasBudget(st: State, last: real, tick: real, lag: real)
    requires Live(st, last) && tick > 0.0 && lag >= 0.0
    ensures Budget(st, last, tick, lag) > tick
  {
  }

  /** Termination: whatever the samples say, a run of honest reports whose
      clock never stands still ends within five full budgets of seconds. */
  lemma {:induction false} CalibrationEnds(fit: Fitter, inputs: seq<Input>, tick: real, lag: real)
    requires tick > 0.0 && lag >= 0.0 && Fair(inputs, tick, lag)
    requires inputs != [] && (|inputs| - 1) as real * tick >= 5.0 * FullBudget(tick, lag)
    ensures Ends(fit, inputs)
  {
    hide Step, Live, Budget, FullBudget, Fair, After;
    if !Ends(fit, inputs) {
      SamplesSpend(fit, inputs, |inputs|, tick, lag);
      LiveHasBudget(After(fit, inputs[..|inputs|]), inputs[|inputs| - 1].s.t.v, tick, lag);
    }
  }

  // ---- Retries ----

  /** Samples of the run that retried. */
  function RetriesIn(fit: Fitter, inputs: seq<Input>): nat {
    if inputs == [] then 0
    else RetriesIn(fit, inputs[..|inputs| - 1]) + if Retrying in EffectsAt(fit, inputs, |inputs| - 1) then 1 else 0
  }

  predicate CountsRetries(st: State, out: Outcome) {
    && (st.cpuRetries <= MAX_RETRIES ==> out.0.cpuRetries <= MAX_RETRIES)
    && (st.gpuRetries <= MAX_RETRIES ==> out.0.gpuRetries <= MAX_RETRIES)
    && out.0.cpuRetries + out.0.gpuRetries == st.cpuRetries + st.gpuRetries + if Retrying in out.1 then 1 else 0
  }

  /** A batch of the phases: no retry, and the counters stay. */
  predicate KeepsRetries(st: State, out: Outcome) {
    out.0.cpuRetries == st.cpuRetries && out.0.gpuRetries == st.gpuRetries && Retrying !in out.1
  }

  lemma {:induction false} SettlingKeepsRetries(st: State, now: real, s: Sample, ctx: Context)
    ensures KeepsRetries(st, OnSettle(st, now, s, ctx)) && KeepsRetries(st, OnRecovery(st, now, s, ctx))
  {
    hide ObserveAll, AllSatisfied, Push, LoopQuiet, PairHeld, CanAdopt, Flats, RecoveryHeld, SettleHeld;
  }

  lemma {:induction false} ResponseKeepsRetries(fit: Fitter, st: State, now: real, ctx: Context, device: Device)
    ensures KeepsRetries(st, OnResponse(fit, st, now, ctx, device))
  {
    hide PairHeld, GroupOf, StepHeld, ObserveAll;
  }

  lemma {:induction false} DispatchCountsRetries(fit: Fitter, st: State, now: real, s: Sample, ctx: Context)
    ensures CountsRetries(st, Dispatch(fit, st, now, s, ctx))
  {
    hide OnSettle, OnRecovery, OnResponse;
    SettlingKeepsRetries(st, now, s, ctx);
    ResponseKeepsRetries(fit, st, now, ctx, Cpu);
    ResponseKeepsRetries(fit, st, now, ctx, Gpu);
  }

  lemma {:induction false} StepCountsRetries(fit: Fitter, st: State, x: Input)
    ensures CountsRetries(st, Step(fit, st, x.s, x.ctx))
  {
    hide Dispatch, GuardTrips, ContextKey, ObserveAll, AtLeast;
    if !ClockBad(st, x.s) {
      DispatchCountsRetries(fit, FreezeKey(Timed(st, x.s.t.v, x.s, x.ctx), x.ctx), x.s.t.v, x.s, x.ctx);
    }
  }

  /** Over any run at all, each device is retried at most twice and the retry
      counters count exactly the samples that retried. */
  lemma {:induction false} RetriesAreBounded(fit: Fitter, inputs: seq<Input>)
    ensures var st := After(fit, inputs);
            && st.cpuRetries <= MAX_RETRIES && st.gpuRetries <= MAX_RETRIES
            && RetriesIn(fit, inputs) == st.cpuRetries + st.gpuRetries
  {
    hide Step;
    if inputs != [] {
      var front, x := inputs[..|inputs| - 1], inputs[|inputs| - 1];
      RetriesAreBounded(fit, front);
      StepCountsRetries(fit, After(fit, front), x);
    }
  }

  // ---- Done ----

  /** The test itself can leave Done, exactly by retrying a reset CPU cap; the
      runner's finished flag is what makes the end final. */
  lemma {:induction false} DoneIsLeftOnlyByRetry(fit: Fitter, st: State, x: Input)
    requires st.sub == Done
    ensures Step(fit, st, x.s, x.ctx).0.sub != Done <==>
              && !ClockBad(st, x.s)
              && !GuardTrips(Timed(st, x.s.t.v, x.s, x.ctx), x.s, x.ctx)
              && !KeyChanged(Timed(st, x.s.t.v, x.s, x.ctx), x.ctx)
              && st.initialized && x.ctx.cpuReset && st.cpuRetries < MAX_RETRIES
  {
    hide GuardTrips, ContextKey, ObserveAll;
  }

  // ---- Why a verified cap must have a value ----

  const CAPS := Context(Some(20.0), true, false, Some(0.0), Some(1000), true, Some(0.0),
                        true, 8.0, 1000, 80.0, 3090, Some(Finite(50.0)), Some(Finite(55.0)),
                        true, false, true, 90.0, 88.0, Some("quiet16"), Some(60))

  function Calm(t: real): Sample {
    Sample(Finite(t), Some(Finite(2400.0)), None, None, None)
  }

  /** Settles in three samples a minute apart, then reports every CPU write
      verified and freshly completed, but without its value. */
  function StallInput(i: nat): Input {
    if i == 0 then Input(Calm(0.0), CAPS)
    else if i == 1 then Input(Calm(1.0), CAPS)
    else if i == 2 then Input(Calm(61.0), CAPS)
    else Input(Calm(59.0 + i as real), CAPS.(cpuCap := None, cpuCompletedAt := Some(59.0 + i as real)))
  }

  function StallRun(n: nat): (r: seq<Input>)
    ensures |r| == n
  {
    if n == 0 then [] else StallRun(n - 1) + [StallInput(n - 1)]
  }

  predicate Waiting(st: State, now: real) {
    && st.initialized && st.sub == CpuStep && st.appliedCpu.None? && st.commandedAt == Some(now) && st.lastAt == Some(now)
    && st.key == Some(Key("quiet16", 60)) && st.hotStreak == 0
    && st.baseCpu == 20.0 && st.baseGpu == 1000 && st.primary == [] && st.responseLast.None?
  }

  lemma {:induction false} StallSettled(fit: Fitter)
    ensures var a := Step(fit, INITIAL, StallInput(0).s, StallInput(0).ctx).0;
            var b := Step(fit, a, StallInput(1).s, StallInput(1).ctx).0;
            var c := Step(fit, b, StallInput(2).s, StallInput(2).ctx).0;
            Waiting(c, 61.0)
  {
    var a := Step(fit, INITIAL, StallInput(0).s, StallInput(0).ctx).0;
    FirstStall(fit);
    SecondStall(fit, a);
    var b := Step(fit, a, StallInput(1).s, StallInput(1).ctx).0;
    ThirdStall(fit, b);
    hide Step, Waiting, StallInput;
  }

  predicate Begun(st: State) {
    && st.initialized && st.sub == Settle && st.lastAt == Some(0.0) && st.runStarted == Some(0.0) && st.settleStarted == Some(0.0)
    && st.commandedAt.None? && st.hotStreak == 0 && st.key == Some(Key("quiet16", 60))
    && st.cpuWindow == [] && st.gpuWindow == [] && st.fanWindow == [] && st.primary == [] && st.responseLast.None?
    && st.cpuRetries == 0
  }

  predicate Held(st: State) {
    && st.initialized && st.sub == Settle && st.lastAt == Some(1.0)
    && st.commandedAt == Some(0.0) && st.hotStreak == 0 && st.key == Some(Key("quiet16", 60)) && st.settleStarted == Some(0.0)
    && st.baseCpu == 20.0 && st.baseGpu == 1000
    && st.cpuWindow == [Reading(1.0, 50.0)] && st.gpuWindow == [Reading(1.0, 55.0)] && st.fanWindow == [Reading(1.0, 2400.0)]
  }

  lemma {:induction false} FirstStall(fit: Fitter)
    ensures Begun(Step(fit, INITIAL, StallInput(0).s, StallInput(0).ctx).0)
  {
    hide ObserveAll;
  }

  lemma {:induction false} OneReading(at: real, value: real, horizon: real)
    ensures Push([], Some(value), at, horizon) == [Reading(at, value)]
    ensures horizon > 0.0 ==> forall tolerance :: !SpanWithin([Reading(at, value)], horizon, tolerance)
  {
  }

  lemma {:induction false} TwoReadings(from: real, at: real, value: real, horizon: real, tolerance: real)
    requires at - from >= horizon > 0.0 && tolerance >= 0.0
    ensures SpanWithin(Push([Reading(from, value)], Some(value), at, horizon), horizon, tolerance)
  {
    var w := [Reading(from, value)] + [Reading(at, value)];
    assert w == [Reading(from, value), Reading(at, value)];
    assert Trim(w, at, horizon) == w;
    SpanWithinMeaning(w, horizon, tolerance);
  }

  lemma {:induction false} SecondStall(fit: Fitter, st: State)
    requires Begun(st)
    ensures Held(Step(fit, st, StallInput(1).s, StallInput(1).ctx).0)
  {
    hide ObserveAll, AllSatisfied, Push, SpanWithin, Trim;
    SettledMeans(Adopt(st, 1.0, CAPS), 1.0, Calm(1.0), CAPS, true);
    OneReading(1.0, 50.0, GROUP_WINDOW_S);
    OneReading(1.0, 55.0, GROUP_WINDOW_S);
    OneReading(1.0, 2400.0, FAN_WINDOW_S);
  }

  lemma {:induction false} ThirdStall(fit: Fitter, st: State)
    requires Held(st)
    ensures Waiting(Step(fit, st, StallInput(2).s, StallInput(2).ctx).0, 61.0)
  {
    hide ObserveAll, AllSatisfied, Push, SpanWithin, Trim;
    SettledMeans(st, 61.0, Calm(61.0), CAPS, true);
    TwoReadings(1.0, 61.0, 50.0, GROUP_WINDOW_S, CPU_GROUP_SPAN_C);
    TwoReadings(1.0, 61.0, 55.0, GROUP_WINDOW_S, GPU_GROUP_SPAN_C);
    TwoReadings(1.0, 61.0, 2400.0, FAN_WINDOW_S, FAN_SPAN_RPM);
  }

  lemma {:induction false} StallStep(fit: Fitter, st: State, i: nat)
    requires i >= 3 && Waiting(st, 58.0 + i as real)
    ensures Waiting(Step(fit, st, StallInput(i).s, StallInput(i).ctx).0, 59.0 + i as real)
  {
    hide ObserveAll;
  }

  lemma {:induction false} AfterTwo(fit: Fitter, x: Input, y: Input)
    ensures After(fit, [x, y]) == Step(fit, Step(fit, INITIAL, x.s, x.ctx).0, y.s, y.ctx).0
  {
    hide Step;
    assert [x, y][..1] == [x] && [x][..0] == [];
    assert After(fit, []) == INITIAL;
    assert After(fit, [x]) == Step(fit, After(fit, [x][..0]), x.s, x.ctx).0;
    assert After(fit, [x, y]) == Step(fit, After(fit, [x, y][..1]), y.s, y.ctx).0;
  }

  /** The value matters: a run whose clock ticks once a second after the third
      sample and whose stamps never run ahead still never ends when verified
      CPU writes come without a value. */
  lemma {:induction false} ValuelessReportsNeverEnd(fit: Fitter, n: nat)
    requires n >= 3
    ensures Waiting(After(fit, StallRun(n)), 58.0 + n as real)
  {
    hide Step, Waiting, StallInput;
    var front := StallRun(n - 1);
    assert StallRun(n)[..n - 1] == front && StallRun(n)[n - 1] == StallInput(n - 1);
    if n == 3 {
      StallSettled(fit);
      AfterTwo(fit, StallInput(0), StallInput(1));
      assert front == [StallInput(0), StallInput(1)];
    } else {
      ValuelessReportsNeverEnd(fit, n - 1);
      StallStep(fit, After(fit, front), n - 1);
    }
  }

  // ---- A run that is done and then leaves it ----

  /** A good first sample, a hot card, and a sample whose CPU cap was reset. */
  function RevivedRun(): seq<Input> {
    [StallInput(0),
     Input(Calm(1.0).(gpuTemp := Some(90.0)), CAPS),
     Input(Calm(2.0), CAPS.(cpuReset := true))]
  }

  /** The step test alone leaves Done: the guard ends the run, and the next
      sample's reset cap starts it settling again. */
  lemma {:induction false} DoneCanBeLeft(fit: Fitter)
    ensures After(fit, RevivedRun()[..2]).sub == Done && After(fit, RevivedRun()).sub == Settle
  {
    hide Step;
    var run := RevivedRun();
    assert run[..2] == [run[0], run[1]] && run[..2][..1] == [run[0]] && run[..1][..0] == [];
    AfterTwo(fit, run[0], run[1]);
    FirstStall(fit);
    var begun := Step(fit, INITIAL, run[0].s, run[0].ctx).0;
    HotEndsIt(fit, begun);
    var done := Step(fit, begun, run[1].s, run[1].ctx).0;
    ResetRevives(fit, done);
  }

  predicate Ended(st: State) {
    && st.initialized && st.sub == Done && st.lastAt == Some(1.0) && st.hotStreak == 0
    && st.key == Some(Key("quiet16", 60)) && st.cpuRetries == 0
  }

  lemma {:induction false} HotEndsIt(fit: Fitter, st: State)
    requires Begun(st)
    ensures Ended(Step(fit, st, RevivedRun()[1].s, RevivedRun()[1].ctx).0)
  {
    hide ObserveAll, Dispatch, Retry;
  }

  lemma {:induction false} ResetRevives(fit: Fitter, st: State)
    requires Ended(st)
    ensures Step(fit, st, RevivedRun()[2].s, RevivedRun()[2].ctx).0.sub == Settle
  {
    hide ObserveAll, Dispatch;
  }
}
