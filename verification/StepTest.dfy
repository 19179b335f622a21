/** The sample-driven calibration step test: settle, step the CPU, recover,
    step the GPU. State and transition as values; the class that performs the
    transition in place is in StepTestMachine. */
module StepTest {
  import opened Prelude
  import opened TimedWindow
  import LS = LeastSquares
  import F = Fopdt

  const EC_MAX_ABORT_C := 95
  const DEVICE_SETTLE_S := 600.0
  const DEVICE_FIT_WINDOW_S := 360.0
  const RESPONSE_MAX_GAP_S := 2.0
  const DEVICE_STEP_W := 15.0
  const DEVICE_STEP_MHZ: nat := 500
  const GROUP_WINDOW_S := 60.0
  const FAN_WINDOW_S := 20.0
  const CPU_GROUP_SPAN_C := 1.0
  const GPU_GROUP_SPAN_C := 2.0
  const FAN_SPAN_RPM := 150.0
  const CAP_TOLERANCE_W := 0.25
  const CPU_HOT_SAMPLES: nat := 3
  const MAX_RETRIES: nat := 2
  const BURNER_THREADS: nat := 24
  const U8_MAX: nat := 255
  const U32_MAX: nat := 0xFFFF_FFFF

  datatype Device = Cpu | Gpu

  /** The strategy and moving-average interval that gains are stored under. */
  datatype Key = Key(strategy: string, interval: nat)

  /** What the controller reports beside each sample. */
  datatype Context = Context(
    cpuCap: Option<real>, cpuVerified: bool, cpuReset: bool, cpuCompletedAt: Option<real>,
    gpuCap: Option<nat>, gpuVerified: bool, gpuCompletedAt: Option<real>,
    useCurrentCaps: bool, cpuFloor: real, gpuFloor: nat, cpuMax: real, gpuMax: nat,
    cpuGroup: Option<Float>, gpuGroup: Option<Float>,
    fanctrlActive: bool, ecMismatch: bool, argmaxControllable: bool,
    cpuHot: real, gpuHot: real,
    strategy: Option<string>, maInterval: Option<nat>)

  /** A sample; a reading whose validity bit is off is None. */
  datatype Sample = Sample(t: Float, fan: Option<Float>, ecMax: Option<int>, gpuTemp: Option<real>, cpuTemp: Option<real>)

  datatype Effect =
    | SetCpu(watts: real)
    | SetGpu(mhz: nat)
    | StartBurner(threads: nat)
    | StopBurner
    | Fitted(device: Device, gains: F.Gains)
    | Noted
    | Retrying

  /** Identification of one response: None when the fit is rejected. */
  type Fitter = (Device, seq<LS.Point>, real, nat) -> Option<F.Gains>

  datatype Sub = Settle | CpuStep | RecoverGpu | GpuStep | Done

  datatype GateDuration = GateDuration(satisfied: bool, observed: bool, since: real, last: real) {
    /** One observation: the start time moves exactly when the verdict does. */
    function Observe(now: real, ok: bool): GateDuration {
      GateDuration(ok, true, if !observed || satisfied != ok then now else since, now)
    }
  }

  const FRESH_GATE := GateDuration(false, false, 0.0, 0.0)
  const FRESH_GATES := [FRESH_GATE, FRESH_GATE, FRESH_GATE, FRESH_GATE, FRESH_GATE, FRESH_GATE, FRESH_GATE]

  datatype State = State(
    sub: Sub, initialized: bool, runStarted: Option<real>, settleStarted: Option<real>,
    cpuRetries: nat, gpuRetries: nat, commandedAt: Option<real>, lastAt: Option<real>, hotStreak: nat,
    baseCpu: real, baseGpu: nat, stepCpu: real, stepGpu: nat,
    appliedCpu: Option<real>, appliedGpu: Option<nat>,
    recoveryStarted: Option<real>, responseLast: Option<real>, key: Option<Key>,
    cpuWindow: seq<Reading>, gpuWindow: seq<Reading>, fanWindow: seq<Reading>,
    gates: seq<GateDuration>, primary: seq<LS.Point>)

  const INITIAL := State(
    Settle, false, None, None, 0, 0, None, None, 0, 0.0, 0, 0.0, 0, None, None, None, None, None,
    [], [], [], FRESH_GATES, [])

  type Outcome = (State, seq<Effect>)

  // ---- Readings of a state and a context ----

  function OrElse<T>(x: Option<T>, default: T): T {
    match x case None => default case Some(v) => v
  }

  function PhaseDevice(st: State): Device {
    if st.sub == RecoverGpu || st.sub == GpuStep then Gpu else Cpu
  }

  function ContextKey(ctx: Context): Option<Key> {
    match (ctx.strategy, ctx.maInterval)
    case (Some(s), Some(i)) => if s != "" && i > 0 then Some(Key(s, i)) else None
    case _ => None
  }

  predicate AtLeast(x: Option<real>, bound: real) {
    x.Some? && x.value >= bound
  }

  /** Both caps verified, the CPU within a quarter watt and the GPU exactly. */
  predicate PairHeld(ctx: Context, cpu: real, gpu: nat) {
    && ctx.cpuVerified && ctx.gpuVerified
    && ctx.cpuCap.Some? && AbsR(ctx.cpuCap.value - cpu) <= CAP_TOLERANCE_W
    && ctx.gpuCap == Some(gpu)
  }

  predicate LoopQuiet(ctx: Context) {
    ctx.fanctrlActive && !ctx.ecMismatch && ctx.argmaxControllable
  }

  // ---- Transitions ----

  function HeldPair(st: State): seq<Effect> {
    [SetCpu(st.baseCpu), SetGpu(st.baseGpu)]
  }

  function Abort(st: State): Outcome {
    (st.(sub := Done), if st.initialized then HeldPair(st) + [StopBurner, Noted] else [StopBurner, Noted])
  }

  /** The first sample fixes the run's start and the pair to establish. */
  function Begin(st: State, now: real, ctx: Context): State {
    st.(initialized := true, runStarted := Some(now), settleStarted := Some(now),
        baseCpu := if ctx.useCurrentCaps then OrElse(ctx.cpuCap, ctx.cpuFloor) else ctx.cpuFloor,
        baseGpu := if ctx.useCurrentCaps then OrElse(ctx.gpuCap, ctx.gpuFloor) else ctx.gpuFloor,
        key := if ContextKey(ctx).Some? then ContextKey(ctx) else st.key)
  }

  function CountHot(st: State, s: Sample, ctx: Context): State {
    st.(hotStreak := if AtLeast(s.cpuTemp, ctx.cpuHot) then MinN(st.hotStreak + 1, U8_MAX) else 0)
  }

  predicate GuardTrips(st: State, s: Sample, ctx: Context) {
    || (s.ecMax.Some? && s.ecMax.value >= EC_MAX_ABORT_C)
    || AtLeast(s.gpuTemp, ctx.gpuHot)
    || st.hotStreak >= CPU_HOT_SAMPLES
  }

  predicate KeyChanged(st: State, ctx: Context) {
    st.key.Some? && ContextKey(ctx) != st.key
  }

  function FreezeKey(st: State, ctx: Context): State {
    if st.key.None? then st.(key := ContextKey(ctx)) else st
  }

  function ObserveAll(gates: seq<GateDuration>, now: real, verdicts: seq<bool>): seq<GateDuration> {
    seq(|verdicts|, i requires 0 <= i < |verdicts| =>
      (if i < |gates| then gates[i] else FRESH_GATE).Observe(now, verdicts[i]))
  }

  predicate AllSatisfied(gates: seq<GateDuration>) {
    forall i :: 0 <= i < |gates| ==> gates[i].satisfied
  }

  function FirstGates(st: State, now: real, ctx: Context): State {
    st.(gates := ObserveAll(st.gates, now,
      [false, ctx.fanctrlActive, !ctx.ecMismatch, ctx.argmaxControllable, false, false, false]))
  }

  function ClearWindows(st: State): State {
    st.(cpuWindow := [], gpuWindow := [], fanWindow := [])
  }

  function PushAll(st: State, now: real, s: Sample, ctx: Context): State {
    st.(cpuWindow := Push(st.cpuWindow, FiniteOf(ctx.cpuGroup), now, GROUP_WINDOW_S),
        gpuWindow := Push(st.gpuWindow, FiniteOf(ctx.gpuGroup), now, GROUP_WINDOW_S),
        fanWindow := Push(st.fanWindow, FiniteOf(s.fan), now, FAN_WINDOW_S))
  }

  /** One settling sample: the windows grow while the pair is held and the
      fan loop is quiet, and are emptied otherwise; then all seven gates. */
  function Watch(st: State, now: real, s: Sample, ctx: Context, capsHeld: bool): State {
    var st' := if capsHeld && LoopQuiet(ctx) then PushAll(st, now, s, ctx) else ClearWindows(st);
    st'.(gates := ObserveAll(st.gates, now,
      [capsHeld, ctx.fanctrlActive, !ctx.ecMismatch, ctx.argmaxControllable] + Flats(st')))
  }

  function Flats(st: State): seq<bool> {
    [SpanWithin(st.cpuWindow, GROUP_WINDOW_S, CPU_GROUP_SPAN_C),
     SpanWithin(st.gpuWindow, GROUP_WINDOW_S, GPU_GROUP_SPAN_C),
     SpanWithin(st.fanWindow, FAN_WINDOW_S, FAN_SPAN_RPM)]
  }

  lemma {:induction false} AllPassed(gates: seq<GateDuration>, now: real, verdicts: seq<bool>)
    ensures AllSatisfied(ObserveAll(gates, now, verdicts)) <==> forall i :: 0 <= i < |verdicts| ==> verdicts[i]
  {
    assert forall i :: 0 <= i < |verdicts| ==> ObserveAll(gates, now, verdicts)[i].satisfied == verdicts[i];
  }

  /** All seven gates pass exactly when the pair is held, the loop is quiet
      and all three windows are flat. */
  lemma {:induction false} SettledMeans(st: State, now: real, s: Sample, ctx: Context, capsHeld: bool)
    ensures var st' := Watch(st, now, s, ctx, capsHeld);
            AllSatisfied(st'.gates) <==>
              && capsHeld && LoopQuiet(ctx)
              && SpanWithin(st'.cpuWindow, GROUP_WINDOW_S, CPU_GROUP_SPAN_C)
              && SpanWithin(st'.gpuWindow, GROUP_WINDOW_S, GPU_GROUP_SPAN_C)
              && SpanWithin(st'.fanWindow, FAN_WINDOW_S, FAN_SPAN_RPM)
  {
    hide AllSatisfied, ObserveAll, SpanWithin, Push;
    var st' := Watch(st, now, s, ctx, capsHeld);
    var verdicts := [capsHeld, ctx.fanctrlActive, !ctx.ecMismatch, ctx.argmaxControllable] + Flats(st');
    AllPassed(st.gates, now, verdicts);
    assert verdicts[0] == capsHeld && verdicts[1] == ctx.fanctrlActive && verdicts[2] == !ctx.ecMismatch
           && verdicts[3] == ctx.argmaxControllable;
    assert verdicts[4] == Flats(st')[0] && verdicts[5] == Flats(st')[1] && verdicts[6] == Flats(st')[2];
  }

  predicate CanAdopt(st: State, now: real, ctx: Context) {
    && st.commandedAt.None? && ctx.cpuVerified && ctx.gpuVerified
    && ctx.cpuCap.Some? && ctx.gpuCap.Some?
    && AtLeast(ctx.cpuCompletedAt, OrElse(st.runStarted, now))
    && AtLeast(ctx.gpuCompletedAt, OrElse(st.runStarted, now))
  }

  /** Takes the verified pair as the baseline and fixes both step targets. */
  function Adopt(st: State, now: real, ctx: Context): State {
    if !CanAdopt(st, now, ctx) then st
    else
      st.(baseCpu := ctx.cpuCap.value, baseGpu := ctx.gpuCap.value,
          stepCpu := MinR(ctx.cpuCap.value + DEVICE_STEP_W, ctx.cpuMax),
          stepGpu := MinN(MinN(ctx.gpuCap.value + DEVICE_STEP_MHZ, U32_MAX), ctx.gpuMax),
          commandedAt := Some(MaxR(ctx.cpuCompletedAt.value, ctx.gpuCompletedAt.value)))
  }

  predicate SettleHeld(st: State, ctx: Context) {
    st.commandedAt.Some? && PairHeld(ctx, st.baseCpu, st.baseGpu)
  }

  function OnSettle(st: State, now: real, s: Sample, ctx: Context): Outcome {
    var adopted := Adopt(st, now, ctx);
    var st' := Watch(adopted, now, s, ctx, SettleHeld(adopted, ctx));
    if AllSatisfied(st'.gates) then
      if st'.key.None? then Abort(st')
      else
        (st'.(sub := CpuStep, commandedAt := Some(now), appliedCpu := None, responseLast := None, primary := []),
         [SetCpu(st'.stepCpu)])
    else if now - OrElse(st'.settleStarted, now) >= DEVICE_SETTLE_S then Abort(st')
    else (st', [])
  }

  predicate RecoveryHeld(st: State, now: real, ctx: Context) {
    var started := OrElse(st.recoveryStarted, now);
    && AtLeast(ctx.cpuCompletedAt, started) && AtLeast(ctx.gpuCompletedAt, started)
    && PairHeld(ctx, st.baseCpu, st.baseGpu)
  }

  function OnRecovery(st: State, now: real, s: Sample, ctx: Context): Outcome {
    var st' := Watch(st, now, s, ctx, RecoveryHeld(st, now, ctx));
    if AllSatisfied(st'.gates) then
      (st'.(sub := GpuStep, commandedAt := Some(now), responseLast := None, primary := []), [SetGpu(st'.stepGpu)])
    else if now - OrElse(st'.recoveryStarted, now) >= DEVICE_SETTLE_S then Abort(st')
    else (st', [])
  }

  /** The step's own cap write counts from its verified completion. */
  function NoteApplied(st: State, now: real, ctx: Context, device: Device): State {
    var commanded := OrElse(st.commandedAt, now);
    match device
    case Cpu =>
      if st.appliedCpu.None? && ctx.cpuVerified && AtLeast(ctx.cpuCompletedAt, commanded)
      then st.(appliedCpu := ctx.cpuCap, commandedAt := ctx.cpuCompletedAt) else st
    case Gpu =>
      if st.appliedGpu.None? && ctx.gpuVerified && AtLeast(ctx.gpuCompletedAt, commanded)
      then st.(appliedGpu := ctx.gpuCap, commandedAt := ctx.gpuCompletedAt) else st
  }

  predicate Applied(st: State, device: Device) {
    match device case Cpu => st.appliedCpu.Some? case Gpu => st.appliedGpu.Some?
  }

  predicate StepHeld(st: State, ctx: Context, device: Device) {
    match device
    case Cpu => PairHeld(ctx, OrElse(st.appliedCpu, st.stepCpu), st.baseGpu)
    case Gpu => PairHeld(ctx, st.baseCpu, OrElse(st.appliedGpu, st.stepGpu))
  }

  function GroupOf(ctx: Context, device: Device): Option<real> {
    match device case Cpu => FiniteOf(ctx.cpuGroup) case Gpu => FiniteOf(ctx.gpuGroup)
  }

  function StepSize(st: State, device: Device): real {
    match device
    case Cpu => OrElse(st.appliedCpu, st.baseCpu) - st.baseCpu
    case Gpu => OrElse(st.appliedGpu, st.baseGpu) as real - st.baseGpu as real
  }

  function Conclude(fit: Fitter, st: State, device: Device): Effect {
    var interval := if st.key.Some? then st.key.value.interval else 60;
    match fit(device, st.primary, StepSize(st, device), interval)
    case Some(gains) => Fitted(device, gains)
    case None => Noted
  }

  /** Leaves the response: the held pair is put back first. */
  function Finish(st: State, now: real, device: Device, effect: Effect): Outcome {
    var st' := st.(primary := [], responseLast := None);
    match device
    case Cpu =>
      (ClearWindows(st').(sub := RecoverGpu, recoveryStarted := Some(now), commandedAt := None, appliedGpu := None,
                          gates := FRESH_GATES),
       HeldPair(st) + [effect])
    case Gpu => (st'.(sub := Done), HeldPair(st) + [effect, StopBurner])
  }

  function OnResponse(fit: Fitter, st: State, now: real, ctx: Context, device: Device): Outcome {
    var st' := NoteApplied(st, now, ctx, device);
    if !Applied(st', device) then
      if now - OrElse(st.commandedAt, now) >= DEVICE_FIT_WINDOW_S then Abort(st') else (st', [])
    else if !StepHeld(st', ctx, device) then Abort(st')
    else
      var t := now - OrElse(st'.commandedAt, now);
      match GroupOf(ctx, device)
      case None => Finish(st', now, device, Noted)
      case Some(value) =>
        var gap := if st'.responseLast.Some? then now - st'.responseLast.value else t;
        if gap > RESPONSE_MAX_GAP_S then Finish(st', now, device, Noted)
        else
          var st'' := st'.(responseLast := Some(now), primary := st'.primary + [LS.Point(t, value)]);
          if t < DEVICE_FIT_WINDOW_S then (st'', [])
          else Finish(st'', now, device, Conclude(fit, st'', device))
  }

  function RetryCount(st: State, device: Device): nat {
    match device case Cpu => st.cpuRetries case Gpu => st.gpuRetries
  }

  /** A reset cap discards the response and settles again, twice per device. */
  function Retry(st: State, now: real): Outcome {
    var device := PhaseDevice(st);
    if RetryCount(st, device) >= MAX_RETRIES then Abort(st)
    else
      var cleared := ClearWindows(st).(primary := [], responseLast := None, commandedAt := None,
                                       appliedCpu := None, appliedGpu := None, gates := FRESH_GATES);
      (match device
       case Cpu => cleared.(cpuRetries := st.cpuRetries + 1, sub := Settle, settleStarted := Some(now))
       case Gpu => cleared.(gpuRetries := st.gpuRetries + 1, sub := RecoverGpu, recoveryStarted := Some(now)),
       HeldPair(st) + [Retrying])
  }

  function Dispatch(fit: Fitter, st: State, now: real, s: Sample, ctx: Context): Outcome {
    match st.sub
    case Settle => OnSettle(st, now, s, ctx)
    case CpuStep => OnResponse(fit, st, now, ctx, Cpu)
    case RecoverGpu => OnRecovery(st, now, s, ctx)
    case GpuStep => OnResponse(fit, st, now, ctx, Gpu)
    case Done => (st, [])
  }

  predicate ClockBad(st: State, s: Sample) {
    s.t.NonFinite? || (st.lastAt.Some? && s.t.v < st.lastAt.value)
  }

  /** The state in which the guards are judged. */
  function Timed(st: State, now: real, s: Sample, ctx: Context): State {
    var st' := st.(lastAt := Some(now));
    CountHot(if st.initialized then st' else Begin(st', now, ctx), s, ctx)
  }

  /** The guards, the key, and then the phase. */
  function Judge(fit: Fitter, st: State, first: bool, now: real, s: Sample, ctx: Context): Outcome {
    if GuardTrips(st, s, ctx) || KeyChanged(st, ctx) then Abort(st)
    else
      var keyed := FreezeKey(st, ctx);
      if first then (FirstGates(keyed, now, ctx), [StartBurner(BURNER_THREADS)] + HeldPair(keyed))
      else if ctx.cpuReset then Retry(keyed, now)
      else Dispatch(fit, keyed, now, s, ctx)
  }

  function Step(fit: Fitter, st: State, s: Sample, ctx: Context): Outcome {
    if ClockBad(st, s) then Abort(st)
    else Judge(fit, Timed(st, s.t.v, s, ctx), !st.initialized, s.t.v, s, ctx)
  }

  // ---- Runs ----

  datatype Input = Input(s: Sample, ctx: Context)

  /** The state after a run of samples. */
  function After(fit: Fitter, inputs: seq<Input>): State {
    if inputs == [] then INITIAL
    else
      var last := inputs[|inputs| - 1];
      Step(fit, After(fit, inputs[..|inputs| - 1]), last.s, last.ctx).0
  }

  /** The effects of the run's i-th sample. */
  function EffectsAt(fit: Fitter, inputs: seq<Input>, i: nat): seq<Effect>
    requires i < |inputs|
  {
    Step(fit, After(fit, inputs[..i]), inputs[i].s, inputs[i].ctx).1
  }
}
