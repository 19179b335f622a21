/** The step test as an object updated in place by each sample. Every method
    is tied to the transition of StepTest it performs. */
module StepTestMachine {
  import opened Prelude
  import opened TimedWindow
  import opened StepTest
  import LS = LeastSquares

  class PerDeviceStepTest {
    const fit: Fitter
    var sub: Sub
    var initialized: bool
    var runStarted: Option<real>
    var settleStarted: Option<real>
    var cpuRetries: nat
    var gpuRetries: nat
    var commandedAt: Option<real>
    var lastAt: Option<real>
    var hotStreak: nat
    var baseCpu: real
    var baseGpu: nat
    var stepCpu: real
    var stepGpu: nat
    var appliedCpu: Option<real>
    var appliedGpu: Option<nat>
    var recoveryStarted: Option<real>
    var responseLast: Option<real>
    var key: Option<Key>
    var cpuWindow: seq<Reading>
    var gpuWindow: seq<Reading>
    var fanWindow: seq<Reading>
    var gates: seq<GateDuration>
    var primary: seq<LS.Point>

    ghost function Abs(): State
      reads this
    {
      State(sub, initialized, runStarted, settleStarted, cpuRetries, gpuRetries, commandedAt, lastAt, hotStreak,
            baseCpu, baseGpu, stepCpu, stepGpu, appliedCpu, appliedGpu, recoveryStarted, responseLast, key,
            cpuWindow, gpuWindow, fanWindow, gates, primary)
    }

    constructor (fit: Fitter)
      ensures Abs() == INITIAL && this.fit == fit
    {
      this.fit := fit;
      sub, initialized := Settle, false;
      runStarted, settleStarted, commandedAt, lastAt := None, None, None, None;
      cpuRetries, gpuRetries, hotStreak := 0, 0, 0;
      baseCpu, baseGpu, stepCpu, stepGpu := 0.0, 0, 0.0, 0;
      appliedCpu, appliedGpu, recoveryStarted, responseLast, key := None, None, None, None, None;
      cpuWindow, gpuWindow, fanWindow, gates, primary := [], [], [], FRESH_GATES, [];
    }

    method HeldPairEffects() returns (effects: seq<Effect>)
      ensures effects == HeldPair(Abs())
    {
      return [SetCpu(baseCpu), SetGpu(baseGpu)];
    }

    /** Ends the run; an initialized run restores the held pair first. */
    method AbortRun() returns (effects: seq<Effect>)
      modifies this
      ensures Abs() == Abort(old(Abs())).0
      ensures effects == Abort(old(Abs())).1
    {
      hide ObserveAll;
      sub := Done;
      if !initialized {
        return [StopBurner, Noted];
      }
      return [SetCpu(baseCpu), SetGpu(baseGpu)] + [StopBurner, Noted];
    }

    method CountHotSample(s: Sample, ctx: Context)
      modifies this`hotStreak
      ensures Abs() == CountHot(old(Abs()), s, ctx)
    {
      hide MinN;
      hotStreak := if s.cpuTemp.Some? && s.cpuTemp.value >= ctx.cpuHot then MinN(hotStreak + 1, U8_MAX) else 0;
    }

    method GuardReason(s: Sample, ctx: Context) returns (tripped: bool)
      ensures tripped == GuardTrips(Abs(), s, ctx)
    {
      hide MinN;
      if s.ecMax.Some? && s.ecMax.value >= EC_MAX_ABORT_C {
        return true;
      } else if s.gpuTemp.Some? && s.gpuTemp.value >= ctx.gpuHot {
        return true;
      }
      return hotStreak >= CPU_HOT_SAMPLES;
    }

    /** Freezes the key on its first sighting; any later difference is a change. */
    method KeyChangeReason(ctx: Context) returns (changed: bool)
      modifies this`key
      ensures changed == old(KeyChanged(Abs(), ctx))
      ensures Abs() == FreezeKey(old(Abs()), ctx)
      ensures changed ==> Abs() == old(Abs())
    {
      var current := ContextKey(ctx);
      if key.None? {
        key := current;
        return false;
      }
      return current != key;
    }

    /** Passes one verdict to each of the seven gates. */
    method ObserveGates(now: real, verdicts: seq<bool>)
      requires |verdicts| == 7
      modifies this`gates
      ensures Abs() == old(Abs()).(gates := ObserveAll(old(gates), now, verdicts))
    {
      var updated: seq<GateDuration> := [];
      for i := 0 to |verdicts|
        invariant updated == ObserveAll(gates, now, verdicts)[..i]
      {
        var gate := if i < |gates| then gates[i] else FRESH_GATE;
        updated := updated + [gate.Observe(now, verdicts[i])];
      }
      gates := updated;
    }

    method EmptyWindows()
      modifies this`cpuWindow, this`gpuWindow, this`fanWindow
      ensures Abs() == ClearWindows(old(Abs()))
    {
      hide ObserveAll;
      cpuWindow, gpuWindow, fanWindow := [], [], [];
    }

    method PushWindows(now: real, s: Sample, ctx: Context)
      modifies this`cpuWindow, this`gpuWindow, this`fanWindow
      ensures Abs() == PushAll(old(Abs()), now, s, ctx)
    {
      hide Push;
      cpuWindow := PushTimedOptional(cpuWindow, ctx.cpuGroup, now, GROUP_WINDOW_S);
      gpuWindow := PushTimedOptional(gpuWindow, ctx.gpuGroup, now, GROUP_WINDOW_S);
      fanWindow := PushTimedOptional(fanWindow, s.fan, now, FAN_WINDOW_S);
    }

    method WatchSettling(now: real, s: Sample, ctx: Context, capsHeld: bool)
      modifies this`cpuWindow, this`gpuWindow, this`fanWindow, this`gates
      ensures Abs() == Watch(old(Abs()), now, s, ctx, capsHeld)
    {
      hide ObserveAll, SpanWithin, PushAll;
      if capsHeld && LoopQuiet(ctx) {
        PushWindows(now, s, ctx);
      } else {
        EmptyWindows();
      }
      var cpuFlat := TimedSpanWithin(cpuWindow, GROUP_WINDOW_S, CPU_GROUP_SPAN_C);
      var gpuFlat := TimedSpanWithin(gpuWindow, GROUP_WINDOW_S, GPU_GROUP_SPAN_C);
      var fansFlat := TimedSpanWithin(fanWindow, FAN_WINDOW_S, FAN_SPAN_RPM);
      ghost var before := Abs();
      assert [capsHeld, ctx.fanctrlActive, !ctx.ecMismatch, ctx.argmaxControllable, cpuFlat, gpuFlat, fansFlat]
          == [capsHeld, ctx.fanctrlActive, !ctx.ecMismatch, ctx.argmaxControllable] + Flats(before);
      ObserveGates(now, [capsHeld, ctx.fanctrlActive, !ctx.ecMismatch, ctx.argmaxControllable, cpuFlat, gpuFlat, fansFlat]);
    }

    method SetTargets(cpu: real, gpu: nat, cpuMax: real, gpuMax: nat)
      modifies this`baseCpu, this`baseGpu, this`stepCpu, this`stepGpu
      ensures Abs() == old(Abs()).(baseCpu := cpu, baseGpu := gpu, stepCpu := MinR(cpu + DEVICE_STEP_W, cpuMax),
                                   stepGpu := MinN(MinN(gpu + DEVICE_STEP_MHZ, U32_MAX), gpuMax))
    {
      hide MinR, MinN;
      baseCpu, baseGpu := cpu, gpu;
      stepCpu := MinR(cpu + DEVICE_STEP_W, cpuMax);
      stepGpu := MinN(MinN(gpu + DEVICE_STEP_MHZ, U32_MAX), gpuMax);
    }

    /** Takes the verified pair as the baseline, once per settle. */
    method AdoptPair(now: real, ctx: Context)
      modifies this`baseCpu, this`baseGpu, this`stepCpu, this`stepGpu, this`commandedAt
      ensures Abs() == Adopt(old(Abs()), now, ctx)
    {
      hide PairHeld, MinR, MinN, MaxR;
      var since := OrElse(runStarted, now);
      if commandedAt.None? && ctx.cpuVerified && ctx.gpuVerified && ctx.cpuCap.Some? && ctx.gpuCap.Some?
         && AtLeast(ctx.cpuCompletedAt, since) && AtLeast(ctx.gpuCompletedAt, since) {
        SetTargets(ctx.cpuCap.value, ctx.gpuCap.value, ctx.cpuMax, ctx.gpuMax);
        commandedAt := Some(MaxR(ctx.cpuCompletedAt.value, ctx.gpuCompletedAt.value));
      }
    }

    method EnterCpuStep(now: real)
      modifies this`sub, this`commandedAt, this`appliedCpu, this`responseLast, this`primary
      ensures Abs() == old(Abs()).(sub := CpuStep, commandedAt := Some(now), appliedCpu := None, responseLast := None, primary := [])
    {
      hide ObserveAll;
      DropResponse();
      sub, commandedAt, appliedCpu := CpuStep, Some(now), None;
    }

    method OnSettleSample(now: real, s: Sample, ctx: Context) returns (effects: seq<Effect>)
      modifies this
      ensures Abs() == OnSettle(old(Abs()), now, s, ctx).0
      ensures effects == OnSettle(old(Abs()), now, s, ctx).1
    {
      hide Adopt, Watch, PairHeld, ObserveAll;
      AdoptPair(now, ctx);
      var capsHeld := commandedAt.Some? && PairHeld(ctx, baseCpu, baseGpu);
      WatchSettling(now, s, ctx, capsHeld);
      if AllSatisfied(gates) {
        if key.None? {
          effects := AbortRun();
          return;
        }
        effects := [SetCpu(stepCpu)];
        EnterCpuStep(now);
        return;
      }
      if now - OrElse(settleStarted, now) >= DEVICE_SETTLE_S {
        effects := AbortRun();
        return;
      }
      return [];
    }

    method OnRecoverySample(now: real, s: Sample, ctx: Context) returns (effects: seq<Effect>)
      modifies this
      ensures Abs() == OnRecovery(old(Abs()), now, s, ctx).0
      ensures effects == OnRecovery(old(Abs()), now, s, ctx).1
    {
      hide Watch, ObserveAll;
      var started := OrElse(recoveryStarted, now);
      var capsHeld := AtLeast(ctx.cpuCompletedAt, started) && AtLeast(ctx.gpuCompletedAt, started)
                      && PairHeld(ctx, baseCpu, baseGpu);
      WatchSettling(now, s, ctx, capsHeld);
      if AllSatisfied(gates) {
        DropResponse();
        sub, commandedAt := GpuStep, Some(now);
        return [SetGpu(stepGpu)];
      }
      if now - started >= DEVICE_SETTLE_S {
        effects := AbortRun();
        return;
      }
      return [];
    }

    method EnterRecovery(now: real)
      modifies this`sub, this`recoveryStarted, this`commandedAt, this`appliedGpu
      ensures Abs() == old(Abs()).(sub := RecoverGpu, recoveryStarted := Some(now), commandedAt := None, appliedGpu := None)
    {
      hide ObserveAll;
      sub, recoveryStarted, commandedAt, appliedGpu := RecoverGpu, Some(now), None, None;
    }

    method FinishDeviceResponse(now: real, device: Device, effect: Effect) returns (effects: seq<Effect>)
      modifies this
      ensures Abs() == Finish(old(Abs()), now, device, effect).0
      ensures effects == Finish(old(Abs()), now, device, effect).1
    {
      hide ObserveAll;
      DropResponse();
      match device {
        case Cpu =>
          effects := [SetCpu(baseCpu), SetGpu(baseGpu)] + [effect];
          ResetGates();
          EnterRecovery(now);
        case Gpu =>
          sub := Done;
          effects := [SetCpu(baseCpu), SetGpu(baseGpu)] + [effect, StopBurner];
      }
    }

    method NoteAppliedCap(now: real, ctx: Context, device: Device)
      modifies this`appliedCpu, this`appliedGpu, this`commandedAt
      ensures Abs() == NoteApplied(old(Abs()), now, ctx, device)
    {
      hide ObserveAll;
      var commanded := OrElse(commandedAt, now);
      match device {
        case Cpu =>
          if appliedCpu.None? && ctx.cpuVerified && AtLeast(ctx.cpuCompletedAt, commanded) {
            appliedCpu, commandedAt := ctx.cpuCap, ctx.cpuCompletedAt;
          }
        case Gpu =>
          if appliedGpu.None? && ctx.gpuVerified && AtLeast(ctx.gpuCompletedAt, commanded) {
            appliedGpu, commandedAt := ctx.gpuCap, ctx.gpuCompletedAt;
          }
      }
    }

    /** Fits the collected response. */
    method ConcludeDevice(device: Device) returns (effect: Effect)
      ensures effect == Conclude(fit, Abs(), device)
    {
      var step := match device
        case Cpu => OrElse(appliedCpu, baseCpu) - baseCpu
        case Gpu => OrElse(appliedGpu, baseGpu) as real - baseGpu as real;
      var gains := fit(device, primary, step, if key.Some? then key.value.interval else 60);
      match gains {
        case Some(g) => return Fitted(device, g);
        case None => return Noted;
      }
    }

    method OnResponseSample(now: real, ctx: Context, device: Device) returns (effects: seq<Effect>)
      modifies this
      ensures Abs() == OnResponse(fit, old(Abs()), now, ctx, device).0
      ensures effects == OnResponse(fit, old(Abs()), now, ctx, device).1
    {
      hide Conclude, PairHeld, NoteApplied, Finish;
      var commanded := OrElse(commandedAt, now);
      NoteAppliedCap(now, ctx, device);
      var applied := match device case Cpu => appliedCpu.Some? case Gpu => appliedGpu.Some?;
      if !applied {
        if now - commanded >= DEVICE_FIT_WINDOW_S {
          effects := AbortRun();
          return;
        }
        return [];
      }
      var pairHeld := match device
        case Cpu => PairHeld(ctx, OrElse(appliedCpu, stepCpu), baseGpu)
        case Gpu => PairHeld(ctx, baseCpu, OrElse(appliedGpu, stepGpu));
      if !pairHeld {
        effects := AbortRun();
        return;
      }
      var t := now - OrElse(commandedAt, now);
      var group := GroupOf(ctx, device);
      if group.None? {
        effects := FinishDeviceResponse(now, device, Noted);
        return;
      }
      var gap := if responseLast.Some? then now - responseLast.value else t;
      if gap > RESPONSE_MAX_GAP_S {
        effects := FinishDeviceResponse(now, device, Noted);
        return;
      }
      responseLast, primary := Some(now), primary + [LS.Point(t, group.value)];
      if t < DEVICE_FIT_WINDOW_S {
        return [];
      }
      var conclusion := ConcludeDevice(device);
      effects := FinishDeviceResponse(now, device, conclusion);
    }

    /** Forgets the response collected so far. */
    method DropResponse()
      modifies this`primary, this`responseLast
      ensures Abs() == old(Abs()).(primary := [], responseLast := None)
    {
      primary, responseLast := [], None;
    }

    method ForgetCommand()
      modifies this`commandedAt, this`appliedCpu, this`appliedGpu
      ensures Abs() == old(Abs()).(commandedAt := None, appliedCpu := None, appliedGpu := None)
    {
      hide ObserveAll;
      commandedAt, appliedCpu, appliedGpu := None, None, None;
    }

    /** Forgets everything the settling gates have seen. */
    method ResetGates()
      modifies this`cpuWindow, this`gpuWindow, this`fanWindow, this`gates
      ensures Abs() == ClearWindows(old(Abs())).(gates := FRESH_GATES)
    {
      hide ObserveAll;
      EmptyWindows();
      gates := FRESH_GATES;
    }

    method CountCpuRetry(now: real)
      modifies this`cpuRetries, this`sub, this`settleStarted
      ensures Abs() == old(Abs()).(cpuRetries := old(cpuRetries) + 1, sub := Settle, settleStarted := Some(now))
    {
      hide ObserveAll;
      cpuRetries, sub, settleStarted := cpuRetries + 1, Settle, Some(now);
    }

    method CountGpuRetry(now: real)
      modifies this`gpuRetries, this`sub, this`recoveryStarted
      ensures Abs() == old(Abs()).(gpuRetries := old(gpuRetries) + 1, sub := RecoverGpu, recoveryStarted := Some(now))
    {
      hide ObserveAll;
      gpuRetries, sub, recoveryStarted := gpuRetries + 1, RecoverGpu, Some(now);
    }

    method RetryAfterCpuCapReset(now: real) returns (effects: seq<Effect>)
      modifies this
      ensures Abs() == Retry(old(Abs()), now).0
      ensures effects == Retry(old(Abs()), now).1
    {
      hide Abort;
      var onGpu := sub == RecoverGpu || sub == GpuStep;
      var retries := if onGpu then gpuRetries else cpuRetries;
      if retries >= MAX_RETRIES {
        effects := AbortRun();
        return;
      }
      effects := [SetCpu(baseCpu), SetGpu(baseGpu)] + [Retrying];
      assert effects == HeldPair(Abs()) + [Retrying];
      assert retries == RetryCount(Abs(), PhaseDevice(Abs()));
      hide Abs;
      DropResponse();
      ResetGates();
      ForgetCommand();
      if onGpu {
        CountGpuRetry(now);
      } else {
        CountCpuRetry(now);
      }
    }

    method StartClocks(now: real)
      modifies this`initialized, this`runStarted, this`settleStarted
      ensures Abs() == old(Abs()).(initialized := true, runStarted := Some(now), settleStarted := Some(now))
    {
      hide ObserveAll;
      initialized, runStarted, settleStarted := true, Some(now), Some(now);
    }

    method BeginRun(now: real, ctx: Context)
      modifies this
      ensures Abs() == Begin(old(Abs()), now, ctx)
    {
      hide ObserveAll;
      StartClocks(now);
      baseCpu := if ctx.useCurrentCaps then OrElse(ctx.cpuCap, ctx.cpuFloor) else ctx.cpuFloor;
      baseGpu := if ctx.useCurrentCaps then OrElse(ctx.gpuCap, ctx.gpuFloor) else ctx.gpuFloor;
      var k := ContextKey(ctx);
      if k.Some? {
        key := k;
      }
    }

    /** The part of a sample that follows the clock and hot-streak updates. */
    method OnJudgedSample(first: bool, now: real, s: Sample, ctx: Context) returns (effects: seq<Effect>)
      modifies this
      ensures Abs() == Judge(fit, old(Abs()), first, now, s, ctx).0
      ensures effects == Judge(fit, old(Abs()), first, now, s, ctx).1
    {
      hide OnSettle, OnRecovery, OnResponse, Retry, ObserveAll, GuardTrips, KeyChanged, FreezeKey, Abort;
      var tripped := GuardReason(s, ctx);
      if tripped {
        effects := AbortRun();
        return;
      }
      var changed := KeyChangeReason(ctx);
      if changed {
        effects := AbortRun();
        return;
      }
      if !first && ctx.cpuReset {
        effects := RetryAfterCpuCapReset(now);
        return;
      }
      if first {
        ObserveGates(now, [false, ctx.fanctrlActive, !ctx.ecMismatch, ctx.argmaxControllable, false, false, false]);
        var pair := HeldPairEffects();
        return [StartBurner(BURNER_THREADS)] + pair;
      }
      match sub {
        case Settle => effects := OnSettleSample(now, s, ctx);
        case CpuStep => effects := OnResponseSample(now, ctx, Cpu);
        case RecoverGpu => effects := OnRecoverySample(now, s, ctx);
        case GpuStep => effects := OnResponseSample(now, ctx, Gpu);
        case Done => effects := [];
      }
    }

    /** One sample of the run. */
    method OnSample(s: Sample, ctx: Context) returns (effects: seq<Effect>)
      modifies this
      ensures Abs() == Step(fit, old(Abs()), s, ctx).0
      ensures effects == Step(fit, old(Abs()), s, ctx).1
    {
      hide Judge, Begin, CountHot, Abort;
      if s.t.NonFinite? || (lastAt.Some? && s.t.v < lastAt.value) {
        effects := AbortRun();
        return;
      }
      var now := s.t.v;
      var first := !initialized;
      lastAt := Some(now);
      if first {
        BeginRun(now, ctx);
      }
      CountHotSample(s, ctx);
      effects := OnJudgedSample(first, now, s, ctx);
    }
  }
}
