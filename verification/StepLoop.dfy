/** The step test closed with actuators that apply each request their own way
    (clamped, rounded): only one device is ever away from the baseline, the
    baseline is fixed once adopted, and every ending restores the pair first. */
module StepLoop {
  import opened Prelude
  import opened StepTest
  import opened TimedWindow
  import LS = LeastSquares

  /** What a requested cap becomes. */
  datatype Actuators = Actuators(cpu: real -> real, gpu: nat -> nat)

  datatype Plant = Plant(cpu: real, gpu: nat, burner: bool)

  /** Requesting a cap that was already applied changes nothing. */
  ghost predicate Settled(act: Actuators) {
    && (forall w :: act.cpu(act.cpu(w)) == act.cpu(w))
    && (forall m :: act.gpu(act.gpu(m)) == act.gpu(m))
  }

  function Apply(act: Actuators, p: Plant, e: Effect): Plant {
    match e
    case SetCpu(w) => p.(cpu := act.cpu(w))
    case SetGpu(m) => p.(gpu := act.gpu(m))
    case StartBurner(_) => p.(burner := true)
    case StopBurner => p.(burner := false)
    case _ => p
  }

  function ApplyAll(act: Actuators, p: Plant, effects: seq<Effect>): Plant
    decreases |effects|
  {
    if effects == [] then p else ApplyAll(act, Apply(act, p, effects[0]), effects[1..])
  }

  /** A verified cap is reported at its applied value. */
  predicate Reports(p: Plant, ctx: Context) {
    && (ctx.cpuVerified && ctx.cpuCap.Some? ==> ctx.cpuCap.value == p.cpu)
    && (ctx.gpuVerified && ctx.gpuCap.Some? ==> ctx.gpuCap.value == p.gpu)
  }

  /** The baseline is a pair the actuators can hold exactly. */
  predicate Holdable(act: Actuators, st: State) {
    act.cpu(st.baseCpu) == st.baseCpu && act.gpu(st.baseGpu) == st.baseGpu
  }

  predicate Stepping(st: State) {
    st.sub == CpuStep || st.sub == RecoverGpu || st.sub == GpuStep || (st.sub == Settle && st.commandedAt.Some?)
  }

  /** The plant carries the baseline, except for the one device being stepped. */
  predicate InLoop(act: Actuators, st: State, p: Plant) {
    && (st.initialized ==>
          && p.cpu == act.cpu(if st.sub == CpuStep then st.stepCpu else st.baseCpu)
          && p.gpu == act.gpu(if st.sub == GpuStep then st.stepGpu else st.baseGpu))
    && (st.initialized && Stepping(st) ==> Holdable(act, st))
    && (!st.initialized ==> (st.sub == Settle || st.sub == Done) && st.commandedAt.None?)
    && p.burner == (st.initialized && st.sub != Done)
  }

  /** The baseline may only move before it was ever adopted. */
  predicate KeepsBaseline(act: Actuators, st: State, st': State) {
    Holdable(act, st) ==> st'.baseCpu == st.baseCpu && st'.baseGpu == st.baseGpu
  }

  /** The held pair comes first and no other cap request follows. */
  predicate RestoresFirst(st: State, effects: seq<Effect>) {
    && |effects| >= 3 && effects[..2] == HeldPair(st)
    && forall i :: 2 <= i < |effects| ==> !effects[i].SetCpu? && !effects[i].SetGpu?
  }

  predicate Outcomes(act: Actuators, st: State, p: Plant, out: Outcome) {
    && InLoop(act, out.0, ApplyAll(act, p, out.1))
    && KeepsBaseline(act, st, out.0)
    && out.0.initialized && StartBurner(BURNER_THREADS) !in out.1
    && (out.0.sub == Done <==> StopBurner in out.1)
    && (StopBurner in out.1 ==> RestoresFirst(out.0, out.1))
  }

  lemma {:induction false} ApplyPairFirst(act: Actuators, p: Plant, st: State, rest: seq<Effect>)
    ensures ApplyAll(act, p, HeldPair(st) + rest)
         == ApplyAll(act, p.(cpu := act.cpu(st.baseCpu), gpu := act.gpu(st.baseGpu)), rest)
  {
    var all := HeldPair(st) + rest;
    assert all[1..] == [SetGpu(st.baseGpu)] + rest;
    assert all[1..][1..] == rest;
  }

  lemma {:induction false} ApplyOne(act: Actuators, p: Plant, e: Effect)
    ensures ApplyAll(act, p, [e]) == Apply(act, p, e)
  {
    assert [e][1..] == [];
  }

  lemma {:induction false} ApplyTwo(act: Actuators, p: Plant, e: Effect, e': Effect)
    ensures ApplyAll(act, p, [e, e']) == Apply(act, Apply(act, p, e), e')
  {
    assert [e, e'][1..] == [e'];
    ApplyOne(act, Apply(act, p, e), e');
  }

  lemma {:induction false} AbortLoop(act: Actuators, st: State, p: Plant)
    requires st.initialized
    ensures Outcomes(act, st, p, Abort(st))
  {
    hide ApplyAll;
    ApplyPairFirst(act, p, st, [StopBurner, Noted]);
    ApplyTwo(act, p.(cpu := act.cpu(st.baseCpu), gpu := act.gpu(st.baseGpu)), StopBurner, Noted);
  }

  lemma {:induction false} QuietLoop(act: Actuators, st: State, p: Plant, st': State)
    requires InLoop(act, st', p) && KeepsBaseline(act, st, st') && st'.initialized && st'.sub != Done
    ensures Outcomes(act, st, p, (st', []))
  {
  }

  /** Adopting the verified pair keeps the loop closed, and is what makes the
      baseline holdable. */
  lemma {:induction false} AdoptLoop(act: Actuators, st: State, p: Plant, now: real, ctx: Context)
    requires Settled(act) && InLoop(act, st, p) && Reports(p, ctx) && st.sub == Settle && st.initialized
    ensures InLoop(act, Adopt(st, now, ctx), p) && KeepsBaseline(act, st, Adopt(st, now, ctx))
    ensures Adopt(st, now, ctx).sub == Settle && Adopt(st, now, ctx).initialized
  {
    hide MinR, MinN, MaxR;
    assert act.cpu(act.cpu(st.baseCpu)) == act.cpu(st.baseCpu) && act.gpu(act.gpu(st.baseGpu)) == act.gpu(st.baseGpu);
  }

  /** Watching the windows touches neither the pair nor the phase. */
  lemma {:induction false} WatchLoop(act: Actuators, st: State, p: Plant, now: real, s: Sample, ctx: Context, held: bool)
    requires InLoop(act, st, p)
    ensures var st' := Watch(st, now, s, ctx, held);
            && InLoop(act, st', p) && st'.sub == st.sub && st'.initialized == st.initialized && st'.commandedAt == st.commandedAt
            && st'.baseCpu == st.baseCpu && st'.baseGpu == st.baseGpu
  {
    hide ObserveAll, Push, Flats, LoopQuiet;
  }

  lemma {:induction false} SettleLoop(act: Actuators, st: State, p: Plant, now: real, s: Sample, ctx: Context)
    requires Settled(act) && InLoop(act, st, p) && Reports(p, ctx) && st.sub == Settle && st.initialized
    ensures Outcomes(act, st, p, OnSettle(st, now, s, ctx))
  {
    hide Adopt, Watch, ApplyAll, AllSatisfied, Abort;
    AdoptLoop(act, st, p, now, ctx);
    var adopted := Adopt(st, now, ctx);
    var held := SettleHeld(adopted, ctx);
    WatchLoop(act, adopted, p, now, s, ctx, held);
    var st' := Watch(adopted, now, s, ctx, held);
    SettledNeedsHeld(adopted, now, s, ctx, held);
    AbortLoop(act, st', p);
    ApplyOne(act, p, SetCpu(st'.stepCpu));
    QuietLoop(act, st, p, st');
  }

  lemma {:induction false} SettledNeedsHeld(st: State, now: real, s: Sample, ctx: Context, held: bool)
    ensures AllSatisfied(Watch(st, now, s, ctx, held).gates) ==> held
  {
    hide Watch, AllSatisfied;
    SettledMeans(st, now, s, ctx, held);
  }

  lemma {:induction false} RecoveryLoop(act: Actuators, st: State, p: Plant, now: real, s: Sample, ctx: Context)
    requires Settled(act) && InLoop(act, st, p) && st.sub == RecoverGpu && st.initialized
    ensures Outcomes(act, st, p, OnRecovery(st, now, s, ctx))
  {
    hide Watch, ApplyAll, AllSatisfied, Abort;
    var held := RecoveryHeld(st, now, ctx);
    WatchLoop(act, st, p, now, s, ctx, held);
    var st' := Watch(st, now, s, ctx, held);
    AbortLoop(act, st', p);
    ApplyOne(act, p, SetGpu(st'.stepGpu));
    QuietLoop(act, st, p, st');
  }

  lemma {:induction false} FinishLoop(act: Actuators, st: State, p: Plant, now: real, device: Device, e: Effect)
    requires Settled(act) && InLoop(act, st, p) && st.initialized && st.sub == (if device == Cpu then CpuStep else GpuStep)
    requires e == Noted || e.Fitted?
    ensures Outcomes(act, st, p, Finish(st, now, device, e))
  {
    hide ApplyAll, ObserveAll;
    var p' := p.(cpu := act.cpu(st.baseCpu), gpu := act.gpu(st.baseGpu));
    match device {
      case Cpu =>
        ApplyPairFirst(act, p, st, [e]);
        ApplyOne(act, p', e);
      case Gpu =>
        ApplyPairFirst(act, p, st, [e, StopBurner]);
        ApplyTwo(act, p', e, StopBurner);
    }
  }

  lemma {:induction false} ResponseLoop(fit: Fitter, act: Actuators, st: State, p: Plant, now: real, ctx: Context, device: Device)
    requires Settled(act) && InLoop(act, st, p) && st.initialized && st.sub == (if device == Cpu then CpuStep else GpuStep)
    ensures Outcomes(act, st, p, OnResponse(fit, st, now, ctx, device))
  {
    hide ApplyAll, Conclude, Finish, Abort, StepHeld, GroupOf, NoteApplied;
    var st' := NoteApplied(st, now, ctx, device);
    AppliedLoop(act, st, p, now, ctx, device);
    AbortLoop(act, st', p);
    QuietLoop(act, st, p, st');
    FinishLoop(act, st', p, now, device, Noted);
    if GroupOf(ctx, device).Some? {
      var t := now - OrElse(st'.commandedAt, now);
      var recorded := st'.(responseLast := Some(now), primary := st'.primary + [LS.Point(t, GroupOf(ctx, device).value)]);
      ConcludeKind(fit, recorded, device);
      FinishLoop(act, recorded, p, now, device, Conclude(fit, recorded, device));
      QuietLoop(act, st, p, recorded);
    }
  }

  lemma {:induction false} AppliedLoop(act: Actuators, st: State, p: Plant, now: real, ctx: Context, device: Device)
    requires InLoop(act, st, p) && st.initialized && st.sub == (if device == Cpu then CpuStep else GpuStep)
    ensures var st' := NoteApplied(st, now, ctx, device);
            && InLoop(act, st', p) && st'.sub == st.sub && st'.initialized
            && st'.baseCpu == st.baseCpu && st'.baseGpu == st.baseGpu
  {
  }

  lemma {:induction false} ConcludeKind(fit: Fitter, st: State, device: Device)
    ensures var e := Conclude(fit, st, device); e == Noted || e.Fitted?
  {
  }

  lemma {:induction false} RetryLoop(act: Actuators, st: State, p: Plant, now: real)
    requires Settled(act) && InLoop(act, st, p) && st.initialized && st.sub != Done
    ensures Outcomes(act, st, p, Retry(st, now))
  {
    hide ApplyAll, Abort, ObserveAll;
    AbortLoop(act, st, p);
    var p' := p.(cpu := act.cpu(st.baseCpu), gpu := act.gpu(st.baseGpu));
    ApplyPairFirst(act, p, st, [Retrying]);
    ApplyOne(act, p', Retrying);
  }

  lemma {:induction false} DispatchLoop(fit: Fitter, act: Actuators, st: State, p: Plant, now: real, s: Sample, ctx: Context)
    requires Settled(act) && InLoop(act, st, p) && Reports(p, ctx) && st.initialized && st.sub != Done
    ensures Outcomes(act, st, p, Dispatch(fit, st, now, s, ctx))
  {
    hide OnSettle, OnRecovery, OnResponse, Outcomes, InLoop;
    match st.sub {
      case Settle => SettleLoop(act, st, p, now, s, ctx);
      case CpuStep => ResponseLoop(fit, act, st, p, now, ctx, Cpu);
      case RecoverGpu => RecoveryLoop(act, st, p, now, s, ctx);
      case GpuStep => ResponseLoop(fit, act, st, p, now, ctx, Gpu);
      case Done =>
    }
  }

  /** One sample of a run under way, its effects applied before the next:
      the loop stays closed, the adopted baseline stays put, the burner is
      never started again, and the run ends exactly when it stops the burner,
      which it does only after restoring the held pair. */
  lemma {:induction false} StepClosesLoop(fit: Fitter, act: Actuators, st: State, p: Plant, x: Input)
    requires Settled(act) && InLoop(act, st, p) && Reports(p, x.ctx) && st.initialized && st.sub != Done
    ensures Outcomes(act, st, p, Step(fit, st, x.s, x.ctx))
  {
    hide Abort, Retry, Dispatch, GuardTrips, ContextKey, Outcomes, AtLeast;
    AbortLoop(act, st, p);
    if !ClockBad(st, x.s) {
      var now := x.s.t.v;
      var timed := Timed(st, now, x.s, x.ctx);
      var keyed := FreezeKey(timed, x.ctx);
      SameLoop(act, st, timed, p);
      SameLoop(act, st, keyed, p);
      AbortLoop(act, timed, p);
      OutcomesFrom(act, st, timed, p, Abort(timed));
      RetryLoop(act, keyed, p, now);
      OutcomesFrom(act, st, keyed, p, Retry(keyed, now));
      DispatchLoop(fit, act, keyed, p, now, x.s, x.ctx);
      OutcomesFrom(act, st, keyed, p, Dispatch(fit, keyed, now, x.s, x.ctx));
    }
  }

  predicate SamePhase(st: State, st': State) {
    && st'.sub == st.sub && st'.initialized == st.initialized && st'.commandedAt == st.commandedAt
    && st'.baseCpu == st.baseCpu && st'.baseGpu == st.baseGpu && st'.stepCpu == st.stepCpu && st'.stepGpu == st.stepGpu
  }

  lemma {:induction false} SameLoop(act: Actuators, st: State, st': State, p: Plant)
    requires SamePhase(st, st') && InLoop(act, st, p)
    ensures InLoop(act, st', p)
  {
  }

  lemma {:induction false} OutcomesFrom(act: Actuators, st: State, st': State, p: Plant, out: Outcome)
    requires SamePhase(st, st') && Outcomes(act, st', p, out)
    ensures Outcomes(act, st, p, out)
  {
    hide InLoop, ApplyAll, RestoresFirst;
  }

  /** The first sample starts the burner and requests the pair, or ends the
      run at once. */
  lemma {:induction false} FirstClosesLoop(fit: Fitter, act: Actuators, p: Plant, x: Input)
    requires !p.burner
    ensures Opens(act, p, Step(fit, INITIAL, x.s, x.ctx))
  {
    hide GuardTrips, KeyChanged, FreezeKey, ContextKey, ObserveAll, CountHot, ApplyAll, InLoop, Abort;
    RefusedLoop(act, p);
    if !ClockBad(INITIAL, x.s) {
      var now := x.s.t.v;
      var timed := Timed(INITIAL, now, x.s, x.ctx);
      FirstTimed(now, x);
      AbortLoop(act, timed, p);
      var keyed := FreezeKey(timed, x.ctx);
      FrozenPhase(timed, x.ctx);
      StartLoop(act, p, FirstGates(keyed, now, x.ctx));
    }
  }

  predicate Opens(act: Actuators, p: Plant, out: Outcome) {
    && InLoop(act, out.0, ApplyAll(act, p, out.1))
    && (out.0.sub == Done <==> StopBurner in out.1)
    && (StartBurner(BURNER_THREADS) in out.1 ==> out.1 == [StartBurner(BURNER_THREADS)] + HeldPair(out.0))
    && (StopBurner in out.1 && out.0.initialized ==> RestoresFirst(out.0, out.1))
    && (out.0.sub == Done || out.0.initialized)
  }

  lemma {:induction false} RefusedLoop(act: Actuators, p: Plant)
    requires !p.burner
    ensures Opens(act, p, Abort(INITIAL))
  {
    hide ApplyAll;
    ApplyTwo(act, p, StopBurner, Noted);
  }

  lemma {:induction false} FirstTimed(now: real, x: Input)
    ensures var timed := Timed(INITIAL, now, x.s, x.ctx);
            timed.initialized && timed.sub == Settle && timed.commandedAt.None?
  {
    hide ContextKey, CountHot;
    assert CountHot(INITIAL, x.s, x.ctx).sub == Settle by { CountHotPhase(INITIAL, x); }
    CountHotPhase(Begin(INITIAL.(lastAt := Some(now)), now, x.ctx), x);
  }

  lemma {:induction false} CountHotPhase(st: State, x: Input)
    ensures SamePhase(st, CountHot(st, x.s, x.ctx))
  {
  }

  lemma {:induction false} FrozenPhase(st: State, ctx: Context)
    ensures SamePhase(st, FreezeKey(st, ctx))
  {
  }

  lemma {:induction false} StartLoop(act: Actuators, p: Plant, st: State)
    requires st.initialized && st.sub == Settle && st.commandedAt.None?
    ensures Opens(act, p, (st, [StartBurner(BURNER_THREADS)] + HeldPair(st)))
  {
    hide ApplyAll;
    ApplyStart(act, p, st);
  }

  lemma {:induction false} ApplyStart(act: Actuators, p: Plant, st: State)
    ensures ApplyAll(act, p, [StartBurner(BURNER_THREADS)] + HeldPair(st))
         == Plant(act.cpu(st.baseCpu), act.gpu(st.baseGpu), true)
  {
    var all := [StartBurner(BURNER_THREADS)] + HeldPair(st);
    assert all[1..] == HeldPair(st) + [];
    ApplyPairFirst(act, p.(burner := true), st, []);
  }
}
