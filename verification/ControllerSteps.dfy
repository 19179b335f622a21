/** What one command or sample does to the mode, the hold and the limits of a
    session that keeps the invariant. */
module ControllerSteps {
  import opened Prelude
  import opened Controller
  import opened ControllerProofs
  import opened ControllerSessions
  import opened Runner
  import StepTest
  import G = GpuVerify

  // ---- Limits ----

  predicate MonitorIsStock(sh: Shell) {
    sh.status.mode == Monitor ==> Bare(sh)
  }

  predicate SameLimits(sh: Shell, sh': Shell) {
    sh'.status.cpuLimit == sh.status.cpuLimit && sh'.status.gpuMax == sh.status.gpuMax
  }

  /** A calibration's cap write that came back verified. */
  predicate Answers(e: RunnerEffect, reply: Reply, world: World) {
    && !world.down && e.Machine?
    && ((e.e.SetCpu? && world.hasCpu && reply.cpu.Some?) || (e.e.SetGpu? && world.hasGpu && reply.gpu.Some?))
  }

  predicate CapAnswered(effects: seq<RunnerEffect>, world: World) {
    exists i {:trigger effects[i]} :: 0 <= i < |effects| && Answers(effects[i], ReplyAt(world, i), world)
  }

  lemma {:induction false} SyncKeepsLimits(sh: Shell, f: Flag, on: bool)
    ensures SameLimits(sh, SyncFlag(sh, f, on))
  {
    hide Without;
  }

  lemma {:induction false} BurnerKeepsLimits(sh: Shell)
    ensures SameLimits(sh, StopBurner(sh))
  {
  }

  lemma {:induction false} CpuAnswerBares(sh: Shell, reply: Reply, sampled: bool)
    ensures Bare(CpuAnswered(sh, reply, sampled)) <==> Bare(sh) && reply.cpu.None?
  {
  }

  lemma {:induction false} GpuAnswerBares(sh: Shell, reply: Reply, sampled: bool)
    ensures Bare(GpuAnswered(sh, reply, sampled)) <==> Bare(sh) && reply.gpu.None?
  {
    hide G.Kept;
  }

  lemma {:induction false} EffectBares(sh: Shell, e: RunnerEffect, reply: Reply, sampled: bool, world: World)
    ensures Bare(CalibEffect(sh, e, reply, sampled, world)) <==> Bare(sh) && !Answers(e, reply, world)
  {
    hide SyncFlag, StopBurner, CpuAnswered, GpuAnswered;
    match e {
      case SaveState(cpu, gpu) => SyncKeepsLimits(sh.(saved := Saved(cpu, gpu)), NotCalibrated, !Calibrated(world.viewKey, cpu, gpu));
      case Finished =>
      case Machine(m) =>
        match m {
          case SetCpu(_) => CpuAnswerBares(Issue(sh.(evidence := sh.evidence.(cpuVerified := false)), CapCpu), reply, sampled);
          case SetGpu(_) => GpuAnswerBares(Issue(sh, CapGpu), reply, sampled);
          case StartBurner(_) => BurnerKeepsLimits(sh);
          case StopBurner => BurnerKeepsLimits(sh);
          case Fitted(_, _) =>
          case Noted =>
          case Retrying =>
        }
    }
  }

  /** A batch leaves nothing commanded exactly when nothing was before and no
      cap write of it came back verified. */
  lemma {:induction false} BatchBares(sh: Shell, effects: seq<RunnerEffect>, sampled: bool, world: World)
    ensures Bare(CalibEffects(sh, effects, sampled, world)) <==> Bare(sh) && !CapAnswered(effects, world)
  {
    hide CalibEffect, Answers, ReplyAt, Bare;
    if effects != [] {
      var n := |effects| - 1;
      BatchBares(sh, effects[..n], sampled, world);
      EffectBares(CalibEffects(sh, effects[..n], sampled, world), effects[n], ReplyAt(world, n), sampled, world);
      assert forall i :: 0 <= i < n ==> effects[..n][i] == effects[i];
    }
  }

  // ---- Commands ----

  /** How a run ends: back where it came from, with what its last batch left. */
  predicate EndedRun(sh: Shell, sh': Shell, batch: seq<RunnerEffect>, world: World) {
    && sh'.status.mode == (if sh.fromAuto then Auto else Monitor)
    && sh'.hold == sh.fromAuto
    && (Bare(sh') <==> Bare(sh) && !CapAnswered(batch, world))
  }

  lemma {:induction false} AbortEnds(sh: Shell, world: World)
    requires Inv(sh) && sh.status.mode == Calibrating
    ensures EndedRun(sh, AbortCalib(sh, world), OnAbort(sh.calib.value).1, world)
  {
    hide CalibEffects, OnAbort, EndCalibration, Respects, CapAnswered, NoDuplicates;
    AbortCalibRespects({}, sh, world);
    var r := sh.calib.value;
    AbortHasNoFinish(r);
    var sh1 := sh.(calib := None);
    BatchBares(sh1, OnAbort(r).1, false, world);
    EndRespects({}, false, CalibEffects(sh1, OnAbort(r).1, false, world));
  }

  predicate Starts(sh: Shell, c: Command) {
    c.StartCalibration? && !sh.watchdog.tripped && (sh.status.mode == Monitor || sh.status.mode == Auto)
  }

  lemma {:induction false} BusyCommand(sh: Shell, c: Command, world: World)
    requires Inv(sh) && !c.Quit? && sh.status.mode == Calibrating
    ensures var sh' := OnCommand(sh, c, world).0;
            if c.AbortCalibration? then EndedRun(sh, sh', OnAbort(sh.calib.value).1, world) else sh' == sh
  {
    hide NoDuplicates, AbortCalib, EndedRun;
    if c.AbortCalibration? {
      AbortEnds(sh, world);
      PendingIgnored(sh, AbortCalib(sh, world), OnAbort(sh.calib.value).1, world);
    }
  }

  lemma {:induction false} PendingIgnored(sh: Shell, sh': Shell, batch: seq<RunnerEffect>, world: World)
    requires EndedRun(sh, sh', batch, world)
    ensures EndedRun(sh, sh'.(pending := []), batch, world)
  {
    hide CapAnswered;
  }

  /** A command outside a calibration. */
  predicate IdleOutcome(sh: Shell, sh': Shell, starts: bool) {
    && sh'.hold == (sh.hold && !starts)
    && (sh'.status.mode == Calibrating <==> starts)
    && (starts ==> sh'.fromAuto == (sh.status.mode == Auto))
    && (MonitorIsStock(sh) ==> MonitorIsStock(sh'))
  }

  lemma {:induction false} IdleCommand(sh: Shell, c: Command, world: World)
    requires Inv(sh) && !c.Quit? && sh.status.mode != Calibrating
    ensures IdleOutcome(sh, OnCommand(sh, c, world).0, Starts(sh, c))
  {
    hide NoDuplicates, Sound, ReleaseToStock, AbortCalib, EnteredAuto, Acknowledge, CommandedCpu, CommandedGpu;
    InvOwned(sh);
    if sh.watchdog.tripped && Actuating(c) {
      AcknowledgeIsSound(sh, false);
    } else if !Rejected(sh, c) {
      match c {
        case ReleaseAll => Leaves(sh, world);
        case SetAuto(on) =>
          Leaves(sh, world);
          Enters(sh);
        case AbortCalibration => assert AbortCalib(sh, world) == sh by { NothingToAbort(sh, world); }
        case SetCpuW(verified) => ManualCpu(sh, verified, world);
        case SetGpuMaxClock(applied) => ManualGpu(sh, applied, world);
        case SetFanTarget =>
        case SetFloors =>
        case StartCalibration =>
        case DismissOutcome =>
      }
    }
  }

  lemma {:induction false} ManualCpu(sh: Shell, verified: Option<real>, world: World)
    requires sh.status.mode != Calibrating
    ensures IdleOutcome(sh, Drain(CommandedCpu(sh, verified, world), []).0, false)
  {
  }

  lemma {:induction false} ManualGpu(sh: Shell, applied: Option<nat>, world: World)
    requires sh.status.mode != Calibrating
    ensures IdleOutcome(sh, Drain(CommandedGpu(sh, applied, world), []).0, false)
  {
  }

  lemma {:induction false} NothingToAbort(sh: Shell, world: World)
    requires Inv(sh) && sh.status.mode != Calibrating
    ensures AbortCalib(sh, world) == sh
  {
    hide NoDuplicates;
  }

  lemma {:induction false} Leaves(sh: Shell, world: World)
    requires Inv(sh) && sh.status.mode != Calibrating
    ensures var sh' := Drain(ReleaseToStock(ExitAuto(sh), world), [Released]).0;
            sh'.hold == sh.hold && sh'.status.mode == Monitor && Bare(sh')
  {
    hide Respects, NoDuplicates, Uncapped, ReleaseToStock;
    ReleaseRespects({}, false, ExitAuto(sh), world);
  }

  lemma {:induction false} Enters(sh: Shell)
    ensures var sh' := Drain(EnteredAuto(sh), []).0; sh'.hold == sh.hold && sh'.status.mode == Auto
  {
  }

  lemma {:induction false} SoundKeepsInv(down: bool, sh: Shell, out: Outcome)
    requires Sound(down, sh, out)
    ensures Inv(out.0)
  {
    hide Inv, Replay, Uncapped;
  }

  // ---- Samples ----

  /** A sample that goes to its mode rather than to the emergency. */
  predicate Serviced(sh: Shell, s: Sample, world: World) {
    !world.down && (Observe(sh.watchdog, s).1 == NoTrip || !AnythingCommanded(sh))
  }

  /** The runner's answer to a calibrating sample. */
  function Taken(fit: StepTest.Fitter, sh: Shell, s: Sample, tick: Tick, world: World): (RunState, seq<RunnerEffect>)
    requires sh.calib.Some?
  {
    TakeSample(fit, sh.calib.value, Prepared(sh, sh.calib.value, s, tick, world).1)
  }

  lemma {:induction false} EmergencyEnds(sh: Shell, trip: Trip, world: World)
    requires NoDuplicates(sh.status.flags)
    ensures var sh' := EmergencyRelease(sh, trip, world).0;
            && sh'.hold == (if sh.calib.Some? then sh.fromAuto && sh.auto.Some? else sh.hold)
            && sh'.status.mode == Monitor && Bare(sh') && sh'.watchdog == sh.watchdog
  {
    hide Respects, NoDuplicates, Uncapped, ReleaseToStock, AbortCalib, AddFlag;
    var sh1 := AbortCalib(sh, world);
    AbortCalibRespects({}, sh, world);
    RespectsKeepsDistinct({}, world.down, sh, sh1);
    WatchdogKept({}, world.down, sh, sh1);
    ReleaseRespects({}, false, ExitAuto(sh1), world);
    WatchdogKept({}, false, ExitAuto(sh1), ReleaseToStock(ExitAuto(sh1), world));
    AddKeeps(ReleaseToStock(ExitAuto(sh1), world), if trip == Thermal then ThermalEmergency else SensorLost);
  }

  lemma {:induction false} AddKeeps(sh: Shell, f: Flag)
    ensures OnlyFlags(sh, AddFlag(sh, f))
  {
  }

  lemma {:induction false} FencedSample(fit: StepTest.Fitter, sh: Shell, s: Sample, tick: Tick, world: World)
    requires world.down
    ensures OnSample(fit, sh, s, tick, world) == (sh, []) && !Serviced(sh, s, world)
  {
    hide Observe;
  }

  predicate TrippedOutcome(sh: Shell, sh': Shell) {
    && sh'.hold == (if sh.status.mode == Calibrating then sh.fromAuto else sh.hold)
    && sh'.status.mode == Monitor && Bare(sh') && sh'.watchdog.tripped
  }

  lemma {:induction false} TripLatches(w: Watchdog, s: Sample)
    ensures Observe(w, s).1 != NoTrip ==> Observe(w, s).0.tripped
  {
  }

  lemma {:induction false} TrippedSample(fit: StepTest.Fitter, sh: Shell, s: Sample, tick: Tick, world: World)
    requires Inv(sh) && !world.down && !Serviced(sh, s, world)
    ensures TrippedOutcome(sh, OnSample(fit, sh, s, tick, world).0)
  {
    hide Respects, NoDuplicates, EmergencyRelease, AbortRunner, Proceed;
    InvOwned(sh);
    hide Observe;
    var (watchdog, trip) := Observe(sh.watchdog, s);
    TripLatches(sh.watchdog, s);
    var sh1 := sh.(watchdog := watchdog);
    EmergencyEnds(sh1, trip, world);
    if trip == Thermal && sh1.status.mode == Calibrating {
      AbortRunnerRespects({}, sh1, world);
      RespectsKeepsDistinct({}, world.down, sh1, AbortRunner(sh1, world));
      WatchdogKept({}, world.down, sh1, AbortRunner(sh1, world));
      EmergencyEnds(AbortRunner(sh1, world), Thermal, world);
    }
  }

  /** The session with the watchdog's view of an untripped sample. */
  function Watched(sh: Shell, s: Sample): Shell {
    var watchdog := Observe(sh.watchdog, s).0;
    sh.(watchdog := watchdog, idleWarned := sh.idleWarned && !watchdog.IsQuiet())
  }

  /** A serviced sample of a calibration: the run goes on or ends. */
  predicate BusyOutcome(sh: Shell, sh': Shell, r: RunState, batch: seq<RunnerEffect>, world: World) {
    if r.finished then EndedRun(sh, sh', batch, world)
    else sh'.status.mode == Calibrating && sh'.fromAuto == sh.fromAuto && sh'.hold == sh.hold && sh'.calib == Some(r)
  }

  lemma {:induction false} BusySample(fit: StepTest.Fitter, sh: Shell, s: Sample, tick: Tick, world: World)
    requires Inv(sh) && Serviced(sh, s, world) && sh.status.mode == Calibrating
    ensures var (r, batch) := Taken(fit, sh, s, tick, world);
            BusyOutcome(sh, OnSample(fit, sh, s, tick, world).0, r, batch, world)
  {
    hide NoDuplicates, Observe, TakeSample, Prepared, EndedRun, CalibSample;
    InvOwned(sh);
    var sh2 := Watched(sh, s);
    PreparedIgnoresWatchdog(sh, sh2, sh.calib.value, s, tick, world);
    CalibSampleEnds(fit, sh2, s, tick, world);
    var (r, batch) := Taken(fit, sh, s, tick, world);
    if r.finished {
      EndedFrom(sh, sh2, OnSample(fit, sh, s, tick, world).0, batch, world);
    }
  }

  lemma {:induction false} PreparedIgnoresWatchdog(sh: Shell, sh': Shell, r: RunState, s: Sample, tick: Tick, world: World)
    requires sh' == sh.(watchdog := sh'.watchdog, idleWarned := sh'.idleWarned)
    ensures Prepared(sh', r, s, tick, world).1 == Prepared(sh, r, s, tick, world).1
    ensures Prepared(sh', r, s, tick, world).0.evidence == Prepared(sh, r, s, tick, world).0.evidence
  {
    hide GpuScore, TooHotToRepair, FinishingResponse;
  }

  /** A calibrating sample whose batch does not end the run returns with that
      batch applied. */
  lemma {:induction false} SamplePasses(fit: StepTest.Fitter, sh: Shell, s: Sample, tick: Tick, world: World)
    requires sh.status.mode == Calibrating && sh.calib.Some? && Serviced(sh, s, world)
    requires Finished !in Taken(fit, sh, s, tick, world).1
    ensures var (r, batch) := Taken(fit, sh, s, tick, world);
            var prepared := Prepared(Watched(sh, s), sh.calib.value, s, tick, world).0;
            OnSample(fit, sh, s, tick, world).0 == CalibEffects(prepared.(calib := Some(r)), batch, true, world).(pending := [])
  {
    hide Observe, Prepared, TakeSample, CalibEffects, EndCalibration, Regulate;
    PreparedIgnoresWatchdog(sh, Watched(sh, s), sh.calib.value, s, tick, world);
  }

  lemma {:induction false} EndedFrom(sh: Shell, sh1: Shell, sh': Shell, batch: seq<RunnerEffect>, world: World)
    requires EndedRun(sh1, sh', batch, world) && sh1.fromAuto == sh.fromAuto && SameLimits(sh, sh1)
    ensures EndedRun(sh, sh', batch, world)
  {
    hide CapAnswered;
  }

  lemma {:induction false} CalibSampleEnds(fit: StepTest.Fitter, sh: Shell, s: Sample, tick: Tick, world: World)
    requires Owned(sh) && sh.status.mode == Calibrating && NoDuplicates(sh.status.flags)
    ensures var (r, batch) := Taken(fit, sh, s, tick, world);
            BusyOutcome(sh, CalibSample(fit, sh, s, tick, world).0, r, batch, world)
  {
    hide NoDuplicates, Respects, TakeSample, Prepared, CalibEffects, EndCalibration, CapAnswered, Uncapped;
    var (sh1, x) := Prepared(sh, sh.calib.value, s, tick, world);
    PreparedRespects({}, sh, sh.calib.value, s, tick, world);
    TakenRunner(fit, sh.calib.value, x);
    var (r, batch) := TakeSample(fit, sh.calib.value, x);
    var sh2 := sh1.(calib := Some(r));
    ApplyCalibRespects({}, sh2, batch, true, world);
    BatchBares(sh2, batch, true, world);
    EndRespects({}, false, CalibEffects(sh2, batch, true, world));
  }

  predicate QuietOutcome(sh: Shell, sh': Shell) {
    && sh'.status.mode == sh.status.mode && sh'.hold == (sh.hold && sh.status.mode != Auto)
    && (MonitorIsStock(sh) ==> MonitorIsStock(sh'))
  }

  lemma {:induction false} QuietSample(fit: StepTest.Fitter, sh: Shell, s: Sample, tick: Tick, world: World)
    requires Inv(sh) && Serviced(sh, s, world) && sh.status.mode != Calibrating
    ensures QuietOutcome(sh, OnSample(fit, sh, s, tick, world).0)
  {
    hide NoDuplicates, Observe, Regulate, Bare;
    InvOwned(sh);
    var (watchdog, trip) := Observe(sh.watchdog, s);
    var sh1 := sh.(watchdog := watchdog);
    var sh2 := sh1.(idleWarned := sh1.idleWarned && !watchdog.IsQuiet());
    var sh3 := sh1.(idleWarned := true, watchdog := ARMED);
    RegulateKeeps(sh2, s, tick, world);
    RegulateKeeps(sh3, s, tick, world);
    assert Bare(sh2) == Bare(sh) && Bare(sh3) == Bare(sh) by { SameBare(sh, sh2); SameBare(sh, sh3); }
  }

  lemma {:induction false} SameBare(sh: Shell, sh': Shell)
    requires sh'.status == sh.status
    ensures Bare(sh') == Bare(sh)
  {
  }

  lemma {:induction false} RegulateKeeps(sh: Shell, s: Sample, tick: Tick, world: World)
    requires NoDuplicates(sh.status.flags)
    ensures var sh' := Regulate(sh, s, tick, world).0;
            && sh'.status.mode == sh.status.mode && sh'.hold == sh.hold
            && (sh.status.mode != Auto && Bare(sh) ==> Bare(sh'))
  {
    hide NoDuplicates, Respects, Resume, AutoSample, Stickiness, Periodic, Uncapped;
    RegulatedRespects({}, sh, s, tick, world);
    assert Regulate(sh, s, tick, world).0 == Regulated(sh, s, tick, world).(pending := []);
  }
}
