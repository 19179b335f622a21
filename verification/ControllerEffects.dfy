/** What commands, calibrations and samples leave besides the hardware: the
    flags raised and cleared, the evidence of each cap write, the counters,
    the timers and what the runner is shown. */
module ControllerEffects {
  import opened Prelude
  import opened Controller
  import opened ControllerProofs
  import opened ControllerSessions
  import opened ControllerSteps
  import opened ControllerHardware
  import opened Runner
  import StepTest
  import V = Verdicts

  // ---- Flags ----

  /** The flags that neither a release nor the end of Auto clears. */
  predicate Lasting(f: Flag) {
    f == Resumed || f == ThermalEmergency || f == SensorLost
  }

  lemma {:induction false} RemovedExactly(sh: Shell, f: Flag)
    requires NoDuplicates(sh.status.flags)
    ensures NoDuplicates(RemoveFlag(sh, f).status.flags)
    ensures forall g :: g in RemoveFlag(sh, f).status.flags <==> g in sh.status.flags && g != f
  {
    RemoveTraces({}, sh, f);
    hide RemoveFlag, NoDuplicates;
  }

  lemma {:induction false} RemovalsExact(sh: Shell, flags: seq<Flag>)
    requires NoDuplicates(sh.status.flags)
    ensures NoDuplicates(RemoveAll(sh, flags).status.flags)
    ensures forall g :: g in RemoveAll(sh, flags).status.flags <==> g in sh.status.flags && g !in flags
  {
    hide RemoveFlag, NoDuplicates;
    if flags != [] {
      var front, last := flags[..|flags| - 1], flags[|flags| - 1];
      RemovalsExact(sh, front);
      RemovedExactly(RemoveAll(sh, front), last);
      assert forall g :: g in flags <==> g in front || g == last;
    }
  }

  lemma {:induction false} AutoFlagsAreTheRest(f: Flag)
    ensures f in AUTO_FLAGS <==> !Lasting(f)
  {
    match f {
      case LimitNotSticking =>
      case Resumed =>
      case NotCalibrated =>
      case TargetUnreachable =>
      case ThermalEmergency =>
      case SensorLost =>
      case FanctrlLost =>
      case EcMismatch =>
      case SteepCurve =>
      case CurveInvalid =>
      case GpuHot =>
      case NvmeHot =>
      case ReadbackBlind =>
    }
  }

  lemma {:induction false} ReleaseClears(sh: Shell, world: World)
    requires NoDuplicates(sh.status.flags)
    ensures var sh' := ReleaseToStock(sh, world);
            && (forall f :: f in sh'.status.flags <==> f in sh.status.flags && Lasting(f))
            && sh'.timers.stick == 0 && sh'.timers.lastReassert.None?
            && sh'.timers.strictUntil == sh.timers.strictUntil && sh'.timers.resumedUntil == sh.timers.resumedUntil
  {
    hide RemoveAll, NoDuplicates;
    var sh1 := if world.hasGpu then Issue(sh, StockGpu) else sh;
    var sh2 := if world.hasCpu then Issue(sh1, StockCpu) else sh1;
    var sh3 := sh2.(status := Status(Monitor, None, None, sh2.status.flags), timers := sh2.timers.(stick := 0, lastReassert := None));
    RemovalsExact(sh3, AUTO_FLAGS);
    RemovalsKeepTimers(sh3, AUTO_FLAGS);
    forall f ensures f in AUTO_FLAGS <==> !Lasting(f) { AutoFlagsAreTheRest(f); }
  }

  lemma {:induction false} RemovalsKeepTimers(sh: Shell, flags: seq<Flag>)
    ensures RemoveAll(sh, flags).timers == sh.timers
  {
    hide Without;
    if flags != [] {
      RemovalsKeepTimers(sh, flags[..|flags| - 1]);
    }
  }

  /** Releasing by command, or by leaving Auto, clears every flag but a resume
      and an alarm, and starts both watches over. */
  lemma {:induction false} ReleaseCommandsClear(sh: Shell, c: Command, world: World)
    requires NoDuplicates(sh.status.flags)
    requires (c.ReleaseAll? && sh.status.mode != Calibrating) || (c == SetAuto(false) && sh.status.mode == Auto)
    ensures var sh' := OnCommand(sh, c, world).0;
            && (forall f :: f in sh'.status.flags <==> f in sh.status.flags && Lasting(f))
            && sh'.timers.stick == 0 && sh'.timers.lastReassert.None? && sh'.auto.None? && sh'.status.mode == Monitor
  {
    hide ReleaseToStock, NoDuplicates, Respects, Uncapped;
    ReleaseClears(ExitAuto(sh), world);
    ReleaseRespects({}, false, ExitAuto(sh), world);
  }

  lemma {:induction false} FlagAfterSync(sh: Shell, f: Flag, on: bool)
    requires NoDuplicates(sh.status.flags)
    ensures var sh' := SyncFlag(sh, f, on);
            && NoDuplicates(sh'.status.flags) && (f in sh'.status.flags <==> on)
            && forall g :: g != f ==> (g in sh'.status.flags <==> g in sh.status.flags)
  {
    RemovedExactly(sh, f);
    AddTraces({}, sh, f);
    AddKeepsDistinct(sh, f);
    hide AddFlag, RemoveFlag, NoDuplicates;
  }

  /** Saving tells whether the view's key has a gain for both devices. */
  lemma {:induction false} SavingTellsCalibration(sh: Shell, cpu: GainMap, gpu: GainMap, reply: Reply, sampled: bool, world: World)
    requires NoDuplicates(sh.status.flags)
    ensures var sh' := CalibEffect(sh, SaveState(cpu, gpu), reply, sampled, world);
            && (NotCalibrated in sh'.status.flags <==>
                  !(world.viewKey.Some? && world.viewKey.value in cpu.Keys && world.viewKey.value in gpu.Keys))
            && forall g :: g != NotCalibrated ==> (g in sh'.status.flags <==> g in sh.status.flags)
  {
    hide SyncFlag;
    FlagAfterSync(sh.(saved := Saved(cpu, gpu)), NotCalibrated, !Calibrated(world.viewKey, cpu, gpu));
  }

  /** A batch moves no flag but the one that saving tells. */
  lemma {:induction false} BatchFlags(sh: Shell, effects: seq<RunnerEffect>, sampled: bool, world: World)
    requires NoDuplicates(sh.status.flags)
    ensures var sh' := CalibEffects(sh, effects, sampled, world);
            && NoDuplicates(sh'.status.flags)
            && forall g :: g != NotCalibrated ==> (g in sh'.status.flags <==> g in sh.status.flags)
  {
    hide NoDuplicates, CalibEffect;
    if effects != [] {
      var n := |effects| - 1;
      BatchFlags(sh, effects[..n], sampled, world);
      EffectFlags(CalibEffects(sh, effects[..n], sampled, world), effects[n], ReplyAt(world, n), sampled, world);
    }
  }

  lemma {:induction false} EffectFlags(sh: Shell, e: RunnerEffect, reply: Reply, sampled: bool, world: World)
    requires NoDuplicates(sh.status.flags)
    ensures var sh' := CalibEffect(sh, e, reply, sampled, world);
            && NoDuplicates(sh'.status.flags)
            && forall g :: g != NotCalibrated ==> (g in sh'.status.flags <==> g in sh.status.flags)
  {
    hide NoDuplicates, SyncFlag, MachineEffect;
    match e {
      case SaveState(cpu, gpu) =>
        FlagAfterSync(sh.(saved := Saved(cpu, gpu)), NotCalibrated, !Calibrated(world.viewKey, cpu, gpu));
      case Finished =>
      case Machine(m) => MachineFlags(sh, m, reply, sampled, world);
    }
  }

  lemma {:induction false} MachineFlags(sh: Shell, m: StepTest.Effect, reply: Reply, sampled: bool, world: World)
    ensures MachineEffect(sh, m, reply, sampled, world).status.flags == sh.status.flags
  {
    hide CpuAnswered, GpuAnswered;
    match m {
      case SetCpu(_) => CpuAnswerKeeps(Issue(sh.(evidence := sh.evidence.(cpuVerified := false)), CapCpu), reply, sampled);
      case SetGpu(_) => GpuAnswerKeeps(Issue(sh, CapGpu), reply, sampled);
      case StartBurner(_) =>
      case StopBurner =>
      case Fitted(_, _) =>
      case Noted =>
      case Retrying =>
    }
  }

  lemma {:induction false} EndFlags(sh: Shell)
    ensures EndCalibration(sh).status.flags == sh.status.flags
  {
  }

  lemma {:induction false} AbortFlags(sh: Shell, world: World)
    requires NoDuplicates(sh.status.flags)
    ensures var (a, b) := (AbortCalib(sh, world), AbortRunner(sh, world));
            && NoDuplicates(a.status.flags) && NoDuplicates(b.status.flags)
            && forall g :: g != NotCalibrated ==>
                 (g in a.status.flags <==> g in sh.status.flags) && (g in b.status.flags <==> g in sh.status.flags)
  {
    hide NoDuplicates, CalibEffects, EndCalibration, OnAbort;
    if sh.calib.Some? {
      var (r, batch) := OnAbort(sh.calib.value);
      AbortHasNoFinish(sh.calib.value);
      BatchFlags(sh.(calib := None), batch, false, world);
      BatchFlags(sh.(calib := Some(r)), batch, true, world);
      EndFlags(CalibEffects(sh.(calib := None), batch, false, world));
    }
  }

  function AlarmOf(trip: Trip): Flag {
    if trip == Thermal then ThermalEmergency else SensorLost
  }

  lemma {:induction false} EmergencyFlags(sh: Shell, trip: Trip, world: World)
    requires NoDuplicates(sh.status.flags)
    ensures var sh' := EmergencyRelease(sh, trip, world).0;
            forall f :: f in sh'.status.flags <==> f == AlarmOf(trip) || (f in sh.status.flags && Lasting(f))
  {
    hide NoDuplicates, AbortCalib, ReleaseToStock, Respects;
    AbortFlags(sh, world);
    var sh1 := ReleaseToStock(ExitAuto(AbortCalib(sh, world)), world);
    ReleaseClears(ExitAuto(AbortCalib(sh, world)), world);
    AddTraces({}, sh1, AlarmOf(trip));
  }

  /** A watchdog release raises its own alarm, a lost sensor or a thermal one,
      and clears every flag but a resume and an earlier alarm. */
  lemma {:induction false} TripRaisesItsAlarm(fit: StepTest.Fitter, sh: Shell, s: Sample, tick: Tick, world: World)
    requires Inv(sh) && !world.down && Observe(sh.watchdog, s).1 != NoTrip && AnythingCommanded(sh)
    ensures var sh' := OnSample(fit, sh, s, tick, world).0;
            var alarm := if Observe(sh.watchdog, s).1 == Thermal then ThermalEmergency else SensorLost;
            forall f :: f in sh'.status.flags <==> f == alarm || (f in sh.status.flags && Lasting(f))
  {
    hide NoDuplicates, Observe, EmergencyRelease, AbortRunner, Proceed, Lasting;
    InvOwned(sh);
    var (watchdog, trip) := Observe(sh.watchdog, s);
    var sh1 := sh.(watchdog := watchdog);
    assert AnythingCommanded(sh1);
    if trip == Thermal && sh1.status.mode == Calibrating {
      AbortFlags(sh1, world);
      EmergencyFlags(AbortRunner(sh1, world), Thermal, world);
      assert !Lasting(NotCalibrated) by { NotLasting(); }
    } else {
      EmergencyFlags(sh1, trip, world);
    }
  }

  lemma {:induction false} NotLasting()
    ensures !Lasting(NotCalibrated)
  {
  }

  /** Acknowledging clears exactly the alarms and arms the watchdog afresh. */
  lemma {:induction false} AcknowledgeClearsAlarms(sh: Shell, c: Command, world: World)
    requires Inv(sh) && sh.watchdog.tripped && Actuating(c)
    ensures var sh' := OnCommand(sh, c, world).0;
            && (forall f :: f in sh'.status.flags <==> f in sh.status.flags && f != ThermalEmergency && f != SensorLost)
            && sh'.watchdog == Watchdog(0, 0, false)
  {
    hide NoDuplicates, RemoveFlag;
    InvOwned(sh);
    RemovedExactly(sh, ThermalEmergency);
    RemovedExactly(RemoveFlag(sh, ThermalEmergency), SensorLost);
  }

  // ---- Commands ----

  /** In Auto a manual cap, and in a calibration everything but its end, leaves
      the controller exactly as it is. */
  lemma {:induction false} OwnedActuatorsAreLeftAlone(sh: Shell, c: Command, world: World)
    requires Inv(sh)
    requires (sh.status.mode == Auto && (c.SetCpuW? || c.SetGpuMaxClock?)) || (sh.status.mode == Calibrating && !c.AbortCalibration? && !c.Quit?)
    ensures OnCommand(sh, c, world) == (sh, [])
  {
    hide NoDuplicates;
    InvOwned(sh);
    var none: seq<Effect> := [];
    assert none + sh.pending == none;
    assert sh.(pending := []) == sh;
  }

  /** A manual cap outside Auto: written exactly when unfenced and present, in
      force exactly when then verified, the power watch starting over. */
  lemma {:induction false} ManualCapsTakeEffect(sh: Shell, c: Command, world: World)
    requires Inv(sh) && !sh.watchdog.tripped && (sh.status.mode == Monitor || sh.status.mode == Manual)
    ensures var sh' := OnCommand(sh, c, world).0;
            && (c.SetCpuW? ==>
                  var writes, applies := !world.down && world.hasCpu, !world.down && world.hasCpu && c.verified.Some?;
                  && sh'.hardware == sh.hardware + (if writes then [CapCpu] else [])
                  && sh'.status == (if applies then sh.status.(mode := Manual, cpuLimit := c.verified) else sh.status)
                  && sh'.timers == (if applies then sh.timers.(stick := 0) else sh.timers))
            && (c.SetGpuMaxClock? ==>
                  var writes, applies := !world.down && world.hasGpu, !world.down && world.hasGpu && c.applied.Some?;
                  && sh'.hardware == sh.hardware + (if writes then [CapGpu] else [])
                  && sh'.status == (if applies then sh.status.(mode := Manual, gpuMax := c.applied) else sh.status)
                  && sh'.timers == sh.timers)
  {
    hide NoDuplicates;
  }

  /** Entering Auto starts fresh counters and warns that the view is not yet
      known to be calibrated; entering it again changes nothing. */
  lemma {:induction false} EnteringAuto(sh: Shell, world: World)
    requires Inv(sh) && !sh.watchdog.tripped && sh.status.mode != Calibrating
    ensures var sh' := OnCommand(sh, SetAuto(true), world).0;
            if sh.status.mode == Auto then sh' == sh
            else
              && sh'.status.mode == Auto && sh'.auto == Some(AutoState(V.FRESH, V.FRESH)) && sh'.hardware == sh.hardware
              && sh'.status.cpuLimit == sh.status.cpuLimit && sh'.status.gpuMax == sh.status.gpuMax
              && forall f :: f in sh'.status.flags <==> f == NotCalibrated || f in sh.status.flags
  {
    hide NoDuplicates, AddFlag;
    InvOwned(sh);
    AddTraces({}, sh, NotCalibrated);
    assert sh.(pending := []) == sh;
  }

  // ---- Calibrations ----

  /** A calibration starts from Monitor or Auto only, over the saved gains, with
      no evidence from before, and touches nothing else. */
  lemma {:induction false} StartsFresh(sh: Shell, world: World)
    requires Inv(sh) && !sh.watchdog.tripped
    ensures var sh' := OnCommand(sh, StartCalibration, world).0;
            if sh.status.mode == Monitor || sh.status.mode == Auto then
              && sh'.status == sh.status.(mode := Calibrating) && sh'.hardware == sh.hardware && sh'.auto == sh.auto
              && sh'.fromAuto == (sh.status.mode == Auto)
              && sh'.evidence == Evidence(false, None, None, None, 0, [])
              && sh'.calib.Some? && sh'.calib.value.step == StepTest.INITIAL
              && sh'.calib.value.cpuGains == sh.saved.cpu && sh'.calib.value.gpuGains == sh.saved.gpu
              && sh'.calib.value.started && !sh'.calib.value.finished
            else sh' == sh
  {
    hide NoDuplicates;
    InvOwned(sh);
    assert sh.(pending := []) == sh;
  }

  /** A calibration that ends back in Auto resumes with fresh counters. */
  lemma {:induction false} EndsFresh(sh: Shell)
    ensures var sh' := EndCalibration(sh);
            && (sh'.status.mode == Auto ==> sh'.auto == Some(AutoState(V.FRESH, V.FRESH)) && sh'.hold)
            && sh'.calib.None? && !sh'.burner && !sh'.fromAuto && sh'.timers == sh.timers
            && sh'.hardware == sh.hardware + (if sh.burner then [Burner(false)] else [])
            && (sh'.status.mode == Auto <==> sh.fromAuto && sh.auto.Some?) && (sh'.status.mode == Monitor <==> sh'.status.mode != Auto)
  {
  }

  /** Aborting an initialized calibration puts the held pair back, the CPU
      first, then stops the burner, and does nothing else to the hardware. */
  lemma {:induction false} AbortRestoresThePair(sh: Shell, world: World)
    requires sh.calib.Some? && !sh.calib.value.finished && sh.calib.value.step.initialized
    ensures var caps := (if !world.down && world.hasCpu then [CapCpu] else []) + (if !world.down && world.hasGpu then [CapGpu] else []);
            var stop := if sh.burner then [Burner(false)] else [];
            && AbortCalib(sh, world).hardware == sh.hardware + caps + stop
            && AbortRunner(sh, world).hardware == sh.hardware + caps + stop
  {
    hide CpuAnswered, GpuAnswered, Wrap, ReplyAt;
    var r := sh.calib.value;
    var batch := OnAbort(r).1;
    assert batch == [Machine(StepTest.SetCpu(r.step.baseCpu)), Machine(StepTest.SetGpu(r.step.baseGpu)), Machine(StepTest.StopBurner), Machine(StepTest.Noted)];
    PairBatchWrites(sh.(calib := None), batch, false, world);
    PairBatchWrites(sh.(calib := Some(OnAbort(r).0)), batch, true, world);
    EndsFresh(CalibEffects(sh.(calib := None), batch, false, world));
    hide CalibEffects, EndCalibration, OnAbort;
  }

  lemma {:induction false} PairBatchWrites(sh: Shell, batch: seq<RunnerEffect>, sampled: bool, world: World)
    requires |batch| == 4 && batch[0].Machine? && batch[0].e.SetCpu? && batch[1].Machine? && batch[1].e.SetGpu?
    requires batch[2] == Machine(StepTest.StopBurner) && batch[3] == Machine(StepTest.Noted)
    ensures var sh' := CalibEffects(sh, batch, sampled, world);
            && sh'.hardware == sh.hardware + (if !world.down && world.hasCpu then [CapCpu] else [])
                               + (if !world.down && world.hasGpu then [CapGpu] else []) + (if sh.burner then [Burner(false)] else [])
            && !sh'.burner
  {
    hide CpuAnswered, GpuAnswered, ReplyAt;
    var sh0 := CalibEffects(sh, batch[..3][..2][..1][..0], sampled, world);
    var sh1 := CalibEffects(sh, batch[..3][..2][..1], sampled, world);
    var sh2 := CalibEffects(sh, batch[..3][..2], sampled, world);
    var sh3 := CalibEffects(sh, batch[..3], sampled, world);
    assert sh0 == sh;
    EffectWrites(sh, batch[0], ReplyAt(world, 0), sampled, world);
    EffectWrites(sh1, batch[1], ReplyAt(world, 1), sampled, world);
    EffectWrites(sh2, batch[2], ReplyAt(world, 2), sampled, world);
    EffectWrites(sh3, batch[3], ReplyAt(world, 3), sampled, world);
    hide CalibEffect;
  }

  /** What one calibration effect does to the hardware and the burner. */
  lemma {:induction false} EffectWrites(sh: Shell, e: RunnerEffect, reply: Reply, sampled: bool, world: World)
    ensures var sh' := CalibEffect(sh, e, reply, sampled, world);
            && sh'.hardware == sh.hardware
                 + (if e.Machine? && e.e.SetCpu? && !world.down && world.hasCpu then [CapCpu]
                    else if e.Machine? && e.e.SetGpu? && !world.down && world.hasGpu then [CapGpu]
                    else if e.Machine? && (e.e.StopBurner? || e.e.StartBurner?) && sh.burner then [Burner(false)]
                    else [])
                 + (if e.Machine? && e.e.StartBurner? then [Burner(true)] else [])
            && sh'.burner == ((e.Machine? && e.e.StartBurner?) || (sh.burner && !(e.Machine? && e.e.StopBurner?)))
  {
    hide CpuAnswered, GpuAnswered, SyncFlag, StopBurner, Issue;
    StopBurnerWrites(sh);
    match e {
      case SaveState(cpu, gpu) =>
        SyncKeepsHardware(sh.(saved := Saved(cpu, gpu)), NotCalibrated, !Calibrated(world.viewKey, cpu, gpu));
      case Finished =>
      case Machine(m) =>
        match m {
          case SetCpu(_) =>
            var sh1 := sh.(evidence := sh.evidence.(cpuVerified := false));
            IssueAppends(sh1, CapCpu);
            CpuAnswerKeeps(Issue(sh1, CapCpu), reply, sampled);
          case SetGpu(_) =>
            IssueAppends(sh, CapGpu);
            GpuAnswerKeeps(Issue(sh, CapGpu), reply, sampled);
          case StartBurner(_) => IssueAppends(StopBurner(sh), Burner(true));
          case StopBurner =>
          case Fitted(_, _) =>
          case Noted =>
          case Retrying =>
        }
    }
  }

  lemma {:induction false} IssueAppends(sh: Shell, op: Operation)
    ensures Issue(sh, op).hardware == sh.hardware + [op] && Issue(sh, op).burner == sh.burner
  {
  }

  lemma {:induction false} StopBurnerWrites(sh: Shell)
    ensures StopBurner(sh).hardware == sh.hardware + (if sh.burner then [Burner(false)] else []) && !StopBurner(sh).burner
  {
  }

  lemma {:induction false} SyncKeepsHardware(sh: Shell, f: Flag, on: bool)
    ensures SyncFlag(sh, f, on).hardware == sh.hardware && SyncFlag(sh, f, on).burner == sh.burner
  {
    hide Without;
  }

  // ---- Counters and timers ----

  /** A verdict is counted by its own device's counter, and by no other. */
  lemma {:induction false} CpuVerdictsAreCounted(sh: Shell, verdict: V.Verdict, suppress: bool)
    requires sh.auto.Some?
    ensures ScoreCpu(sh, verdict, suppress).auto == Some(AutoState(V.Score(sh.auto.value.cpu, verdict, suppress).0, sh.auto.value.gpu))
  {
    hide V.Score, SyncVerdicts;
    var (counter, outcome) := V.Score(sh.auto.value.cpu, verdict, suppress);
    var sh1 := sh.(auto := Some(sh.auto.value.(cpu := counter)));
    VerdictsKeepMachine(if outcome == V.Released then WithCpu(Issue(sh1, StockCpu), None) else sh1);
  }

  lemma {:induction false} GpuVerdictsAreCounted(sh: Shell, seen: V.Seen, world: World)
    requires sh.auto.Some?
    ensures ScoreGpu(sh, seen, world).auto ==
              Some(AutoState(sh.auto.value.cpu, V.Score(sh.auto.value.gpu, seen.verdict, seen.suppress).0))
  {
    hide V.Score, SyncVerdicts;
    var (counter, outcome) := V.Score(sh.auto.value.gpu, seen.verdict, seen.suppress);
    var sh1 := sh.(auto := Some(sh.auto.value.(gpu := counter)));
    VerdictsKeepMachine(if outcome == V.Released then WithGpu(if world.hasGpu then Issue(sh1, StockGpu) else sh1, None) else sh1);
  }

  /** The end of an engagement starts the counters and both watches over and
      takes down the two verdict flags, those and no other. */
  lemma {:induction false} DisengageStartsOver(sh: Shell, changed: bool, world: World)
    requires NoDuplicates(sh.status.flags)
    ensures var sh' := Disengage(sh, changed, world);
            && sh'.auto == (if sh.auto.Some? then Some(AutoState(V.FRESH, V.FRESH)) else None)
            && sh'.timers.stick == 0 && sh'.timers.lastReassert.None?
            && forall f :: f in sh'.status.flags <==> f in sh.status.flags && f != ReadbackBlind && f != LimitNotSticking
  {
    hide Disengage, RemoveFlag, NoDuplicates;
    var sh1 := sh.(auto := if sh.auto.Some? then Some(AutoState(V.FRESH, V.FRESH)) else None,
                   timers := sh.timers.(stick := 0, lastReassert := None));
    CalmedFlags(sh1);
    DisengageCalms(sh, sh1, changed, world);
  }

  lemma {:induction false} DisengageCalms(sh: Shell, sh1: Shell, changed: bool, world: World)
    requires sh1 == sh.(auto := if sh.auto.Some? then Some(AutoState(V.FRESH, V.FRESH)) else None,
                        timers := sh.timers.(stick := 0, lastReassert := None))
    ensures var (sh', calm) := (Disengage(sh, changed, world), RemoveFlag(RemoveFlag(sh1, ReadbackBlind), LimitNotSticking));
            sh'.auto == calm.auto && sh'.timers == calm.timers && sh'.status.flags == calm.status.flags
  {
    hide RemoveFlag;
  }

  lemma {:induction false} CalmedFlags(sh: Shell)
    requires NoDuplicates(sh.status.flags)
    ensures var sh' := RemoveFlag(RemoveFlag(sh, ReadbackBlind), LimitNotSticking);
            && sh'.auto == sh.auto && sh'.timers == sh.timers
            && forall f :: f in sh'.status.flags <==> f in sh.status.flags && f != ReadbackBlind && f != LimitNotSticking
  {
    hide RemoveFlag, NoDuplicates;
    var sh1 := RemoveFlag(sh, ReadbackBlind);
    RemovedExactly(sh, ReadbackBlind);
    RemovedExactly(sh1, LimitNotSticking);
    FlagKeepsMachine(sh, ReadbackBlind);
    FlagKeepsMachine(sh1, LimitNotSticking);
  }

  // ---- Resumes ----

  /** The latest resume whose thirty seconds no later sample has reached. */
  function LastResume(h: seq<Sample>): Option<real> {
    if h == [] then None
    else
      var last, before := h[|h| - 1], LastResume(h[..|h| - 1]);
      if last.resumed then Some(last.t)
      else if before.Some? && last.t >= before.value + 30.0 then None
      else before
  }

  /** The resume handling over a run of samples, with one maintenance answer. */
  function ResumedRun(sh: Shell, h: seq<Sample>, m: Maintenance, world: World): Shell {
    if h == [] then sh else Resume(ResumedRun(sh, h[..|h| - 1], m, world), h[|h| - 1], m, world)
  }

  /** One sample: a resume raises its flag, opens the strict minute and starts
      the counters over; thirty seconds later the flag goes. */
  lemma {:induction false} ResumeMeaning(sh: Shell, s: Sample, m: Maintenance, world: World)
    requires NoDuplicates(sh.status.flags)
    ensures var sh' := Resume(sh, s, m, world);
            && NoDuplicates(sh'.status.flags)
            && (s.resumed ==>
                  && Resumed in sh'.status.flags && sh'.timers.resumedUntil == Some(s.t + 30.0) && sh'.timers.strictUntil == Some(s.t + 60.0)
                  && (sh.auto == None ==> sh'.auto == None))
            && (!s.resumed ==>
                  var over := sh.timers.resumedUntil.Some? && s.t >= sh.timers.resumedUntil.value;
                  && sh'.hardware == sh.hardware && sh'.auto == sh.auto && sh'.timers.strictUntil == sh.timers.strictUntil
                  && sh'.timers.resumedUntil == (if over then None else sh.timers.resumedUntil)
                  && (Resumed in sh'.status.flags <==> Resumed in sh.status.flags && !over))
  {
    hide NoDuplicates, Reassert, AddFlag, RemoveFlag, Respects, Attempted;
    RemovedExactly(sh, Resumed);
    FlagKeepsMachine(sh, Resumed);
    ResumeRoutine({}, sh, s, m, world) by { hide Resume; }
    RoutineKeepsDistinct({}, world.down, sh, Resume(sh, s, m, world)) by { hide Resume; }
    if s.resumed {
      var sh1 := AddFlag(sh, Resumed);
      AddTraces({}, sh, Resumed);
      var sh2 := sh1.(timers := sh1.timers.(strictUntil := Some(s.t + RESUMED_STRICT_S), resumedUntil := Some(s.t + RESUMED_FLAG_S)),
                      auto := if sh.auto.Some? then Some(AutoState(V.FRESH, V.FRESH)) else None);
      ReassertWrites(sh2, m, world);
      ReassertFlags(sh2, m, world);
      if sh.auto.None? {
        ReassertKeepsAuto(sh2, m, world);
      }
    }
  }

  lemma {:induction false} ReassertFlags(sh: Shell, m: Maintenance, world: World)
    ensures Resumed in sh.status.flags ==> Resumed in Reassert(sh, m, world).status.flags
  {
    hide ScoreCpu;
    ScoreKeepsResumed(if m.repaired then Issue(sh, CapCpu) else sh, m.verdict, m.suppress);
  }

  lemma {:induction false} ScoreKeepsResumed(sh: Shell, verdict: V.Verdict, suppress: bool)
    ensures Resumed in sh.status.flags ==> Resumed in ScoreCpu(sh, verdict, suppress).status.flags
  {
    hide V.Score, SyncVerdicts;
    if sh.auto.Some? {
      var (counter, outcome) := V.Score(sh.auto.value.cpu, verdict, suppress);
      var sh1 := sh.(auto := Some(sh.auto.value.(cpu := counter)));
      SyncKeepsResumed(if outcome == V.Released then WithCpu(Issue(sh1, StockCpu), None) else sh1);
    }
  }

  lemma {:induction false} SyncKeepsResumed(sh: Shell)
    ensures Resumed in sh.status.flags ==> Resumed in SyncVerdicts(sh).status.flags
  {
    hide V.Counter.InEpisode, Without;
    WithoutKeeps(sh.status.flags, ReadbackBlind, Resumed);
    WithoutKeeps(sh.status.flags + [LimitNotSticking], ReadbackBlind, Resumed);
  }

  lemma {:induction false} WithoutKeeps(flags: seq<Flag>, f: Flag, g: Flag)
    requires g != f
    ensures g in Without(flags, f) <==> g in flags
  {
    if flags != [] {
      WithoutKeeps(flags[..|flags| - 1], f, g);
      assert flags == flags[..|flags| - 1] + [flags[|flags| - 1]];
    }
  }

  /** Over any run of samples the resume flag is up exactly while the thirty
      seconds of the latest resume last. */
  lemma {:induction false} ResumedFlagMeaning(sh: Shell, h: seq<Sample>, m: Maintenance, world: World)
    requires NoDuplicates(sh.status.flags) && Resumed !in sh.status.flags && sh.timers.resumedUntil.None?
    ensures var sh' := ResumedRun(sh, h, m, world);
            && NoDuplicates(sh'.status.flags)
            && (Resumed in sh'.status.flags <==> LastResume(h).Some?)
            && sh'.timers.resumedUntil == (if LastResume(h).Some? then Some(LastResume(h).value + 30.0) else None)
  {
    hide Resume, NoDuplicates;
    if h != [] {
      var front := h[..|h| - 1];
      ResumedFlagMeaning(sh, front, m, world);
      ResumeMeaning(ResumedRun(sh, front, m, world), h[|h| - 1], m, world);
    }
  }

  // ---- The flag of the power watch ----

  /** Either limit is in an episode of mismatches. */
  predicate Doubted(sh: Shell) {
    && sh.auto.Some?
    && var (cpu, gpu) := (sh.auto.value.cpu, sh.auto.value.gpu);
       cpu.strikes > 0 || cpu.released || gpu.strikes > 0 || gpu.released
  }

  /** A reading of power within the limit takes LimitNotSticking down, unless a
      read-back episode keeps it up; it writes nothing and moves no other flag. */
  lemma {:induction false} PowerWithinTheLimitClears(sh: Shell, s: Sample, m: Maintenance, world: World)
    requires NoDuplicates(sh.status.flags) && sh.status.cpuLimit.Some? && 0.0 < s.pkgW <= sh.status.cpuLimit.value + 5.0
    ensures var sh' := Stickiness(sh, s, m, world);
            && sh'.hardware == sh.hardware && sh'.timers.stick == 0
            && (LimitNotSticking in sh'.status.flags <==> LimitNotSticking in sh.status.flags && Doubted(sh))
            && forall f :: f != LimitNotSticking ==> (f in sh'.status.flags <==> f in sh.status.flags)
  {
    hide RemoveFlag, NoDuplicates, Reassert, AddFlag;
    var sh1 := sh.(timers := sh.timers.(stick := 0));
    RemovedExactly(sh1, LimitNotSticking);
    FlagKeepsMachine(sh1, LimitNotSticking);
  }

  // ---- A manual sample ----

  /** What one maintenance pass writes outside Auto. */
  function Pass(sh: Shell, m: Maintenance, world: World): seq<Operation> {
    (if world.hasCpu && sh.status.cpuLimit.Some? && m.repaired then [CapCpu] else [])
    + (if world.hasGpu && sh.status.gpuMax.Some? then [CapGpu] else [])
  }

  /** Whether it did more than read a matching CPU cap. */
  predicate Did(sh: Shell, m: Maintenance, world: World) {
    || (world.hasCpu && sh.status.cpuLimit.Some? && (m.repaired || m.verdict != V.Verified))
    || (world.hasGpu && sh.status.gpuMax.Some?)
  }

  /** The same limits in force outside Auto. */
  predicate SameHold(sh: Shell, sh': Shell) {
    && sh.auto.None? && sh'.auto.None?
    && sh'.status.cpuLimit == sh.status.cpuLimit && sh'.status.gpuMax == sh.status.gpuMax
  }

  lemma {:induction false} ReassertPasses(sh: Shell, m: Maintenance, world: World)
    requires sh.auto.None? && !world.down
    ensures var sh' := Reassert(sh, m, world);
            SameHold(sh, sh') && sh'.hardware == sh.hardware + Pass(sh, m, world) && sh'.timers == sh.timers
    ensures Attempted(sh, m, world) <==> Did(sh, m, world)
  {
    hide Reassert;
    ReassertWrites(sh, m, world);
    ReassertKeepsAuto(sh, m, world);
  }

  lemma {:induction false} ResumePasses(sh: Shell, s: Sample, m: Maintenance, world: World)
    requires sh.auto.None? && !world.down
    ensures var sh' := Resume(sh, s, m, world);
            && SameHold(sh, sh') && sh'.hardware == sh.hardware + (if s.resumed then Pass(sh, m, world) else [])
            && sh'.timers.stick == sh.timers.stick
            && sh'.timers.strictUntil == (if s.resumed then Some(s.t + 60.0) else sh.timers.strictUntil)
            && sh'.timers.lastReassert == (if s.resumed && Did(sh, m, world) then Some(s.t) else sh.timers.lastReassert)
  {
    hide Reassert, AddFlag, RemoveFlag, Attempted, Pass, Did;
    FlagKeepsMachine(sh, Resumed);
    var sh1 := AddFlag(sh, Resumed);
    var sh2 := sh1.(timers := sh1.timers.(strictUntil := Some(s.t + RESUMED_STRICT_S), resumedUntil := Some(s.t + RESUMED_FLAG_S)), auto := None);
    ReassertPasses(sh2, m, world);
    PassDepends(sh, sh2, m, world);
  }

  lemma {:induction false} PassDepends(sh: Shell, sh': Shell, m: Maintenance, world: World)
    requires sh'.status.cpuLimit == sh.status.cpuLimit && sh'.status.gpuMax == sh.status.gpuMax
    ensures Pass(sh', m, world) == Pass(sh, m, world) && Did(sh', m, world) == Did(sh, m, world)
  {
  }

  /** The watch acts on this sample. */
  predicate WatchActs(sh: Shell, s: Sample) {
    && sh.status.cpuLimit.Some? && s.pkgW > 0.0 && s.pkgW > sh.status.cpuLimit.value + 5.0
    && sh.timers.stick + 1 >= (if Strict(sh, s) then 2 else 3)
  }

  lemma {:induction false} StickinessPasses(sh: Shell, s: Sample, m: Maintenance, world: World)
    requires sh.auto.None? && !world.down
    ensures var sh' := Stickiness(sh, s, m, world);
            && SameHold(sh, sh') && sh'.hardware == sh.hardware + (if WatchActs(sh, s) then Pass(sh, m, world) else [])
            && sh'.timers.lastReassert == (if WatchActs(sh, s) && Did(sh, m, world) then Some(s.t) else sh.timers.lastReassert)
  {
    hide Reassert, AddFlag, RemoveFlag, Attempted, Pass, Did;
    var sh1 := sh.(timers := sh.timers.(stick := 0));
    ReassertPasses(sh1, m, world);
    PassDepends(sh, sh1, m, world);
    FlagKeepsMachine(sh1, LimitNotSticking);
    var sh2 := Reassert(sh1, m, world);
    FlagKeepsMachine(if Attempted(sh1, m, world) then sh2.(timers := sh2.timers.(lastReassert := Some(s.t))) else sh2, LimitNotSticking);
  }

  predicate PassDue(sh: Shell, s: Sample) {
    sh.timers.lastReassert.Some? && s.t - sh.timers.lastReassert.value >= 10.0
  }

  lemma {:induction false} PeriodicPasses(sh: Shell, s: Sample, m: Maintenance, world: World)
    requires sh.auto.None? && !world.down && !Bare(sh)
    ensures var sh' := Periodic(sh, s, m, world);
            && SameHold(sh, sh') && sh'.hardware == sh.hardware + (if PassDue(sh, s) then Pass(sh, m, world) else [])
            && sh'.timers.stick == sh.timers.stick
            && sh'.timers.lastReassert == (if sh.timers.lastReassert.None? || PassDue(sh, s) then Some(s.t) else sh.timers.lastReassert)
  {
    hide Reassert, Pass;
    var sh1 := sh.(timers := sh.timers.(lastReassert := Some(s.t)));
    ReassertPasses(sh1, m, world);
    PassDepends(sh, sh1, m, world);
  }

  /** The exact writes of a sample outside Auto with a limit in force: a pass
      over the limits after a resume; one when the power watch acts, a resume
      making it strict; and one when ten seconds went by without any. */
  lemma {:induction false} ManualSampleWrites(fit: StepTest.Fitter, sh: Shell, s: Sample, tick: Tick, world: World)
    requires Inv(sh) && Serviced(sh, s, world) && (sh.status.mode == Manual || sh.status.mode == Monitor) && !Bare(sh)
    ensures var sh' := OnSample(fit, sh, s, tick, world).0;
            var strict := s.resumed || (sh.timers.strictUntil.Some? && s.t < sh.timers.strictUntil.value);
            var over := sh.status.cpuLimit.Some? && s.pkgW > 0.0 && s.pkgW > sh.status.cpuLimit.value + 5.0;
            var acts := over && sh.timers.stick + 1 >= (if strict then 2 else 3);
            var passed := (s.resumed && Did(sh, tick.onResume, world)) || (acts && Did(sh, tick.onStick, world));
            var due := !passed && sh.timers.lastReassert.Some? && s.t - sh.timers.lastReassert.value >= 10.0;
            && sh'.status.cpuLimit == sh.status.cpuLimit && sh'.status.gpuMax == sh.status.gpuMax
            && sh'.hardware == sh.hardware + (if s.resumed then Pass(sh, tick.onResume, world) else [])
                               + (if acts then Pass(sh, tick.onStick, world) else [])
                               + (if due then Pass(sh, tick.periodic, world) else [])
            && sh'.timers.lastReassert == (if passed || due || sh.timers.lastReassert.None? then Some(s.t) else sh.timers.lastReassert)
  {
    hide Observe, Resume, Stickiness, Periodic, NoDuplicates, Respects, Pass, Did;
    InvOwned(sh);
    Unfenced(sh, s, world);
    var sh1 := Watched(sh, s);
    var sh2 := Resume(sh1, s, tick.onResume, world);
    var sh3 := Stickiness(sh2, s, tick.onStick, world);
    ResumeKeepsMode({}, sh1, s, tick.onResume, world);
    ResumePasses(sh1, s, tick.onResume, world);
    StickinessPasses(sh2, s, tick.onStick, world);
    PeriodicPasses(sh3, s, tick.periodic, world);
    PassDepends(sh, sh1, tick.onResume, world);
    PassDepends(sh, sh2, tick.onStick, world);
    PassDepends(sh, sh3, tick.periodic, world);
    assert Regulate(sh1, s, tick, world).0 == Periodic(sh3, s, tick.periodic, world).(pending := []);
  }

  /** A serviced sample is unfenced, and while something is commanded it did
      not trip. */
  lemma {:induction false} Unfenced(sh: Shell, s: Sample, world: World)
    requires Serviced(sh, s, world)
    ensures !world.down && (!Bare(sh) ==> Observe(sh.watchdog, s).1 == NoTrip)
  {
    hide Observe;
  }

  /** Outside Auto a lock in force is never left unwritten for long: after a
      sample the last maintenance is less than ten seconds old, and whenever
      that time moved the lock was just written, as the last operation of all. */
  lemma {:induction false} LockIsRewritten(fit: StepTest.Fitter, sh: Shell, s: Sample, tick: Tick, world: World)
    requires Inv(sh) && Serviced(sh, s, world) && (sh.status.mode == Manual || sh.status.mode == Monitor)
    requires world.hasGpu && sh.status.gpuMax.Some?
    ensures var sh' := OnSample(fit, sh, s, tick, world).0;
            && sh'.status.gpuMax == sh.status.gpuMax
            && sh'.timers.lastReassert.Some? && s.t - sh'.timers.lastReassert.value < 10.0
            && (sh.timers.lastReassert.Some? && sh'.timers.lastReassert != sh.timers.lastReassert ==>
                  && |sh'.hardware| > |sh.hardware| && sh'.hardware[|sh'.hardware| - 1] == CapGpu
                  && sh'.timers.lastReassert == Some(s.t))
  {
    hide Inv, Serviced, OnSample;
    ManualSampleWrites(fit, sh, s, tick, world);
  }
}
