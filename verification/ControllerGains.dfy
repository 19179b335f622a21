/** The saved gain maps over whole sessions: only the end of a calibration
    changes them, and only at the key that run froze. */
module ControllerGains {
  import opened Prelude
  import opened Controller
  import opened ControllerProofs
  import opened ControllerSessions
  import opened ControllerSteps
  import opened Runner
  import RunnerProofs
  import StepTest
  import G = GpuVerify

  // ---- What one effect saves ----

  lemma {:induction false} SyncKeepsSaved(sh: Shell, f: Flag, on: bool)
    ensures SyncFlag(sh, f, on).saved == sh.saved
  {
    hide Without;
  }

  lemma {:induction false} MachineKeepsSaved(sh: Shell, e: StepTest.Effect, reply: Reply, sampled: bool, world: World)
    ensures MachineEffect(sh, e, reply, sampled, world).saved == sh.saved
  {
    hide G.Kept;
    match e {
      case SetCpu(_) =>
      case SetGpu(_) =>
      case StartBurner(_) =>
      case StopBurner =>
      case Fitted(_, _) =>
      case Noted =>
      case Retrying =>
    }
  }

  /** The maps after a batch: those of its last save, if it has one. */
  function SavedBy(effects: seq<RunnerEffect>, saved: Saved): Saved {
    if effects == [] then saved
    else
      match effects[|effects| - 1]
      case SaveState(cpu, gpu) => Saved(cpu, gpu)
      case _ => SavedBy(effects[..|effects| - 1], saved)
  }

  lemma {:induction false} BatchSaves(sh: Shell, effects: seq<RunnerEffect>, sampled: bool, world: World)
    ensures CalibEffects(sh, effects, sampled, world).saved == SavedBy(effects, sh.saved)
  {
    hide MachineEffect, SyncFlag;
    if effects != [] {
      var n := |effects| - 1;
      BatchSaves(sh, effects[..n], sampled, world);
      var before := CalibEffects(sh, effects[..n], sampled, world);
      match effects[n] {
        case Machine(e) => MachineKeepsSaved(before, e, ReplyAt(world, n), sampled, world);
        case SaveState(cpu, gpu) => SyncKeepsSaved(before.(saved := Saved(cpu, gpu)), NotCalibrated, !Calibrated(world.viewKey, cpu, gpu));
        case Finished =>
      }
    }
  }

  lemma {:induction false} NothingSaved(effects: seq<RunnerEffect>, saved: Saved)
    requires RunnerProofs.NoSave(effects)
    ensures SavedBy(effects, saved) == saved
  {
    if effects != [] {
      NothingSaved(effects[..|effects| - 1], saved);
    }
  }

  lemma {:induction false} EndKeepsSaved(sh: Shell)
    ensures EndCalibration(sh).saved == sh.saved
  {
  }

  lemma {:induction false} ApplySaves(sh: Shell, effects: seq<RunnerEffect>, sampled: bool, world: World)
    ensures ApplyCalib(sh, effects, sampled, world).saved == SavedBy(effects, sh.saved)
  {
    hide CalibEffects, EndCalibration;
    BatchSaves(sh, effects, sampled, world);
    EndKeepsSaved(CalibEffects(sh, effects, sampled, world));
  }

  // ---- What one call saves ----

  lemma {:induction false} AbortSavesNothing(sh: Shell, world: World)
    ensures AbortCalib(sh, world).saved == sh.saved && AbortRunner(sh, world).saved == sh.saved
  {
    hide ApplyCalib, EndCalibration, StepTest.Abort, Wrap;
    if sh.calib.Some? {
      var r := sh.calib.value;
      var (r', batch) := OnAbort(r);
      NothingSaved(batch, sh.saved);
      ApplySaves(sh.(calib := None), batch, false, world);
      ApplySaves(sh.(calib := Some(r')), batch, true, world);
      EndKeepsSaved(ApplyCalib(sh.(calib := None), batch, false, world));
    }
  }

  lemma {:induction false} ReleaseKeepsSaved(sh: Shell, world: World)
    ensures ReleaseToStock(sh, world).saved == sh.saved
  {
    hide RemoveAll;
    var sh1 := if world.hasGpu then Issue(sh, StockGpu) else sh;
    var sh2 := if world.hasCpu then Issue(sh1, StockCpu) else sh1;
    RemovalsKeepSaved(sh2.(status := Status(Monitor, None, None, sh2.status.flags), timers := sh2.timers.(stick := 0, lastReassert := None)), AUTO_FLAGS);
  }

  lemma {:induction false} RemovalsKeepSaved(sh: Shell, flags: seq<Flag>)
    ensures RemoveAll(sh, flags).saved == sh.saved
  {
    hide RemoveFlag;
    if flags != [] {
      RemovalsKeepSaved(sh, flags[..|flags| - 1]);
      RemovalKeepsSaved(RemoveAll(sh, flags[..|flags| - 1]), flags[|flags| - 1]);
    }
  }

  lemma {:induction false} RemovalKeepsSaved(sh: Shell, f: Flag)
    ensures RemoveFlag(sh, f).saved == sh.saved
  {
    hide Without;
  }

  lemma {:induction false} AcknowledgeKeepsSaved(sh: Shell)
    ensures Acknowledge(sh).0.saved == sh.saved
  {
    hide RemoveFlag;
    RemovalKeepsSaved(sh, ThermalEmergency);
    RemovalKeepsSaved(RemoveFlag(sh, ThermalEmergency), SensorLost);
  }

  lemma {:induction false} ExecuteSavesNothing(sh: Shell, c: Command, world: World)
    ensures Execute(sh, c, world).0.saved == sh.saved
  {
    hide AbortCalib, ReleaseToStock, CommandedCpu, CommandedGpu, EnteredAuto;
    match c {
      case SetCpuW(verified) => ManualKeepsSaved(sh, verified, None, world);
      case SetGpuMaxClock(applied) => ManualKeepsSaved(sh, None, applied, world);
      case ReleaseAll => ReleaseKeepsSaved(ExitAuto(sh), world);
      case SetFanTarget =>
      case SetFloors =>
      case SetAuto(_) =>
        ReleaseKeepsSaved(ExitAuto(sh), world);
        EntryKeepsSaved(sh);
      case StartCalibration =>
      case DismissOutcome =>
      case AbortCalibration => AbortSavesNothing(sh, world);
      case Quit => AbortSavesNothing(sh, world);
    }
  }

  /** No command saves gains, Quit included. */
  lemma {:induction false} CommandSavesNothing(sh: Shell, c: Command, world: World)
    ensures OnCommand(sh, c, world).0.saved == sh.saved
  {
    hide Acknowledge, Execute;
    AcknowledgeKeepsSaved(sh);
    ExecuteSavesNothing(sh, c, world);
  }

  lemma {:induction false} ManualKeepsSaved(sh: Shell, verified: Option<real>, applied: Option<nat>, world: World)
    ensures CommandedCpu(sh, verified, world).saved == sh.saved && CommandedGpu(sh, applied, world).saved == sh.saved
  {
  }

  lemma {:induction false} EntryKeepsSaved(sh: Shell)
    ensures EnteredAuto(sh).saved == sh.saved
  {
  }

  /** The call is a serviced sample on which the runner finishes. */
  predicate Finishes(fit: StepTest.Fitter, sh: Shell, e: Call) {
    && e.Ticked? && sh.status.mode == Calibrating && sh.calib.Some? && Serviced(sh, e.s, e.world)
    && Taken(fit, sh, e.s, e.tick, e.world).0.finished
  }

  lemma {:induction false} TakenSaves(fit: StepTest.Fitter, r: RunState, x: StepTest.Input, saved: Saved)
    requires r.started && !r.finished
    ensures var (r', batch) := TakeSample(fit, r, x);
            SavedBy(batch, saved) == if r'.finished then Saved(r'.cpuGains, r'.gpuGains) else saved
  {
    hide StepTest.Step, Merge, Wrap;
    var (r', batch) := TakeSample(fit, r, x);
    if r'.finished {
      assert batch[..|batch| - 1][|batch| - 2] == SaveState(r'.cpuGains, r'.gpuGains);
    } else {
      assert batch == Wrap(StepTest.Step(fit, r.step, x.s, x.ctx).1);
      NothingSaved(batch, saved);
    }
  }

  lemma {:induction false} CalibSampleSaves(fit: StepTest.Fitter, sh: Shell, s: Sample, tick: Tick, world: World)
    requires Owned(sh) && sh.status.mode == Calibrating
    ensures var r := Taken(fit, sh, s, tick, world).0;
            CalibSample(fit, sh, s, tick, world).0.saved == if r.finished then Saved(r.cpuGains, r.gpuGains) else sh.saved
  {
    hide TakeSample, Prepared, ApplyCalib, EndCalibration, Respects;
    var (sh1, x) := Prepared(sh, sh.calib.value, s, tick, world);
    PreparedRespects({}, sh, sh.calib.value, s, tick, world);
    var (r, batch) := TakeSample(fit, sh.calib.value, x);
    ApplySaves(sh1.(calib := Some(r)), batch, true, world);
    TakenSaves(fit, sh.calib.value, x, sh.saved);
  }

  lemma {:induction false} EmergencyKeepsSaved(sh: Shell, trip: Trip, world: World)
    ensures EmergencyRelease(sh, trip, world).0.saved == sh.saved
  {
    hide AbortCalib, AbortRunner, ReleaseToStock, AddFlag;
    AbortSavesNothing(sh, world);
    var released := ReleaseToStock(ExitAuto(AbortCalib(sh, world)), world);
    ReleaseKeepsSaved(ExitAuto(AbortCalib(sh, world)), world);
    AddKeeps(released, if trip == Thermal then ThermalEmergency else SensorLost);
  }

  lemma {:induction false} RegulateKeepsSaved(sh: Shell, s: Sample, tick: Tick, world: World)
    requires NoDuplicates(sh.status.flags)
    ensures Regulate(sh, s, tick, world).0.saved == sh.saved
  {
    hide NoDuplicates, Respects, Resume, AutoSample, Stickiness, Periodic, Uncapped;
    RegulatedRespects({}, sh, s, tick, world);
    assert Regulate(sh, s, tick, world).0 == Regulated(sh, s, tick, world).(pending := []);
  }

  lemma {:induction false} SampleSaves(fit: StepTest.Fitter, sh: Shell, s: Sample, tick: Tick, world: World)
    requires Inv(sh)
    ensures OnSample(fit, sh, s, tick, world).0.saved ==
              if Finishes(fit, sh, Ticked(s, tick, world)) then
                var r := Taken(fit, sh, s, tick, world).0; Saved(r.cpuGains, r.gpuGains)
              else sh.saved
  {
    hide Inv, Observe, Proceed, EmergencyRelease, AbortRunner, AbortCalib, TakeSample, Prepared;
    InvOwned(sh);
    if !world.down {
      var (watchdog, trip) := Observe(sh.watchdog, s);
      var sh1 := sh.(watchdog := watchdog);
      if !Serviced(sh, s, world) {
        EmergencyKeepsSaved(sh1, trip, world);
        AbortSavesNothing(sh1, world);
        EmergencyKeepsSaved(AbortRunner(sh1, world), Thermal, world);
      } else if trip == NoTrip {
        ServicedSaves(fit, sh, Watched(sh, s), s, tick, world);
      } else {
        ServicedSaves(fit, sh, sh1.(idleWarned := true, watchdog := ARMED), s, tick, world);
      }
    }
  }

  /** The watchdog's own bookkeeping does not matter to what is saved. */
  lemma {:induction false} ServicedSaves(fit: StepTest.Fitter, sh: Shell, sh1: Shell, s: Sample, tick: Tick, world: World)
    requires Inv(sh) && sh1 == sh.(watchdog := sh1.watchdog, idleWarned := sh1.idleWarned)
    ensures sh.status.mode != Calibrating ==> Proceed(fit, sh1, s, tick, world).0.saved == sh.saved
    ensures sh.status.mode == Calibrating ==>
              var r := Taken(fit, sh, s, tick, world).0;
              Proceed(fit, sh1, s, tick, world).0.saved == if r.finished then Saved(r.cpuGains, r.gpuGains) else sh.saved
  {
    hide Inv, Proceed, TakeSample, Prepared, NoDuplicates, CalibSample, Regulate;
    InvOwned(sh);
    SameRunOwned(sh, sh1);
    if sh.status.mode == Calibrating {
      PreparedIgnoresWatchdog(sh, sh1, sh.calib.value, s, tick, world);
      CalibSampleSaves(fit, sh1, s, tick, world);
      ProceedsToRun(fit, sh1, s, tick, world);
    } else {
      RegulateKeepsSaved(sh1, s, tick, world);
      ProceedsToLoops(fit, sh1, s, tick, world);
    }
  }

  lemma {:induction false} SameRunOwned(sh: Shell, sh1: Shell)
    requires Owned(sh) && sh1 == sh.(watchdog := sh1.watchdog, idleWarned := sh1.idleWarned)
    ensures Owned(sh1)
  {
  }

  lemma {:induction false} ProceedsToRun(fit: StepTest.Fitter, sh: Shell, s: Sample, tick: Tick, world: World)
    requires sh.status.mode == Calibrating
    ensures Proceed(fit, sh, s, tick, world) == CalibSample(fit, sh, s, tick, world)
  {
    hide CalibSample, Regulate;
  }

  lemma {:induction false} ProceedsToLoops(fit: StepTest.Fitter, sh: Shell, s: Sample, tick: Tick, world: World)
    requires sh.status.mode != Calibrating
    ensures Proceed(fit, sh, s, tick, world).0.saved == sh.saved || Proceed(fit, sh, s, tick, world) == Regulate(sh, s, tick, world)
  {
    hide CalibSample, Regulate;
  }

  // ---- The maps of a run under way ----

  predicate AgreeAt(a: GainMap, b: GainMap, k: StepTest.Key) {
    (k in a <==> k in b) && (k in a ==> a[k] == b[k])
  }

  predicate SavedAgree(a: Saved, b: Saved, k: StepTest.Key) {
    AgreeAt(a.cpu, b.cpu, k) && AgreeAt(a.gpu, b.gpu, k)
  }

  /** The runner's maps differ from the saved ones at most at its frozen key. */
  ghost predicate Faithful(saved: Saved, r: RunState) {
    && RunnerProofs.Keyed(r.step) && r.step.sub != StepTest.Done
    && forall k | r.step.key != Some(k) :: SavedAgree(saved, Saved(r.cpuGains, r.gpuGains), k)
  }

  lemma {:induction false} MergeOnlyAtKey(device: StepTest.Device, key: Option<StepTest.Key>, effects: seq<StepTest.Effect>, gains: GainMap, k: StepTest.Key)
    requires key != Some(k)
    ensures AgreeAt(gains, Merge(device, key, effects, gains), k)
  {
    if effects != [] {
      MergeOnlyAtKey(device, key, effects[..|effects| - 1], gains, k);
    }
  }

  /** A sample keeps the maps faithful, at the key it leaves frozen. */
  lemma {:induction false} TakenStaysFaithful(fit: StepTest.Fitter, saved: Saved, r: RunState, x: StepTest.Input)
    requires r.started && !r.finished && Faithful(saved, r)
    ensures var r' := TakeSample(fit, r, x).0;
            && (r.step.key.Some? ==> r'.step.key == r.step.key)
            && (!r'.finished ==> Faithful(saved, r'))
            && forall k | r'.step.key != Some(k) :: SavedAgree(saved, Saved(r'.cpuGains, r'.gpuGains), k)
  {
    hide StepTest.Step, Merge, Wrap, AgreeAt;
    RunnerProofs.StepMoves(fit, r.step, x);
    var (step, effects) := StepTest.Step(fit, r.step, x.s, x.ctx);
    var r' := TakeSample(fit, r, x).0;
    forall k | r'.step.key != Some(k)
      ensures SavedAgree(saved, Saved(r'.cpuGains, r'.gpuGains), k)
    {
      MergeOnlyAtKey(StepTest.Cpu, step.key, effects, r.cpuGains, k);
      MergeOnlyAtKey(StepTest.Gpu, step.key, effects, r.gpuGains, k);
      assert SavedAgree(saved, Saved(r.cpuGains, r.gpuGains), k);
      AgreeTwice(saved.cpu, r.cpuGains, r'.cpuGains, k);
      AgreeTwice(saved.gpu, r.gpuGains, r'.gpuGains, k);
    }
  }

  lemma {:induction false} AgreeTwice(a: GainMap, b: GainMap, c: GainMap, k: StepTest.Key)
    requires AgreeAt(a, b, k) && AgreeAt(b, c, k)
    ensures AgreeAt(a, c, k)
  {
  }

  ghost predicate RunFaithful(sh: Shell) {
    sh.status.mode == Calibrating ==> sh.calib.Some? && Faithful(sh.saved, sh.calib.value)
  }

  lemma {:induction false} FreshIsFaithful(sh: Shell)
    ensures Faithful(sh.saved, Fresh(sh.saved.cpu, sh.saved.gpu).(started := true))
  {
  }

  lemma {:induction false} BegunByStart(sh: Shell, c: Command, world: World)
    requires Starts(sh, c)
    ensures OnCommand(sh, c, world).0.calib == Some(Fresh(sh.saved.cpu, sh.saved.gpu).(started := true))
  {
  }

  lemma {:induction false} CommandStaysFaithful(sh: Shell, c: Command, world: World)
    requires Inv(sh) && RunFaithful(sh) && !c.Quit?
    ensures RunFaithful(OnCommand(sh, c, world).0)
  {
    hide Inv, OnCommand, Faithful, CapAnswered, OnAbort, MonitorIsStock;
    CommandSavesNothing(sh, c, world);
    if sh.status.mode == Calibrating {
      BusyCommand(sh, c, world);
    } else {
      IdleCommand(sh, c, world);
      if Starts(sh, c) {
        BegunByStart(sh, c, world);
        FreshIsFaithful(sh);
      }
    }
  }

  lemma {:induction false} SampleStaysFaithful(fit: StepTest.Fitter, sh: Shell, s: Sample, tick: Tick, world: World)
    requires Inv(sh) && RunFaithful(sh)
    ensures RunFaithful(OnSample(fit, sh, s, tick, world).0)
  {
    hide Inv, OnSample, Faithful, CapAnswered, MonitorIsStock, Serviced, TakeSample, Prepared, Bare;
    InvOwned(sh);
    SampleSaves(fit, sh, s, tick, world);
    if world.down {
      FencedSample(fit, sh, s, tick, world);
    } else if !Serviced(sh, s, world) {
      TrippedSample(fit, sh, s, tick, world);
    } else if sh.status.mode == Calibrating {
      BusySample(fit, sh, s, tick, world);
      TakenStaysFaithful(fit, sh.saved, sh.calib.value, Prepared(sh, sh.calib.value, s, tick, world).1);
    } else {
      QuietSample(fit, sh, s, tick, world);
    }
  }

  // ---- Whole sessions ----

  lemma {:induction false} SessionStaysFaithful(fit: StepTest.Fitter, start: Shell, calls: seq<Call>)
    requires Inv(start) && RunFaithful(start) && NoQuit(calls)
    ensures Inv(Session(fit, start, calls).0) && RunFaithful(Session(fit, start, calls).0)
  {
    hide Inv, RunFaithful, Sound, OnCommand, OnSample;
    if calls != [] {
      var front, e := calls[..|calls| - 1], calls[|calls| - 1];
      SessionStaysFaithful(fit, start, front);
      var sh := Session(fit, start, front).0;
      NextIsSound(fit, sh, e);
      SoundKeepsInv(Down(e), sh, Next(fit, sh, e));
      match e {
        case Commanded(c, world) => CommandStaysFaithful(sh, c, world);
        case Ticked(s, tick, world) => SampleStaysFaithful(fit, sh, s, tick, world);
      }
    }
  }

  /** The call is the end of a run that had frozen this key. */
  predicate FinishesAt(fit: StepTest.Fitter, sh: Shell, e: Call, k: StepTest.Key) {
    Finishes(fit, sh, e) && Taken(fit, sh, e.s, e.tick, e.world).0.step.key == Some(k)
  }

  lemma {:induction false} CallSavesAtKey(fit: StepTest.Fitter, sh: Shell, e: Call, k: StepTest.Key)
    requires Inv(sh) && RunFaithful(sh)
    ensures !FinishesAt(fit, sh, e, k) ==> SavedAgree(sh.saved, Next(fit, sh, e).0.saved, k)
    ensures Finishes(fit, sh, e) ==>
              var r := Taken(fit, sh, e.s, e.tick, e.world).0;
              Next(fit, sh, e).0.saved == Saved(r.cpuGains, r.gpuGains)
  {
    hide Inv, OnCommand, OnSample, Serviced, TakeSample, Prepared;
    InvOwned(sh);
    match e {
      case Commanded(c, world) => CommandSavesNothing(sh, c, world);
      case Ticked(s, tick, world) =>
        SampleSaves(fit, sh, s, tick, world);
        if Finishes(fit, sh, e) {
          TakenStaysFaithful(fit, sh.saved, sh.calib.value, Prepared(sh, sh.calib.value, s, tick, world).1);
        }
    }
  }

  /** Conservation of gains over sessions: over any calls, aborts, trips and
      releases among them, the saved gain of a device under a key changes only
      if some call finished a calibration that had frozen exactly that key. */
  lemma {:induction false} GainsChangeOnlyByFinishedRuns(fit: StepTest.Fitter, saved: Saved, calls: seq<Call>, k: StepTest.Key)
    requires NoQuit(calls)
    requires forall i: nat | i < |calls| :: !FinishesAt(fit, Session(fit, Booted(saved), calls[..i]).0, calls[i], k)
    ensures SavedAgree(saved, Session(fit, Booted(saved), calls).0.saved, k)
  {
    hide Inv, FinishesAt, Next, RunFaithful, AgreeAt;
    if calls == [] {
      AgreeItself(saved, k);
    } else {
      var front, e := calls[..|calls| - 1], calls[|calls| - 1];
      assert forall i: nat | i < |front| :: front[..i] == calls[..i] && front[i] == calls[i];
      GainsChangeOnlyByFinishedRuns(fit, saved, front, k);
      var sh := Session(fit, Booted(saved), front).0;
      BootIsFaithful(saved);
      SessionStaysFaithful(fit, Booted(saved), front);
      CallSavesAtKey(fit, sh, e, k);
      AgreeTwice(saved.cpu, sh.saved.cpu, Next(fit, sh, e).0.saved.cpu, k);
      AgreeTwice(saved.gpu, sh.saved.gpu, Next(fit, sh, e).0.saved.gpu, k);
    }
  }

  lemma {:induction false} AgreeItself(saved: Saved, k: StepTest.Key)
    ensures SavedAgree(saved, saved, k)
  {
  }

  lemma {:induction false} BootIsFaithful(saved: Saved)
    ensures Inv(Booted(saved)) && RunFaithful(Booted(saved))
  {
    StartIsFlagless(saved);
    hide Inv;
  }
}
