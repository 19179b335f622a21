/** Releases, calibrations and whole sessions of the controller: mode
    ownership, the emergency latch, the fence and the flag stream. */
module ControllerSessions {
  import opened Prelude
  import opened Controller
  import opened ControllerProofs
  import opened Runner
  import StepTest
  import G = GpuVerify
  import V = Verdicts

  // ---- Releases ----

  lemma {:induction false} AutoFlagsAreRoutine(f: Flag)
    requires f in AUTO_FLAGS
    ensures !IsEmergency(f)
  {
  }

  lemma {:induction false} ReleaseRespects(start: set<Flag>, down: bool, sh: Shell, world: World)
    requires NoDuplicates(sh.status.flags)
    ensures var sh' := ReleaseToStock(sh, world);
            && Respects(start, down, sh, sh') && Uncapped(sh, sh')
            && sh'.status.mode == Monitor && Bare(sh')
            && sh'.calib == sh.calib && sh'.auto == sh.auto && sh'.fromAuto == sh.fromAuto && sh'.hold == sh.hold && sh'.burner == sh.burner
            && (forall f :: f in AUTO_FLAGS ==> f !in sh'.status.flags)
  {
    hide NoDuplicates, Respects, Uncapped, RemoveAll, Routine;
    var sh1 := if world.hasGpu then Issue(sh, StockGpu) else sh;
    var sh2 := if world.hasCpu then Issue(sh1, StockCpu) else sh1;
    StockRespects(start, down, sh, world);
    RoutineRespects(start, down, sh, sh2);
    var sh3 := sh2.(status := Status(Monitor, None, None, sh2.status.flags), timers := sh2.timers.(stick := 0, lastReassert := None));
    SameFlags(start, down, sh2, sh3);
    RespectsChain(start, down, sh, sh2, sh3);
    UncappedChain(sh, sh2, sh3);
    forall f | f in AUTO_FLAGS ensures !IsEmergency(f) { AutoFlagsAreRoutine(f); }
    RemoveAllRespects(start, down, sh3, AUTO_FLAGS);
    var sh4 := RemoveAll(sh3, AUTO_FLAGS);
    SameHardware(sh3, sh4);
    RespectsChain(start, down, sh, sh3, sh4);
    UncappedChain(sh, sh3, sh4);
  }

  /** Anything that leaves flags, trace, watchdog and hardware alone. */
  lemma {:induction false} SameFlags(start: set<Flag>, down: bool, sh: Shell, sh': Shell)
    requires sh'.status.flags == sh.status.flags && sh'.pending == sh.pending && sh'.watchdog == sh.watchdog && sh'.hardware == sh.hardware
    ensures Respects(start, down, sh, sh') && Uncapped(sh, sh')
  {
    hide NoDuplicates, Replay;
    SameHardware(sh, sh');
    hide Uncapped;
    assert Raised(sh) == Raised(sh');
  }

  // ---- Calibrations ----

  lemma {:induction false} StopBurnerRespects(start: set<Flag>, down: bool, sh: Shell)
    ensures var sh' := StopBurner(sh);
            && Respects(start, down, sh, sh') && Uncapped(sh, sh') && !sh'.burner
            && sh' == sh.(hardware := sh'.hardware, burner := false)
  {
    hide Respects, Uncapped;
    SameFlags(start, down, sh, sh);
    var sh1 := Issue(sh, Burner(false));
    IssueIsRoutine(start, down, sh, Burner(false));
    IssueUncapped(sh, Burner(false));
    SameFlags(start, down, sh1, sh1.(burner := false));
    RespectsChain(start, down, sh, sh1, sh1.(burner := false));
    UncappedChain(sh, sh1, sh1.(burner := false));
  }

  lemma {:induction false} EndRespects(start: set<Flag>, down: bool, sh: Shell)
    ensures var sh' := EndCalibration(sh);
            && Respects(start, down, sh, sh') && Uncapped(sh, sh')
            && sh'.calib.None? && !sh'.burner && !sh'.fromAuto
            && sh'.status.cpuLimit == sh.status.cpuLimit && sh'.status.gpuMax == sh.status.gpuMax
            && sh'.auto.Some? == sh.auto.Some?
            && (sh'.hold <==> sh.fromAuto && sh.auto.Some?)
            && sh'.status.mode == if sh.fromAuto && sh.auto.Some? then Auto else Monitor
  {
    hide Respects, Uncapped, StopBurner;
    StopBurnerRespects(start, down, sh);
    SameFlags(start, down, StopBurner(sh), EndCalibration(sh));
    RespectsChain(start, down, sh, StopBurner(sh), EndCalibration(sh));
    UncappedChain(sh, StopBurner(sh), EndCalibration(sh));
  }

  /** A calibration effect stays inside the session; only the burner, the
      limits and the hardware can move. */
  predicate SameOwner(sh: Shell, sh': Shell) {
    && sh'.status.mode == sh.status.mode && sh'.calib == sh.calib && sh'.auto == sh.auto
    && sh'.fromAuto == sh.fromAuto && sh'.hold == sh.hold
  }

  lemma {:induction false} MachineEffectRespects(start: set<Flag>, sh: Shell, e: StepTest.Effect, reply: Reply, sampled: bool, world: World)
    ensures var sh' := MachineEffect(sh, e, reply, sampled, world);
            Respects(start, world.down, sh, sh') && SameOwner(sh, sh')
  {
    hide NoDuplicates, Respects, Uncapped, StopBurner, Issue, CpuAnswered, GpuAnswered;
    SameFlags(start, world.down, sh, sh);
    match e {
      case SetCpu(_) =>
        var sh1 := sh.(evidence := sh.evidence.(cpuVerified := false));
        SameFlags(start, world.down, sh, sh1);
        if !world.down && world.hasCpu {
          CpuWriteRespects(start, sh1, reply, sampled);
          RespectsChain(start, false, sh, sh1, CpuAnswered(Issue(sh1, CapCpu), reply, sampled));
        }
      case SetGpu(_) =>
        if !world.down && world.hasGpu {
          GpuWriteRespects(start, sh, reply, sampled);
        }
      case StartBurner(_) => StartBurnerRespects(start, world.down, sh);
      case StopBurner => StopBurnerRespects(start, world.down, sh);
      case Fitted(_, _) =>
      case Noted =>
      case Retrying =>
    }
  }

  lemma {:induction false} CalibEffectRespects(start: set<Flag>, sh: Shell, e: RunnerEffect, reply: Reply, sampled: bool, world: World)
    requires NoDuplicates(sh.status.flags)
    ensures var sh' := CalibEffect(sh, e, reply, sampled, world);
            Respects(start, world.down, sh, sh') && SameOwner(sh, sh')
  {
    hide NoDuplicates, Respects, MachineEffect, SyncFlag;
    SameFlags(start, world.down, sh, sh);
    match e {
      case Machine(m) => MachineEffectRespects(start, sh, m, reply, sampled, world);
      case SaveState(cpu, gpu) =>
        var sh1 := sh.(saved := Saved(cpu, gpu));
        SameFlags(start, world.down, sh, sh1);
        SyncRespects(start, world.down, sh1, NotCalibrated, !Calibrated(world.viewKey, cpu, gpu));
        RespectsChain(start, world.down, sh, sh1, CalibEffect(sh, e, reply, sampled, world));
      case Finished =>
    }
  }

  lemma {:induction false} CpuWriteRespects(start: set<Flag>, sh: Shell, reply: Reply, sampled: bool)
    ensures var sh' := CpuAnswered(Issue(sh, CapCpu), reply, sampled); Respects(start, false, sh, sh') && SameOwner(sh, sh')
  {
    hide Respects;
    CapRespects(start, sh, CapCpu);
    var sh' := CpuAnswered(Issue(sh, CapCpu), reply, sampled);
    SameFlags(start, false, Issue(sh, CapCpu), sh');
    RespectsChain(start, false, sh, Issue(sh, CapCpu), sh');
  }

  lemma {:induction false} GpuWriteRespects(start: set<Flag>, sh: Shell, reply: Reply, sampled: bool)
    ensures var sh' := GpuAnswered(Issue(sh, CapGpu), reply, sampled); Respects(start, false, sh, sh') && SameOwner(sh, sh')
  {
    hide Respects, G.Kept;
    CapRespects(start, sh, CapGpu);
    var sh' := GpuAnswered(Issue(sh, CapGpu), reply, sampled);
    SameFlags(start, false, Issue(sh, CapGpu), sh');
    RespectsChain(start, false, sh, Issue(sh, CapGpu), sh');
  }

  lemma {:induction false} StartBurnerRespects(start: set<Flag>, down: bool, sh: Shell)
    ensures var sh' := Issue(StopBurner(sh), Burner(true)).(burner := true); Respects(start, down, sh, sh') && SameOwner(sh, sh')
  {
    hide Respects, Uncapped, StopBurner;
    StopBurnerRespects(start, down, sh);
    var sh1 := StopBurner(sh);
    var sh2 := Issue(sh1, Burner(true));
    IssueIsRoutine(start, down, sh1, Burner(true));
    RespectsChain(start, down, sh, sh1, sh2);
    SameFlags(start, down, sh2, sh2.(burner := true));
    RespectsChain(start, down, sh, sh2, sh2.(burner := true));
  }

  lemma {:induction false} CalibEffectsRespect(start: set<Flag>, sh: Shell, effects: seq<RunnerEffect>, sampled: bool, world: World)
    requires NoDuplicates(sh.status.flags)
    ensures var sh' := CalibEffects(sh, effects, sampled, world);
            Respects(start, world.down, sh, sh') && SameOwner(sh, sh')
  {
    hide NoDuplicates, Respects, CalibEffect;
    if effects == [] {
      SameFlags(start, world.down, sh, sh);
    } else {
      var n := |effects| - 1;
      var sh1 := CalibEffects(sh, effects[..n], sampled, world);
      CalibEffectsRespect(start, sh, effects[..n], sampled, world);
      RespectsKeepsDistinct(start, world.down, sh, sh1);
      CalibEffectRespects(start, sh1, effects[n], ReplyAt(world, n), sampled, world);
      RespectsChain(start, world.down, sh, sh1, CalibEffects(sh, effects, sampled, world));
    }
  }

  lemma {:induction false} ApplyCalibRespects(start: set<Flag>, sh: Shell, effects: seq<RunnerEffect>, sampled: bool, world: World)
    requires NoDuplicates(sh.status.flags)
    ensures var sh' := ApplyCalib(sh, effects, sampled, world);
            && Respects(start, world.down, sh, sh')
            && if Finished in effects then
                 && sh'.calib.None? && !sh'.burner && !sh'.fromAuto && sh'.auto.Some? == sh.auto.Some?
                 && sh'.status.mode == (if sh.fromAuto && sh.auto.Some? then Auto else Monitor)
                 && sh'.hold == (sh.fromAuto && sh.auto.Some?)
               else SameOwner(sh, sh')
  {
    hide NoDuplicates, Respects, CalibEffects, EndCalibration, Uncapped;
    var sh1 := CalibEffects(sh, effects, sampled, world);
    CalibEffectsRespect(start, sh, effects, sampled, world);
    EndRespects(start, world.down, sh1);
    RespectsChain(start, world.down, sh, sh1, EndCalibration(sh1));
  }

  lemma {:induction false} AbortHasNoFinish(r: RunState)
    ensures Finished !in OnAbort(r).1
    ensures OnAbort(r).0.finished && OnAbort(r).0.started == r.started
  {
    hide StepTest.Abort;
  }

  lemma {:induction false} AbortCalibRespects(start: set<Flag>, sh: Shell, world: World)
    requires NoDuplicates(sh.status.flags)
    ensures var sh' := AbortCalib(sh, world);
            && Respects(start, world.down, sh, sh')
            && if sh.calib.None? then sh' == sh
               else
                 && sh'.calib.None? && !sh'.burner && !sh'.fromAuto && sh'.auto.Some? == sh.auto.Some?
                 && sh'.status.mode == (if sh.fromAuto && sh.auto.Some? then Auto else Monitor)
                 && sh'.hold == (sh.fromAuto && sh.auto.Some?)
  {
    hide NoDuplicates, Respects, ApplyCalib, EndCalibration, OnAbort, Uncapped;
    SameFlags(start, world.down, sh, sh);
    if sh.calib.Some? {
      var sh1 := sh.(calib := None);
      SameFlags(start, world.down, sh, sh1);
      AbortHasNoFinish(sh.calib.value);
      var sh2 := ApplyCalib(sh1, OnAbort(sh.calib.value).1, false, world);
      ApplyCalibRespects(start, sh1, OnAbort(sh.calib.value).1, false, world);
      RespectsChain(start, world.down, sh, sh1, sh2);
      EndRespects(start, world.down, sh2);
      RespectsChain(start, world.down, sh, sh2, EndCalibration(sh2));
    }
  }

  lemma {:induction false} AbortRunnerRespects(start: set<Flag>, sh: Shell, world: World)
    requires NoDuplicates(sh.status.flags)
    ensures var sh' := AbortRunner(sh, world);
            && Respects(start, world.down, sh, sh')
            && sh'.calib.Some? == sh.calib.Some? && sh'.auto == sh.auto && sh'.fromAuto == sh.fromAuto && sh'.status.mode == sh.status.mode
            && sh'.hold == sh.hold
  {
    hide NoDuplicates, Respects, ApplyCalib, OnAbort;
    SameFlags(start, world.down, sh, sh);
    if sh.calib.Some? {
      var r := sh.calib.value;
      var sh1 := sh.(calib := Some(OnAbort(r).0));
      SameFlags(start, world.down, sh, sh1);
      AbortHasNoFinish(r);
      ApplyCalibRespects(start, sh1, OnAbort(r).1, true, world);
      RespectsChain(start, world.down, sh, sh1, ApplyCalib(sh1, OnAbort(r).1, true, world));
    }
  }

  // ---- What every return keeps ----

  /** Who owns the actuators. */
  predicate Owned(sh: Shell) {
    && (sh.calib.Some? <==> sh.status.mode == Calibrating)
    && (sh.auto.Some? <==> sh.status.mode == Auto || (sh.status.mode == Calibrating && sh.fromAuto))
    && (sh.fromAuto ==> sh.status.mode == Calibrating)
    && (sh.burner ==> sh.calib.Some?)
    && (sh.calib.Some? ==> sh.calib.value.started && !sh.calib.value.finished)
  }

  /** The latch mirrors the emergency flags, and holds Monitor bare. */
  predicate Latched(sh: Shell) {
    && (sh.watchdog.tripped <==> Alarmed(sh))
    && (sh.watchdog.tripped ==> sh.status.mode == Monitor && Bare(sh))
  }

  ghost predicate Inv(sh: Shell) {
    Owned(sh) && Latched(sh) && sh.pending == [] && NoDuplicates(sh.status.flags)
  }

  /** A call's outcome: the invariant, an honest flag stream, and the fence. */
  ghost predicate Sound(down: bool, sh: Shell, out: Outcome) {
    && Inv(out.0)
    && Replay(Raised(sh), out.1) == Some(Raised(out.0))
    && (down ==> Uncapped(sh, out.0))
  }

  lemma {:induction false} NothingPending(sh: Shell)
    requires sh.pending == [] && NoDuplicates(sh.status.flags)
    ensures Traced(Raised(sh), sh)
  {
  }

  /** Draining hands over exactly the traced transitions. */
  lemma {:induction false} DrainReplays(start: set<Flag>, sh: Shell, first: seq<Effect>)
    requires Traced(start, sh) && (first == [] || first == [Released])
    ensures var out := Drain(sh, first);
            && Replay(start, out.1) == Some(Raised(out.0)) && out.0.pending == [] && NoDuplicates(out.0.status.flags)
            && out.0 == sh.(pending := [])
  {
    ReplayAppend(start, first, sh.pending);
    assert Raised(sh.(pending := [])) == Raised(sh);
    if first == [Released] {
      ReplaySnoc(start, [], Released);
      assert first == [] + [Released];
    }
    hide NoDuplicates;
  }

  /** What a respectful operation followed by a drain returns. */
  lemma {:induction false} DrainedIsSound(down: bool, sh: Shell, sh': Shell, first: seq<Effect>)
    requires sh.pending == [] && NoDuplicates(sh.status.flags)
    requires Respects(Raised(sh), down, sh, sh') && Owned(sh') && Latched(sh')
    requires first == [] || first == [Released]
    ensures Sound(down, sh, Drain(sh', first))
  {
    hide Replay, NoDuplicates;
    NothingPending(sh);
    DrainReplays(Raised(sh), sh', first);
    if down {
      SameHardware(sh', Drain(sh', first).0);
      UncappedChain(sh, sh', Drain(sh', first).0);
    }
    hide Uncapped;
    assert Alarmed(Drain(sh', first).0) == Alarmed(sh');
  }

  /** An emergency leaves Monitor bare and alarmed under a tripped watchdog. */
  lemma {:induction false} EmergencyIsSound(start: Shell, sh: Shell, trip: Trip, world: World)
    requires start.pending == [] && NoDuplicates(start.status.flags)
    requires Respects(Raised(start), world.down, start.(watchdog := sh.watchdog), sh) && sh.watchdog.tripped
    requires sh.calib.None? ==> !sh.burner && !sh.fromAuto
    ensures Sound(world.down, start, EmergencyRelease(sh, trip, world))
    ensures EmergencyRelease(sh, trip, world).0.watchdog.tripped
    ensures EmergencyRelease(sh, trip, world).0.status.mode == Monitor
  {
    hide NoDuplicates, Respects, Uncapped, AbortCalib, ReleaseToStock, AddFlag;
    var f0, down := Raised(start), world.down;
    var s0 := start.(watchdog := sh.watchdog);
    assert Raised(s0) == Raised(start);
    RespectsKeepsDistinct(f0, down, s0, sh);
    var sh1 := AbortCalib(sh, world);
    AbortCalibRespects(f0, sh, world);
    RespectsKeepsDistinct(f0, down, sh, sh1);
    RespectsChain(f0, down, s0, sh, sh1);
    var sh2 := ExitAuto(sh1);
    SameFlags(f0, down, sh1, sh2);
    RespectsChain(f0, down, s0, sh1, sh2);
    var sh3 := ReleaseToStock(sh2, world);
    ReleaseRespects(f0, down, sh2, world);
    RespectsChain(f0, down, s0, sh2, sh3);
    RespectsKeepsDistinct(f0, down, sh2, sh3);
    var f := if trip == Thermal then ThermalEmergency else SensorLost;
    RaiseIsSound(start, s0, sh3, f, down);
    WatchdogKept(f0, down, s0, sh3);
  }

  lemma {:induction false} WatchdogKept(start: set<Flag>, down: bool, sh: Shell, sh': Shell)
    requires Respects(start, down, sh, sh')
    ensures sh'.watchdog == sh.watchdog
  {
    hide Traced, Uncapped, NoDuplicates;
  }

  lemma {:induction false} RaiseIsSound(start: Shell, s0: Shell, sh: Shell, f: Flag, down: bool)
    requires start.pending == [] && NoDuplicates(start.status.flags) && s0 == start.(watchdog := s0.watchdog)
    requires Respects(Raised(start), down, s0, sh) && s0.watchdog.tripped && IsEmergency(f) && NoDuplicates(sh.status.flags)
    requires sh.status.mode == Monitor && Bare(sh) && sh.calib.None? && sh.auto.None? && !sh.fromAuto && !sh.burner
    ensures Sound(down, start, Drain(AddFlag(sh, f), [Released]))
    ensures Drain(AddFlag(sh, f), [Released]).0.watchdog.tripped && Drain(AddFlag(sh, f), [Released]).0.status.mode == Monitor
  {
    hide NoDuplicates, Replay, Uncapped;
    NothingPending(start);
    assert Raised(s0) == Raised(start);
    assert Traced(Raised(start), s0);
    AddTraces(Raised(start), sh, f);
    AddKeepsDistinct(sh, f);
    var sh' := AddFlag(sh, f);
    DrainReplays(Raised(start), sh', [Released]);
    var out := Drain(sh', [Released]).0;
    if down {
      SameHardware(start, s0);
      UncappedChain(start, s0, sh);
      SameHardware(sh, out);
      UncappedChain(start, sh, out);
    }
    assert f in out.status.flags;
  }

  // ---- Commands ----

  /** The acknowledging command: clears both alarms and the latch, and touches
      neither the hardware nor the session. */
  predicate Acknowledged(sh: Shell, sh': Shell) {
    && !sh'.watchdog.tripped && !Alarmed(sh')
    && sh'.hardware == sh.hardware && SameSession(sh, sh') && sh'.status.cpuLimit == sh.status.cpuLimit && sh'.status.gpuMax == sh.status.gpuMax
  }

  lemma {:induction false} AcknowledgeIsSound(sh: Shell, down: bool)
    requires Inv(sh)
    ensures Sound(down, sh, Acknowledge(sh)) && Acknowledged(sh, Acknowledge(sh).0)
  {
    hide NoDuplicates, Replay, RemoveFlag, Uncapped;
    var f0 := Raised(sh);
    NothingPending(sh);
    RemoveTraces(f0, sh, ThermalEmergency);
    var sh1 := RemoveFlag(sh, ThermalEmergency);
    RemoveTraces(f0, sh1, SensorLost);
    var sh2 := RemoveFlag(sh1, SensorLost);
    var sh3 := sh2.(watchdog := ARMED);
    assert Raised(sh3) == Raised(sh2);
    DrainReplays(f0, sh3, []);
    SameHardware(sh, Drain(sh3, []).0);
  }

  lemma {:induction false} CpuCommandIsSound(sh: Shell, verified: Option<real>, world: World)
    requires Inv(sh) && !sh.watchdog.tripped && !Rejected(sh, SetCpuW(verified))
    ensures Sound(world.down, sh, Execute(sh, SetCpuW(verified), world))
  {
    hide NoDuplicates, Respects;
    SameFlags(Raised(sh), world.down, sh, sh);
    if world.down || !world.hasCpu {
      DrainedIsSound(world.down, sh, sh, []);
    } else {
      var sh1 := Issue(sh, CapCpu);
      CapRespects(Raised(sh), sh, CapCpu);
      var sh2 := WithMode(WithCpu(sh1, verified), Manual).(timers := sh1.timers.(stick := 0));
      SameFlags(Raised(sh), false, sh1, sh2);
      RespectsChain(Raised(sh), false, sh, sh1, sh2);
      DrainedIsSound(false, sh, if verified.Some? then sh2 else sh1, []);
    }
  }

  lemma {:induction false} GpuCommandIsSound(sh: Shell, applied: Option<nat>, world: World)
    requires Inv(sh) && !sh.watchdog.tripped && !Rejected(sh, SetGpuMaxClock(applied))
    ensures Sound(world.down, sh, Execute(sh, SetGpuMaxClock(applied), world))
  {
    hide NoDuplicates, Respects;
    SameFlags(Raised(sh), world.down, sh, sh);
    if world.down || !world.hasGpu {
      DrainedIsSound(world.down, sh, sh, []);
    } else {
      var sh1 := Issue(sh, CapGpu);
      CapRespects(Raised(sh), sh, CapGpu);
      var sh2 := WithMode(WithGpu(sh1, applied), Manual);
      SameFlags(Raised(sh), false, sh1, sh2);
      RespectsChain(Raised(sh), false, sh, sh1, sh2);
      DrainedIsSound(false, sh, if applied.Some? then sh2 else sh1, []);
    }
  }

  /** Leaving Auto or Manual for Monitor with stock limits. */
  lemma {:induction false} LeaveIsSound(sh: Shell, world: World)
    requires Inv(sh) && sh.status.mode != Calibrating
    ensures Sound(world.down, sh, Drain(ReleaseToStock(ExitAuto(sh), world), [Released]))
    ensures Uncapped(sh, Drain(ReleaseToStock(ExitAuto(sh), world), [Released]).0)
    ensures Drain(ReleaseToStock(ExitAuto(sh), world), [Released]).0.hold == sh.hold
    ensures Drain(ReleaseToStock(ExitAuto(sh), world), [Released]).0.watchdog == sh.watchdog
    ensures Drain(ReleaseToStock(ExitAuto(sh), world), [Released]).0.status.mode == Monitor
  {
    hide NoDuplicates, Respects, ReleaseToStock, Uncapped;
    var f0, down := Raised(sh), world.down;
    var sh1 := ExitAuto(sh);
    SameFlags(f0, down, sh, sh1);
    var sh2 := ReleaseToStock(sh1, world);
    ReleaseRespects(f0, down, sh1, world);
    RespectsChain(f0, down, sh, sh1, sh2);
    UncappedChain(sh, sh1, sh2);
    LatchKept(f0, down, sh, sh2);
    DrainedIsSound(down, sh, sh2, [Released]);
    SameHardware(sh2, Drain(sh2, [Released]).0);
    UncappedChain(sh, sh2, Drain(sh2, [Released]).0);
    WatchdogKept(f0, down, sh, sh2);
  }

  /** Alarms and watchdog unmoved: the latch holds if Monitor stays bare. */
  lemma {:induction false} LatchKept(start: set<Flag>, down: bool, sh: Shell, sh': Shell)
    requires Respects(start, down, sh, sh') && Latched(sh)
    requires sh.watchdog.tripped ==> sh'.status.mode == Monitor && Bare(sh')
    ensures Latched(sh')
  {
    hide Traced, Uncapped, NoDuplicates, Alarmed;
  }

  lemma {:induction false} EnterAutoIsSound(sh: Shell, down: bool)
    requires Inv(sh) && !sh.watchdog.tripped && sh.status.mode != Calibrating && sh.status.mode != Auto
    ensures Sound(down, sh, Drain(EnteredAuto(sh), []))
  {
    hide NoDuplicates, Respects, AddFlag;
    var f0 := Raised(sh);
    SyncRespects(f0, down, sh, NotCalibrated, true);
    var sh1 := AddFlag(sh, NotCalibrated);
    var sh2 := WithMode(sh1.(auto := Some(AutoState(V.FRESH, V.FRESH))), Auto);
    SameFlags(f0, down, sh1, sh2);
    RespectsChain(f0, down, sh, sh1, sh2);
    LatchKept(f0, down, sh, sh2);
    DrainedIsSound(down, sh, sh2, []);
  }

  lemma {:induction false} StartIsSound(sh: Shell, down: bool)
    requires Inv(sh) && !sh.watchdog.tripped && (sh.status.mode == Monitor || sh.status.mode == Auto)
    ensures Sound(down, sh, Drain(Begun(sh), []))
  {
    hide NoDuplicates, Respects;
    var sh1 := Begun(sh);
    SameFlags(Raised(sh), down, sh, sh1);
    LatchKept(Raised(sh), down, sh, sh1);
    DrainedIsSound(down, sh, sh1, []);
  }

  lemma {:induction false} IdleIsSound(sh: Shell, down: bool)
    requires Inv(sh)
    ensures Sound(down, sh, Drain(sh, [])) && Drain(sh, []) == (sh, [])
    ensures Uncapped(sh, sh)
  {
    hide NoDuplicates, Respects;
    SameFlags(Raised(sh), down, sh, sh);
    DrainedIsSound(down, sh, sh, []);
  }

  lemma {:induction false} AbortCommandIsSound(sh: Shell, world: World)
    requires Inv(sh)
    ensures Sound(world.down, sh, Drain(AbortCalib(sh, world), []))
  {
    hide NoDuplicates, Respects, AbortCalib;
    var sh1 := AbortCalib(sh, world);
    AbortCalibRespects(Raised(sh), sh, world);
    LatchKept(Raised(sh), world.down, sh, sh1);
    DrainedIsSound(world.down, sh, sh1, []);
  }

  /** Every command but Quit returns with the invariant, an honest flag
      stream and the fence respected. */
  lemma {:induction false} CommandIsSound(sh: Shell, c: Command, world: World)
    requires Inv(sh) && !c.Quit?
    ensures Sound(world.down, sh, OnCommand(sh, c, world))
  {
    hide Inv, Sound, Acknowledge, Replay, ReleaseToStock, AbortCalib, AddFlag;
    IdleIsSound(sh, world.down);
    InvOwned(sh);
    if sh.watchdog.tripped && Actuating(c) {
      AcknowledgeIsSound(sh, world.down);
    } else if !Rejected(sh, c) {
      match c {
        case SetCpuW(verified) => CpuCommandIsSound(sh, verified, world);
        case SetGpuMaxClock(applied) => GpuCommandIsSound(sh, applied, world);
        case ReleaseAll => LeaveIsSound(sh, world);
        case SetAuto(on) =>
          if sh.status.mode == Auto {
            LeaveIsSound(sh, world);
          } else if on {
            EnterAutoIsSound(sh, world.down);
          }
        case StartCalibration =>
          if sh.status.mode == Monitor || sh.status.mode == Auto {
            StartIsSound(sh, world.down);
          }
        case AbortCalibration => AbortCommandIsSound(sh, world);
        case _ =>
      }
    }
  }

  lemma {:induction false} InvOwned(sh: Shell)
    requires Inv(sh)
    ensures Owned(sh) && Latched(sh) && sh.pending == [] && NoDuplicates(sh.status.flags)
  {
  }

  /** Quitting still tells its flag transitions, restores last and starts no
      cap write once the fence is up. */
  lemma {:induction false} QuitIsSound(sh: Shell, world: World)
    requires Inv(sh)
    ensures var (sh', effects) := OnCommand(sh, Quit, world);
            && Replay(Raised(sh), effects) == Some(Raised(sh')) && sh'.pending == [] && NoDuplicates(sh'.status.flags)
            && sh'.calib.None? && sh'.auto.None? && !sh'.burner
            && |sh'.hardware| > 0 && sh'.hardware[|sh'.hardware| - 1] == RestoreAll
            && (world.down ==> Uncapped(sh, sh'))
            && effects != [] && effects[|effects| - 1] == QuitNow
  {
    hide NoDuplicates, Respects, AbortCalib, Uncapped, Replay;
    var f0, down := Raised(sh), world.down;
    var sh1 := AbortCalib(sh, world);
    AbortCalibRespects(f0, sh, world);
    var sh2 := Issue(ExitAuto(sh1), RestoreAll);
    SameFlags(f0, down, sh1, ExitAuto(sh1));
    RespectsChain(f0, down, sh, sh1, ExitAuto(sh1));
    IssueIsRoutine(f0, down, ExitAuto(sh1), RestoreAll);
    RespectsChain(f0, down, sh, ExitAuto(sh1), sh2);
    TracedThrough(f0, down, sh, sh2);
    DrainReplays(f0, sh2, []);
    var out := Drain(sh2, []);
    ReplaySnoc(f0, out.1, QuitNow);
    FencedThrough(f0, down, sh, sh2);
    if down {
      SameHardware(sh2, out.0);
      UncappedChain(sh, sh2, out.0);
    }
  }

  lemma {:induction false} TracedThrough(start: set<Flag>, down: bool, sh: Shell, sh': Shell)
    requires Respects(start, down, sh, sh') && sh.pending == [] && NoDuplicates(sh.status.flags) && start == Raised(sh)
    ensures Traced(start, sh')
  {
    hide Uncapped, NoDuplicates, Alarmed;
    NothingPending(sh);
  }

  lemma {:induction false} FencedThrough(start: set<Flag>, down: bool, sh: Shell, sh': Shell)
    requires Respects(start, down, sh, sh')
    ensures down ==> Uncapped(sh, sh')
  {
    hide Traced, NoDuplicates, Alarmed, Uncapped;
  }

  // ---- Samples ----

  lemma {:induction false} TakenRunner(fit: StepTest.Fitter, r: RunState, x: StepTest.Input)
    requires r.started && !r.finished
    ensures var (r', effects) := TakeSample(fit, r, x);
            r'.started && (r'.finished <==> Finished in effects)
  {
    hide StepTest.Step, Merge;
    var (r', effects) := TakeSample(fit, r, x);
    if r'.finished {
      assert effects[|effects| - 1] == Finished;
    }
  }

  /** The cap check moves nothing but the evidence, and may write the cap. */
  lemma {:induction false} PreparedRespects(start: set<Flag>, sh: Shell, r: RunState, s: Sample, tick: Tick, world: World)
    ensures var sh' := Prepared(sh, r, s, tick, world).0;
            && Respects(start, world.down, sh, sh')
            && sh' == sh.(hardware := sh'.hardware, evidence := sh'.evidence)
  {
    hide Respects, GpuScore, CheckDue, TooHotToRepair, CalibInput, NoDuplicates;
    SameFlags(start, world.down, sh, sh);
    var sh1 := if Repairs(sh, r, s, tick, world) then Issue(sh, CapCpu) else sh;
    CapRespects(start, sh, CapCpu);
    RepairsUnfenced(sh, r, s, tick, world);
    var sh' := Prepared(sh, r, s, tick, world).0;
    SameFlags(start, world.down, sh1, sh');
    RespectsChain(start, world.down, sh, sh1, sh');
  }

  lemma {:induction false} RepairsUnfenced(sh: Shell, r: RunState, s: Sample, tick: Tick, world: World)
    ensures Repairs(sh, r, s, tick, world) ==> CheckDue(sh, r, s, world) && !world.down
  {
  }

  lemma {:induction false} CalibSampleIsSound(fit: StepTest.Fitter, sh: Shell, s: Sample, tick: Tick, world: World)
    requires Inv(sh) && sh.status.mode == Calibrating
    ensures Sound(world.down, sh, CalibSample(fit, sh, s, tick, world))
    ensures var r := TakeSample(fit, sh.calib.value, Prepared(sh, sh.calib.value, s, tick, world).1).0;
            var sh' := CalibSample(fit, sh, s, tick, world).0;
            && (sh'.status.mode == Calibrating <==> !r.finished)
            && (!r.finished ==> sh'.calib == Some(r) && sh'.fromAuto == sh.fromAuto)
            && (r.finished ==> sh'.status.mode == if sh.fromAuto then Auto else Monitor)
  {
    hide NoDuplicates, Respects, TakeSample, ApplyCalib, Uncapped, Prepared;
    var f0, down := Raised(sh), world.down;
    var (sh1, x) := Prepared(sh, sh.calib.value, s, tick, world);
    PreparedRespects(f0, sh, sh.calib.value, s, tick, world);
    var (r', effects) := TakeSample(fit, sh.calib.value, x);
    TakenRunner(fit, sh.calib.value, x);
    var sh2 := sh1.(calib := Some(r'));
    SameFlags(f0, down, sh1, sh2);
    RespectsChain(f0, down, sh, sh1, sh2);
    var sh3 := ApplyCalib(sh2, effects, true, world);
    ApplyCalibRespects(f0, sh2, effects, true, world);
    RespectsChain(f0, down, sh, sh2, sh3);
    LatchKept(f0, down, sh, sh3);
    DrainedIsSound(down, sh, sh3, []);
  }

  lemma {:induction false} ResumeKeepsMode(start: set<Flag>, sh: Shell, s: Sample, m: Maintenance, world: World)
    requires NoDuplicates(sh.status.flags)
    ensures Resume(sh, s, m, world).status.mode == sh.status.mode
  {
    hide NoDuplicates, Respects, Resume, Uncapped;
    ResumeRoutine(start, sh, s, m, world);
  }

  lemma {:induction false} RegulateIsSound(sh: Shell, s: Sample, tick: Tick, world: World)
    requires Inv(sh) && sh.status.mode != Calibrating
    ensures Sound(world.down, sh, Regulate(sh, s, tick, world))
    ensures sh.status.mode == Monitor && Bare(sh) ==>
              Uncapped(sh, Regulate(sh, s, tick, world).0) && Regulate(sh, s, tick, world).0.watchdog == sh.watchdog
  {
    hide NoDuplicates, Respects, Resume, AutoSample, Stickiness, Periodic, Uncapped;
    var sh' := Regulated(sh, s, tick, world);
    RegulatedRespects(Raised(sh), sh, s, tick, world);
    LatchKept(Raised(sh), world.down, sh, sh');
    var first := if sh.status.mode == Auto && tick.auto.engagement == Disengaged(true) then [Released] else [];
    ResumeKeepsMode(Raised(sh), sh, s, tick.onResume, world);
    DrainedIsSound(world.down, sh, sh', first);
    WatchdogKept(Raised(sh), world.down, sh, sh');
    if sh.status.mode == Monitor && Bare(sh) {
      SameHardware(sh', Drain(sh', first).0);
      UncappedChain(sh, sh', Drain(sh', first).0);
    }
  }

  /** A bookkeeping change before a call does not change its verdict. */
  lemma {:induction false} SoundFrom(down: bool, sh: Shell, sh1: Shell, out: Outcome)
    requires Sound(down, sh1, out) && sh1.status.flags == sh.status.flags && sh1.hardware == sh.hardware
    ensures Sound(down, sh, out)
  {
    hide Inv, Replay, Uncapped;
    assert Raised(sh1) == Raised(sh);
    SameHardware(sh, sh1);
    if down {
      UncappedChain(sh, sh1, out.0);
    }
  }

  lemma {:induction false} ProceedIsSound(fit: StepTest.Fitter, sh: Shell, s: Sample, tick: Tick, world: World)
    requires Inv(sh)
    ensures Sound(world.down, sh, Proceed(fit, sh, s, tick, world))
  {
    hide NoDuplicates, Respects, CalibSample, Regulate, Uncapped;
    if sh.status.mode == Calibrating {
      CalibSampleIsSound(fit, sh, s, tick, world);
    } else if sh.status.mode == Auto && sh.hold {
      var sh1 := sh.(hold := false);
      SameFlags(Raised(sh), world.down, sh, sh1);
      LatchKept(Raised(sh), world.down, sh, sh1);
      DrainedIsSound(world.down, sh, sh1, []);
      assert Drain(sh1, []) == (sh1, []);
    } else {
      RegulateIsSound(sh, s, tick, world);
    }
  }

  lemma {:induction false} SampleIsSound(fit: StepTest.Fitter, sh: Shell, s: Sample, tick: Tick, world: World)
    requires Inv(sh)
    ensures Sound(world.down, sh, OnSample(fit, sh, s, tick, world))
  {
    hide NoDuplicates, Respects, Proceed, EmergencyRelease, AbortRunner, Uncapped, Sound;
    IdleIsSound(sh, world.down);
    if !world.down {
      var (watchdog, trip) := Observe(sh.watchdog, s);
      var sh1 := sh.(watchdog := watchdog);
      SameFlags(Raised(sh), false, sh1, sh1);
      if trip == NoTrip {
        var sh2 := sh1.(idleWarned := sh1.idleWarned && !watchdog.IsQuiet());
        InvDependsOnLatch(sh, sh2);
        ProceedIsSound(fit, sh2, s, tick, world);
        SoundFrom(false, sh, sh2, Proceed(fit, sh2, s, tick, world));
      } else if trip == Thermal && sh1.status.mode == Calibrating {
        AbortRunnerRespects(Raised(sh), sh1, world);
        WatchdogKept(Raised(sh), false, sh1, AbortRunner(sh1, world));
        EmergencyIsSound(sh, AbortRunner(sh1, world), Thermal, world);
      } else if AnythingCommanded(sh1) {
        EmergencyIsSound(sh, sh1, trip, world);
      } else {
        var sh2 := sh1.(idleWarned := true, watchdog := ARMED);
        InvDependsOnLatch(sh, sh2);
        ProceedIsSound(fit, sh2, s, tick, world);
        SoundFrom(false, sh, sh2, Proceed(fit, sh2, s, tick, world));
      }
    }
  }

  lemma {:induction false} InvDependsOnLatch(sh: Shell, sh': Shell)
    requires Inv(sh) && sh' == sh.(watchdog := sh'.watchdog, idleWarned := sh'.idleWarned)
    requires sh'.watchdog.tripped == sh.watchdog.tripped
    ensures Inv(sh')
  {
    hide NoDuplicates;
  }

  // ---- Whole sessions ----

  predicate NoQuit(events: seq<Call>) {
    forall i :: 0 <= i < |events| ==> !(events[i].Commanded? && events[i].c.Quit?)
  }

  function Down(e: Call): bool {
    match e case Commanded(_, world) => world.down case Ticked(_, _, world) => world.down
  }

  lemma {:induction false} NextIsSound(fit: StepTest.Fitter, sh: Shell, e: Call)
    requires Inv(sh) && !(e.Commanded? && e.c.Quit?)
    ensures Sound(Down(e), sh, Next(fit, sh, e))
  {
    hide Inv, Sound, OnCommand, OnSample;
    match e {
      case Commanded(c, world) => CommandIsSound(sh, c, world);
      case Ticked(s, tick, world) => SampleIsSound(fit, sh, s, tick, world);
    }
  }

  /** Every session without Quit: at each return the session has one owner,
      the watchdog latch is up exactly when an emergency flag is, the flag list
      has no duplicates, nothing is pending, and replaying the returned
      transitions from the start reproduces the flags, each transition
      changing its flag. */
  lemma {:induction false} SessionsAreSound(fit: StepTest.Fitter, saved: Saved, events: seq<Call>)
    requires NoQuit(events)
    ensures var (sh, emitted) := Session(fit, Booted(saved), events);
            && Inv(sh)
            && Replay({}, emitted) == Some(Raised(sh))
  {
    hide Next, Replay;
    if events == [] {
      StartIsFlagless(saved);
    } else {
      var front, e := events[..|events| - 1], events[|events| - 1];
      SessionsAreSound(fit, saved, front);
      hide Inv;
      var (sh, emitted) := Session(fit, Booted(saved), front);
      NextIsSound(fit, sh, e);
      ReplayAppend({}, emitted, Next(fit, sh, e).1);
    }
  }

  lemma {:induction false} StartIsFlagless(saved: Saved)
    ensures Inv(Booted(saved)) && Replay({}, []) == Some(Raised(Booted(saved)))
  {
    assert Raised(Booted(saved)) == {};
  }

  /** The stream stays complete through the final Quit. */
  lemma {:induction false} QuittingSessionTellsItsFlags(fit: StepTest.Fitter, saved: Saved, events: seq<Call>, world: World)
    requires NoQuit(events)
    ensures var (sh, emitted) := Session(fit, Booted(saved), events);
            var (sh', effects) := OnCommand(sh, Quit, world);
            Replay({}, emitted + effects) == Some(Raised(sh'))
  {
    hide Replay, Inv;
    SessionsAreSound(fit, saved, events);
    var (sh, emitted) := Session(fit, Booted(saved), events);
    QuitIsSound(sh, world);
    ReplayAppend({}, emitted, OnCommand(sh, Quit, world).1);
  }

  // ---- The emergency latch ----

  predicate Acknowledging(e: Call) {
    e.Commanded? && Actuating(e.c)
  }

  /** Behind a tripped watchdog no sample and no command but an acknowledging
      one starts a cap write or lowers the latch. */
  lemma {:induction false} LatchHolds(fit: StepTest.Fitter, sh: Shell, e: Call)
    requires Inv(sh) && sh.watchdog.tripped && !(e.Commanded? && e.c.Quit?)
    ensures var sh' := Next(fit, sh, e).0;
            if Acknowledging(e) then Acknowledged(sh, sh') else Uncapped(sh, sh') && sh'.watchdog.tripped
  {
    hide NoDuplicates, Respects, Uncapped, Replay, RemoveFlag, ReleaseToStock, Regulate, EmergencyRelease, AbortRunner, CalibSample;
    SameHardware(sh, sh);
    match e {
      case Commanded(c, world) =>
        AcknowledgeIsSound(sh, world.down);
        LeaveIsSound(sh, world);
      case Ticked(s, tick, world) =>
        if !world.down {
          var sh1 := sh.(idleWarned := sh.idleWarned && !sh.watchdog.IsQuiet());
          InvDependsOnLatch(sh, sh1);
          RegulateIsSound(sh1, s, tick, world);
          SameHardware(sh, sh1);
          UncappedChain(sh, sh1, Regulate(sh1, s, tick, world).0);
          assert sh.(watchdog := sh.watchdog) == sh;
        }
    }
  }

  /** From a watchdog release until the acknowledging command, over any
      samples and commands: no cap write starts, the latch and an emergency
      flag stay up, and the controller stays in a bare Monitor. */
  lemma {:induction false} NothingIsCappedUntilAcknowledged(fit: StepTest.Fitter, sh: Shell, events: seq<Call>)
    requires Inv(sh) && sh.watchdog.tripped && NoQuit(events)
    requires forall i :: 0 <= i < |events| ==> !Acknowledging(events[i])
    ensures var sh' := Session(fit, sh, events).0;
            && Inv(sh') && Uncapped(sh, sh')
            && sh'.watchdog.tripped && Alarmed(sh') && sh'.status.mode == Monitor && Bare(sh')
  {
    hide Next, NoDuplicates, Uncapped, Acknowledging;
    if events == [] {
      SameHardware(sh, sh);
    } else {
      var front, e := events[..|events| - 1], events[|events| - 1];
      NothingIsCappedUntilAcknowledged(fit, sh, front);
      var sh1 := Session(fit, sh, front).0;
      NextIsSound(fit, sh1, e);
      LatchHolds(fit, sh1, e);
      UncappedChain(sh, sh1, Next(fit, sh1, e).0);
    }
  }

  /** An actuating command took effect: its mode is entered, and a cap is in
      force exactly when its write could be made and was verified. */
  predicate Acted(sh: Shell, c: Command, world: World) {
    match c
    case SetAuto(_) => sh.status.mode == Auto
    case StartCalibration => sh.status.mode == Calibrating && !sh.fromAuto
    case SetCpuW(verified) =>
      var written := !world.down && world.hasCpu && verified.Some?;
      sh.status.mode == (if written then Manual else Monitor) && sh.status.cpuLimit == (if written then verified else None)
    case SetGpuMaxClock(applied) =>
      var written := !world.down && world.hasGpu && applied.Some?;
      sh.status.mode == (if written then Manual else Monitor) && sh.status.gpuMax == (if written then applied else None)
    case _ => false
  }

  /** The first actuating command after an emergency only acknowledges; the
      same command again takes effect. */
  lemma {:induction false} SecondPressActs(sh: Shell, c: Command, world: World)
    requires Inv(sh) && sh.watchdog.tripped && Actuating(c)
    ensures Acknowledged(sh, OnCommand(sh, c, world).0)
    ensures Acted(OnCommand(OnCommand(sh, c, world).0, c, world).0, c, world)
  {
    hide NoDuplicates, RemoveFlag, AddFlag, Replay, Uncapped, Alarmed;
    AcknowledgeIsSound(sh, false);
    var first := OnCommand(sh, c, world).0;
    match c {
      case SetAuto(_) =>
      case StartCalibration =>
      case SetCpuW(_) =>
      case SetGpuMaxClock(_) =>
      case ReleaseAll =>
      case SetFanTarget =>
      case SetFloors =>
      case DismissOutcome =>
      case AbortCalibration =>
      case Quit =>
    }
  }

  /** Once the shutdown flag is up no call of a session starts a cap write. */
  lemma {:induction false} FencedSessionsWriteNothing(fit: StepTest.Fitter, sh: Shell, events: seq<Call>)
    requires Inv(sh) && NoQuit(events)
    requires forall i :: 0 <= i < |events| ==> Down(events[i])
    ensures Inv(Session(fit, sh, events).0) && Uncapped(sh, Session(fit, sh, events).0)
  {
    hide Next, Inv, Uncapped, Replay;
    if events == [] {
      SameHardware(sh, sh);
    } else {
      var front, e := events[..|events| - 1], events[|events| - 1];
      FencedSessionsWriteNothing(fit, sh, front);
      var sh1 := Session(fit, sh, front).0;
      NextIsSound(fit, sh1, e);
      UncappedChain(sh, sh1, Next(fit, sh1, e).0);
    }
  }
}
