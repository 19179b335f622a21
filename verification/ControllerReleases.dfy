/** What every release leaves on the hardware, and what whole sessions keep
    between the status and the last operation on each part. */
module ControllerReleases {
  import opened Prelude
  import opened Controller
  import opened ControllerProofs
  import opened ControllerSessions
  import opened ControllerSteps
  import opened ControllerHardware
  import StepTest
  import V = Verdicts

  // ---- What every release leaves ----

  /** Releasing by command, or by leaving Auto: both devices end at stock and
      the release is told first. */
  lemma {:induction false} ReleaseCommandsRestore(sh: Shell, c: Command, world: World)
    requires (c.ReleaseAll? && sh.status.mode != Calibrating) || (c == SetAuto(false) && sh.status.mode == Auto)
    ensures var (sh', effects) := OnCommand(sh, c, world);
            && (world.hasCpu ==> LastOn(Processor, sh'.hardware) == Some(StockCpu))
            && (world.hasGpu ==> LastOn(Card, sh'.hardware) == Some(StockGpu))
            && sh'.status.cpuLimit.None? && sh'.status.gpuMax.None?
            && effects != [] && effects[0] == Released
  {
    hide LastOn, ReleaseToStock, Follows;
    LeavingRestores(Processor, sh, world);
    LeavingRestores(Card, sh, world);
  }

  /** A tripping sample puts both devices back exactly when anything is
      commanded, stopping a burner on the way; otherwise it re-arms. */
  lemma {:induction false} TripsRestore(fit: StepTest.Fitter, sh: Shell, s: Sample, tick: Tick, world: World)
    requires Inv(sh) && !world.down && Observe(sh.watchdog, s).1 != NoTrip
    ensures var (sh', effects) := OnSample(fit, sh, s, tick, world);
            if sh.status.mode != Monitor || sh.status.cpuLimit.Some? || sh.status.gpuMax.Some? then
              && (world.hasCpu ==> LastOn(Processor, sh'.hardware) == Some(StockCpu))
              && (world.hasGpu ==> LastOn(Card, sh'.hardware) == Some(StockGpu))
              && sh'.status.cpuLimit.None? && sh'.status.gpuMax.None?
              && (sh.burner ==> !sh'.burner && LastOn(Heater, sh'.hardware) == Some(Burner(false)))
              && effects != [] && effects[0] == Released && sh'.status.mode == Monitor && sh'.watchdog.tripped
            else sh'.watchdog == ARMED
  {
    hide LastOn, Observe, Proceed, EmergencyRelease, AbortRunner, Follows, Works, Untouched, NoDuplicates;
    var (watchdog, trip) := Observe(sh.watchdog, s);
    var sh1 := sh.(watchdog := watchdog);
    if AnythingCommanded(sh) {
      TrippedSample(fit, sh, s, tick, world) by { hide TrippedOutcome; }
      assert AnythingCommanded(sh1);
      ReleasedSample(Processor, fit, sh, s, tick, world);
      ReleasedSample(Card, fit, sh, s, tick, world);
      BurnerStopped(fit, sh, s, tick, world);
    } else {
      var sh2 := sh1.(idleWarned := true, watchdog := ARMED);
      InvOwned(sh);
      ProceedKeepsWatchdog(fit, sh2, s, tick, world);
    }
  }

  lemma {:induction false} ReleasedSample(p: Part, fit: StepTest.Fitter, sh: Shell, s: Sample, tick: Tick, world: World)
    requires !world.down && Observe(sh.watchdog, s).1 != NoTrip && AnythingCommanded(sh)
    ensures var (sh', effects) := OnSample(fit, sh, s, tick, world);
            Follows(p, world, sh, sh') && (p != Heater ==> AtStock(p, sh', world)) && effects != [] && effects[0] == Released
  {
    hide LastOn, Observe, Proceed, EmergencyRelease, AbortRunner, Follows, AtStock, Works, Untouched;
    var (watchdog, trip) := Observe(sh.watchdog, s);
    var sh1 := sh.(watchdog := watchdog);
    assert AnythingCommanded(sh1);
    SameStatusUntouched(p, sh, sh1);
    UntouchedWorks(p, world, sh, sh1);
    if trip == Thermal && sh1.status.mode == Calibrating {
      AbortWorks(p, sh1, world);
      WorksChain(p, world, sh, sh1, AbortRunner(sh1, world));
      EmergencyRestores(p, sh, AbortRunner(sh1, world), Thermal, world);
    } else {
      EmergencyRestores(p, sh, sh1, trip, world);
    }
  }

  lemma {:induction false} BurnerStopped(fit: StepTest.Fitter, sh: Shell, s: Sample, tick: Tick, world: World)
    requires Inv(sh) && !world.down && Observe(sh.watchdog, s).1 != NoTrip && AnythingCommanded(sh)
    ensures var sh' := OnSample(fit, sh, s, tick, world).0;
            sh.burner ==> !sh'.burner && LastOn(Heater, sh'.hardware) == Some(Burner(false))
  {
    hide LastOn, Observe, OnSample, NoDuplicates, Inv, Sound;
    SampleIsSound(fit, sh, s, tick, world);
    SoundKeepsInv(world.down, sh, OnSample(fit, sh, s, tick, world));
    InvOwned(OnSample(fit, sh, s, tick, world).0);
    TrippedSample(fit, sh, s, tick, world);
    ReleasedSample(Heater, fit, sh, s, tick, world);
  }

  lemma {:induction false} ProceedKeepsWatchdog(fit: StepTest.Fitter, sh: Shell, s: Sample, tick: Tick, world: World)
    requires NoDuplicates(sh.status.flags) && sh.status.mode == Monitor
    ensures Proceed(fit, sh, s, tick, world).0.watchdog == sh.watchdog
  {
    hide NoDuplicates, Respects, Resume, AutoSample, Stickiness, Periodic;
    RegulatedRespects({}, sh, s, tick, world);
    WatchdogKept({}, world.down, sh, Regulated(sh, s, tick, world));
    assert Regulate(sh, s, tick, world).0 == Regulated(sh, s, tick, world).(pending := []);
  }

  /** The sample on which the target is released ends with both devices at
      stock, and tells the release first. */
  lemma {:induction false} DisengagedSampleRestores(fit: StepTest.Fitter, sh: Shell, s: Sample, tick: Tick, world: World)
    requires Inv(sh) && Serviced(sh, s, world) && sh.status.mode == Auto && !sh.hold && tick.auto.engagement == Disengaged(true)
    ensures var (sh', effects) := OnSample(fit, sh, s, tick, world);
            && (world.hasCpu ==> LastOn(Processor, sh'.hardware) == Some(StockCpu))
            && (world.hasGpu ==> LastOn(Card, sh'.hardware) == Some(StockGpu))
            && sh'.status.cpuLimit.None? && sh'.status.gpuMax.None?
            && effects != [] && effects[0] == Released
  {
    hide LastOn, Observe, Resume, AutoSample, Stickiness, Periodic, NoDuplicates, Follows, Respects;
    InvOwned(sh);
    var sh1 := Watched(sh, s);
    RegulatedFollows(Processor, sh1, s, tick, world);
    RegulatedFollows(Card, sh1, s, tick, world);
    ResumeKeepsMode({}, sh1, s, tick.onResume, world);
    assert Regulate(sh1, s, tick, world) == Drain(Regulated(sh1, s, tick, world), [Released]);
  }

  lemma {:induction false} QuitRestores(sh: Shell, world: World)
    ensures var sh' := OnCommand(sh, Quit, world).0;
            LastOn(Processor, sh'.hardware) == Some(RestoreAll) && LastOn(Card, sh'.hardware) == Some(RestoreAll)
  {
    hide LastOn, AbortCalib;
    var sh1 := ExitAuto(AbortCalib(sh, world));
    IssueMoves(Processor, sh1, RestoreAll);
    IssueMoves(Card, sh1, RestoreAll);
  }

  /** A third unexcused mismatch in the loops ends the sample with that device
      at stock, whatever the rest of the sample does. */
  lemma {:induction false} VerdictReleasesRestore(fit: StepTest.Fitter, sh: Shell, s: Sample, tick: Tick, world: World)
    requires Inv(sh) && Serviced(sh, s, world) && sh.status.mode == Auto && !sh.hold && !s.resumed && tick.auto.engagement == Engaged
    ensures var sh' := OnSample(fit, sh, s, tick, world).0;
            var (cpu, seen) := (tick.auto.cpu, tick.auto.gpuSeen);
            && (world.hasCpu && cpu.Some? && ThirdStrike(sh.auto.value.cpu, cpu.value.verdict, cpu.value.suppress) ==>
                  LastOn(Processor, sh'.hardware) == Some(StockCpu) && sh'.status.cpuLimit.None?)
            && (world.hasGpu && seen.Some? && ThirdStrike(sh.auto.value.gpu, seen.value.verdict, seen.value.suppress) ==>
                  LastOn(Card, sh'.hardware) == Some(StockGpu) && sh'.status.gpuMax.None?)
  {
    hide LastOn, Observe, Resume, AutoSample, Stickiness, Periodic, NoDuplicates, Respects, ThirdStrike, AtStock, Tends;
    InvOwned(sh);
    var sh1 := Watched(sh, s);
    var sh2 := Resume(sh1, s, tick.onResume, world);
    UnresumedKeeps(sh1, s, tick.onResume, world);
    StruckLoopsRestore(sh2, tick.auto, world);
    ResumeKeepsMode({}, sh1, s, tick.onResume, world);
    var sh3 := AutoSample(sh2, tick.auto, world);
    WatchesKeepStock(Processor, sh3, s, tick, world);
    WatchesKeepStock(Card, sh3, s, tick, world);
    AtStockMeaning(OnSample(fit, sh, s, tick, world).0, world);
    assert Regulate(sh1, s, tick, world).0 == Regulated(sh1, s, tick, world).(pending := []);
  }

  lemma {:induction false} AtStockMeaning(sh: Shell, world: World)
    ensures AtStock(Processor, sh, world) && world.hasCpu ==> LastOn(Processor, sh.hardware) == Some(StockCpu) && sh.status.cpuLimit.None?
    ensures AtStock(Card, sh, world) && world.hasGpu ==> LastOn(Card, sh.hardware) == Some(StockGpu) && sh.status.gpuMax.None?
  {
    hide LastOn;
  }

  lemma {:induction false} UnresumedKeeps(sh: Shell, s: Sample, m: Maintenance, world: World)
    requires !s.resumed
    ensures Resume(sh, s, m, world).auto == sh.auto
  {
    hide Without;
  }

  lemma {:induction false} WatchesKeepStock(p: Part, sh: Shell, s: Sample, tick: Tick, world: World)
    ensures var sh' := Periodic(Stickiness(sh, s, tick.onStick, world), s, tick.periodic, world).(pending := []);
            AtStock(p, sh, world) ==> AtStock(p, sh', world)
  {
    hide LastOn, Stickiness, Periodic, Tends, AtStock;
    var sh1 := Stickiness(sh, s, tick.onStick, world);
    var sh2 := Periodic(sh1, s, tick.periodic, world);
    StickinessTends(p, sh, s, tick.onStick, world);
    PeriodicTends(p, sh1, s, tick.periodic, world);
    TendsChain(p, world, sh, sh1, sh2);
    if AtStock(p, sh, world) {
      StockLasts(p, world, sh, sh2);
      SameStatusUntouched(p, sh2, sh2.(pending := []));
      StillAtStock(p, world, sh2, sh2.(pending := []));
    }
  }

  lemma {:induction false} UpdatesKeepAuto(sh: Shell, updates: seq<FlagUpdate>)
    ensures SyncAll(sh, updates).auto == sh.auto
  {
    hide Without;
    if updates != [] {
      UpdatesKeepAuto(sh, updates[..|updates| - 1]);
    }
  }

  lemma {:induction false} CpuScoreKeepsGpuCounter(sh: Shell, verdict: V.Verdict, suppress: bool)
    requires sh.auto.Some?
    ensures var sh' := ScoreCpu(sh, verdict, suppress); sh'.auto.Some? && sh'.auto.value.gpu == sh.auto.value.gpu
  {
    hide V.Score, SyncVerdicts;
    var (counter, outcome) := V.Score(sh.auto.value.cpu, verdict, suppress);
    var sh1 := sh.(auto := Some(sh.auto.value.(cpu := counter)));
    VerdictsKeepMachine(if outcome == V.Released then WithCpu(Issue(sh1, StockCpu), None) else sh1);
  }

  lemma {:induction false} CpuWriteKeepsGpuCounter(sh: Shell, try: Option<CpuTry>, world: World)
    requires sh.auto.Some?
    ensures AutoCpu(sh, try, world).auto.Some? && AutoCpu(sh, try, world).auto.value.gpu == sh.auto.value.gpu
  {
    hide ScoreCpu;
    if try.Some? {
      var sh1 := Issue(sh, CapCpu);
      var sh2 := if try.value.retried then Issue(sh1, CapCpu) else sh1;
      CpuScoreKeepsGpuCounter(if try.value.verdict == V.Verified then WithCpu(sh2, Some(try.value.value)) else sh2,
                              try.value.verdict, try.value.suppress);
    }
  }

  lemma {:induction false} StruckLoopsRestore(sh: Shell, a: AutoTick, world: World)
    requires sh.auto.Some? && a.engagement == Engaged && !world.down
    ensures var sh' := AutoSample(sh, a, world);
            && (world.hasCpu && a.cpu.Some? && ThirdStrike(sh.auto.value.cpu, a.cpu.value.verdict, a.cpu.value.suppress) ==>
                  AtStock(Processor, sh', world))
            && (a.gpuSeen.Some? && ThirdStrike(sh.auto.value.gpu, a.gpuSeen.value.verdict, a.gpuSeen.value.suppress) ==>
                  AtStock(Card, sh', world))
  {
    hide LastOn, SyncAll, AutoCpu, AutoGpu, ThirdStrike, AtStock;
    var sh1 := SyncAll(sh, a.flags);
    UpdatesKeepAuto(sh, a.flags);
    var sh2 := AutoCpu(sh1, a.cpu, world);
    CpuWriteKeepsGpuCounter(sh1, a.cpu, world);
    StruckCpuRestores(sh1, a.cpu, world);
    StruckGpuRestores(sh2, a, world);
    GpuWriteFollows(sh2, a, world);
    if AtStock(Processor, sh2, world) {
      StillAtStock(Processor, world, sh2, AutoGpu(sh2, a, world));
    }
  }

  lemma {:induction false} StruckCpuRestores(sh: Shell, try: Option<CpuTry>, world: World)
    requires sh.auto.Some? && !world.down
    ensures world.hasCpu && try.Some? && ThirdStrike(sh.auto.value.cpu, try.value.verdict, try.value.suppress) ==>
              AtStock(Processor, AutoCpu(sh, try, world), world)
  {
    hide LastOn, ScoreCpu, V.Score, ThirdStrike;
    if try.Some? {
      var sh1 := Issue(sh, CapCpu);
      var sh2 := if try.value.retried then Issue(sh1, CapCpu) else sh1;
      ReleasedByThirdStrike(sh.auto.value.cpu, try.value.verdict, try.value.suppress);
      CpuVerdictRestores(if try.value.verdict == V.Verified then WithCpu(sh2, Some(try.value.value)) else sh2,
                         try.value.verdict, try.value.suppress);
    }
  }

  lemma {:induction false} StruckGpuRestores(sh: Shell, a: AutoTick, world: World)
    requires sh.auto.Some?
    ensures a.gpuSeen.Some? && ThirdStrike(sh.auto.value.gpu, a.gpuSeen.value.verdict, a.gpuSeen.value.suppress) ==>
              AtStock(Card, AutoGpu(sh, a, world), world)
  {
    hide LastOn, ScoreGpu, V.Score, ThirdStrike, AtStock;
    if a.gpuSeen.Some? {
      ReleasedByThirdStrike(sh.auto.value.gpu, a.gpuSeen.value.verdict, a.gpuSeen.value.suppress);
      GpuVerdictRestores(sh, a.gpuSeen.value, world);
    }
  }

  // ---- Whole sessions ----

  function WorldOf(e: Call): World {
    match e case Commanded(_, world) => world case Ticked(_, _, world) => world
  }

  /** In one call, a limit that stops being in force, or a burner that stops
      running, was put back by that part's last operation. */
  lemma {:induction false} LostLimitsAreAtStock(p: Part, fit: StepTest.Fitter, sh: Shell, e: Call)
    requires !(e.Commanded? && e.c.Quit?)
    ensures var sh' := Next(fit, sh, e).0;
            InForce(p, sh) && !InForce(p, sh') && Present(p, WorldOf(e)) ==> LastOn(p, sh'.hardware) == Some(Stocked(p))
    ensures Follows(p, WorldOf(e), sh, Next(fit, sh, e).0)
  {
    hide LastOn, OnCommand, OnSample;
    match e {
      case Commanded(c, world) => CommandFollows(p, sh, c, world);
      case Ticked(s, tick, world) => SampleFollows(p, fit, sh, s, tick, world);
    }
  }

  /** Over every session the status is honest about the hardware: a limit in
      force is the last thing that was done to its device, and the burner runs
      exactly when it was started and not stopped since. */
  lemma {:induction false} LimitsInForceAreOnTheHardware(fit: StepTest.Fitter, saved: Saved, events: seq<Call>)
    requires NoQuit(events)
    ensures var sh := Session(fit, Booted(saved), events).0;
            && (sh.status.cpuLimit.Some? ==> LastOn(Processor, sh.hardware) == Some(CapCpu))
            && (sh.status.gpuMax.Some? ==> LastOn(Card, sh.hardware) == Some(CapGpu))
            && (sh.burner <==> LastOn(Heater, sh.hardware) == Some(Burner(true)))
  {
    hide Session;
    SessionsBacked(Processor, fit, saved, events);
    SessionsBacked(Card, fit, saved, events);
    SessionsBacked(Heater, fit, saved, events);
  }

  lemma {:induction false} SessionsBacked(p: Part, fit: StepTest.Fitter, saved: Saved, events: seq<Call>)
    requires NoQuit(events)
    ensures Backed(p, Session(fit, Booted(saved), events).0)
  {
    hide Next;
    if events != [] {
      var front, e := events[..|events| - 1], events[|events| - 1];
      SessionsBacked(p, fit, saved, front);
      LostLimitsAreAtStock(p, fit, Session(fit, Booted(saved), front).0, e);
    }
  }

  lemma {:induction false} UncappedNeverDrives(p: Part, sh: Shell, sh': Shell)
    requires Uncapped(sh, sh') && p != Heater && LastOn(p, sh.hardware) != Some(Driven(p))
    ensures LastOn(p, sh'.hardware) != Some(Driven(p))
    decreases |sh'.hardware|
  {
    var n := |sh'.hardware|;
    if n > |sh.hardware| && !Moves(p, sh'.hardware[n - 1]) {
      UncappedNeverDrives(p, sh, sh'.(hardware := sh'.hardware[..n - 1]));
    } else if n == |sh.hardware| {
      assert sh'.hardware == sh.hardware;
    }
  }

  /** After an emergency release, over any samples and commands until one
      acknowledges it, neither device is driven. */
  lemma {:induction false} ReleasedStaysReleased(fit: StepTest.Fitter, sh: Shell, s: Sample, tick: Tick, world: World, events: seq<Call>)
    requires Inv(sh) && !world.down && Observe(sh.watchdog, s).1 != NoTrip && AnythingCommanded(sh)
    requires world.hasCpu && world.hasGpu && NoQuit(events)
    requires forall i :: 0 <= i < |events| ==> !Acknowledging(events[i])
    ensures var sh' := Session(fit, OnSample(fit, sh, s, tick, world).0, events).0;
            LastOn(Processor, sh'.hardware) != Some(CapCpu) && LastOn(Card, sh'.hardware) != Some(CapGpu)
  {
    hide LastOn, OnSample, Observe, Inv, Session, Uncapped, Acknowledging, Bare, Sound;
    var sh1 := OnSample(fit, sh, s, tick, world).0;
    TripsRestore(fit, sh, s, tick, world);
    SampleIsSound(fit, sh, s, tick, world);
    SoundKeepsInv(world.down, sh, OnSample(fit, sh, s, tick, world));
    NothingIsCappedUntilAcknowledged(fit, sh1, events);
    UncappedNeverDrives(Processor, sh1, Session(fit, sh1, events).0);
    UncappedNeverDrives(Card, sh1, Session(fit, sh1, events).0);
  }
}
