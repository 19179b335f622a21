/** Two corners of the controller's sessions and exactly when they are met:
    limits left in Monitor, and a re-entry hold that outlives its session. */
module ControllerFindings {
  import opened Prelude
  import opened Controller
  import opened ControllerProofs
  import opened ControllerSessions
  import opened ControllerSteps
  import opened Runner
  import StepTest
  import G = GpuVerify
  import V = Verdicts

  // ---- When Monitor stops meaning stock limits ----

  /** A run that began in Monitor ends without a trip: it is aborted, or its
      runner finishes on a serviced sample. */
  predicate EndsMonitorRun(fit: StepTest.Fitter, sh: Shell, e: Call) {
    && sh.status.mode == Calibrating && !sh.fromAuto && sh.calib.Some?
    && match e
       case Commanded(c, world) => c.AbortCalibration?
       case Ticked(s, tick, world) => Serviced(sh, s, world) && Taken(fit, sh, s, tick, world).0.finished
  }

  /** A cap was commanded before the run's last batch, or that batch has a
      verified cap write. */
  predicate CapInForce(fit: StepTest.Fitter, sh: Shell, e: Call) {
    || !Bare(sh)
    || (sh.calib.Some?
        && match e
           case Commanded(_, world) => CapAnswered(OnAbort(sh.calib.value).1, world)
           case Ticked(s, tick, world) => CapAnswered(Taken(fit, sh, s, tick, world).1, world))
  }

  /** The step at which Monitor stops meaning stock limits is exactly the end,
      without a trip, of a run that began in Monitor with a cap in force. */
  lemma {:induction false} MonitorStopsBeingStock(fit: StepTest.Fitter, sh: Shell, e: Call)
    requires Inv(sh) && MonitorIsStock(sh) && !(e.Commanded? && e.c.Quit?)
    ensures !MonitorIsStock(Next(fit, sh, e).0) <==> EndsMonitorRun(fit, sh, e) && CapInForce(fit, sh, e)
  {
    hide Inv, OnCommand, OnSample, CapAnswered, Serviced, Taken, OnAbort;
    InvOwned(sh);
    match e {
      case Commanded(c, world) =>
        if sh.status.mode == Calibrating {
          BusyCommand(sh, c, world);
        } else {
          IdleCommand(sh, c, world);
        }
      case Ticked(s, tick, world) =>
        if world.down {
          FencedSample(fit, sh, s, tick, world);
        } else if !Serviced(sh, s, world) {
          TrippedSample(fit, sh, s, tick, world);
        } else if sh.status.mode == Calibrating {
          BusySample(fit, sh, s, tick, world);
        } else {
          QuietSample(fit, sh, s, tick, world);
        }
    }
  }

  function StateAt(fit: StepTest.Fitter, saved: Saved, calls: seq<Call>, i: nat): Shell
    requires i <= |calls|
  {
    Session(fit, Booted(saved), calls[..i]).0
  }

  lemma {:induction false} StateAfter(fit: StepTest.Fitter, saved: Saved, calls: seq<Call>, i: nat)
    requires i < |calls|
    ensures StateAt(fit, saved, calls, i + 1) == Next(fit, StateAt(fit, saved, calls, i), calls[i]).0
  {
    hide Next;
    assert calls[..i + 1][..i] == calls[..i];
  }

  lemma {:induction false} StateIsSound(fit: StepTest.Fitter, saved: Saved, calls: seq<Call>, i: nat)
    requires NoQuit(calls) && i <= |calls|
    ensures Inv(StateAt(fit, saved, calls, i))
  {
    hide Inv, Replay, Next;
    SessionsAreSound(fit, saved, calls[..i]);
  }

  ghost predicate StockThroughout(fit: StepTest.Fitter, saved: Saved, calls: seq<Call>, n: nat)
    requires n <= |calls|
  {
    forall i: nat | i <= n :: MonitorIsStock(StateAt(fit, saved, calls, i))
  }

  ghost predicate NeverLeavesCap(fit: StepTest.Fitter, saved: Saved, calls: seq<Call>, n: nat)
    requires n <= |calls|
  {
    forall i: nat | i < n :: !(EndsMonitorRun(fit, StateAt(fit, saved, calls, i), calls[i]) && CapInForce(fit, StateAt(fit, saved, calls, i), calls[i]))
  }

  /** Over any session: Monitor means stock limits at every return exactly when
      no run that began in Monitor ended, without a trip, with a cap in force. */
  lemma {:induction false} MonitorIsStockExactly(fit: StepTest.Fitter, saved: Saved, calls: seq<Call>, n: nat)
    requires NoQuit(calls) && n <= |calls|
    ensures StockThroughout(fit, saved, calls, n) <==> NeverLeavesCap(fit, saved, calls, n)
  {
    hide StateAt, EndsMonitorRun, CapInForce, MonitorIsStock;
    if n == 0 {
      StartIsStock(fit, saved, calls);
    } else {
      MonitorIsStockExactly(fit, saved, calls, n - 1);
      StateAfter(fit, saved, calls, n - 1);
      StateIsSound(fit, saved, calls, n - 1);
      if StockThroughout(fit, saved, calls, n - 1) {
        assert !(calls[n - 1].Commanded? && calls[n - 1].c.Quit?);
        MonitorStopsBeingStock(fit, StateAt(fit, saved, calls, n - 1), calls[n - 1]);
      }
    }
  }

  lemma {:induction false} StartIsStock(fit: StepTest.Fitter, saved: Saved, calls: seq<Call>)
    ensures MonitorIsStock(StateAt(fit, saved, calls, 0))
  {
    assert calls[..0] == [];
  }

  /** No calibration is started from an untripped Monitor. */
  ghost predicate StartsInAutoOnly(fit: StepTest.Fitter, saved: Saved, calls: seq<Call>) {
    forall i: nat | i < |calls| && calls[i].Commanded? && calls[i].c.StartCalibration? ::
      StateAt(fit, saved, calls, i).status.mode != Monitor || StateAt(fit, saved, calls, i).watchdog.tripped
  }

  /** A caller who starts calibrations in Auto only, whatever else happens,
      finds stock limits at every return in Monitor. */
  lemma {:induction false} AutoStartsKeepMonitorStock(fit: StepTest.Fitter, saved: Saved, calls: seq<Call>, n: nat)
    requires NoQuit(calls) && StartsInAutoOnly(fit, saved, calls) && n <= |calls|
    ensures MonitorIsStock(StateAt(fit, saved, calls, n))
    ensures StateAt(fit, saved, calls, n).status.mode == Calibrating ==> StateAt(fit, saved, calls, n).fromAuto
  {
    hide StateAt, MonitorIsStock, Inv, Next;
    if n == 0 {
      StartIsStock(fit, saved, calls);
      StartIsIdle(fit, saved, calls);
    } else {
      AutoStartsKeepMonitorStock(fit, saved, calls, n - 1);
      StateAfter(fit, saved, calls, n - 1);
      StateIsSound(fit, saved, calls, n - 1);
      assert !(calls[n - 1].Commanded? && calls[n - 1].c.Quit?);
      AutoStartStep(fit, StateAt(fit, saved, calls, n - 1), calls[n - 1]);
    }
  }

  lemma {:induction false} AutoStartStep(fit: StepTest.Fitter, sh: Shell, e: Call)
    requires Inv(sh) && MonitorIsStock(sh) && !(e.Commanded? && e.c.Quit?)
    requires sh.status.mode == Calibrating ==> sh.fromAuto
    requires e.Commanded? && e.c.StartCalibration? ==> sh.status.mode != Monitor || sh.watchdog.tripped
    ensures MonitorIsStock(Next(fit, sh, e).0)
    ensures Next(fit, sh, e).0.status.mode == Calibrating ==> Next(fit, sh, e).0.fromAuto
  {
    hide Next, MonitorIsStock, CapInForce, Inv, Serviced, Taken;
    MonitorStopsBeingStock(fit, sh, e);
    OriginKept(fit, sh, e);
  }

  lemma {:induction false} StartIsIdle(fit: StepTest.Fitter, saved: Saved, calls: seq<Call>)
    ensures StateAt(fit, saved, calls, 0) == Booted(saved)
  {
    assert calls[..0] == [];
  }

  lemma {:induction false} OriginKept(fit: StepTest.Fitter, sh: Shell, e: Call)
    requires Inv(sh) && !(e.Commanded? && e.c.Quit?)
    requires sh.status.mode == Calibrating ==> sh.fromAuto
    requires e.Commanded? && e.c.StartCalibration? ==> sh.status.mode != Monitor || sh.watchdog.tripped
    ensures Next(fit, sh, e).0.status.mode == Calibrating ==> Next(fit, sh, e).0.fromAuto
  {
    hide Inv, OnCommand, OnSample, CapAnswered, Serviced, Taken, OnAbort;
    match e {
      case Commanded(c, world) =>
        if sh.status.mode == Calibrating {
          BusyCommand(sh, c, world);
        } else {
          IdleCommand(sh, c, world);
        }
      case Ticked(s, tick, world) =>
        if world.down {
          FencedSample(fit, sh, s, tick, world);
        } else if !Serviced(sh, s, world) {
          TrippedSample(fit, sh, s, tick, world);
        } else if sh.status.mode == Calibrating {
          BusySample(fit, sh, s, tick, world);
        } else {
          QuietSample(fit, sh, s, tick, world);
        }
    }
  }

  // ---- When the hold is up ----

  /** The call ends a calibration, by its runner, an abort or a trip. */
  predicate EndsRun(fit: StepTest.Fitter, sh: Shell, e: Call) {
    && sh.status.mode == Calibrating && sh.calib.Some?
    && match e
       case Commanded(c, world) => c.AbortCalibration?
       case Ticked(s, tick, world) => !world.down && (!Serviced(sh, s, world) || Taken(fit, sh, s, tick, world).0.finished)
  }

  /** The call services an Auto sample, starts a calibration, or ends one that
      began in Monitor. */
  predicate ClearsHold(fit: StepTest.Fitter, sh: Shell, e: Call) {
    || (match e
        case Commanded(c, _) => ControllerSteps.Starts(sh, c)
        case Ticked(s, _, world) => sh.status.mode == Auto && Serviced(sh, s, world))
    || (EndsRun(fit, sh, e) && !sh.fromAuto)
  }

  lemma {:induction false} HoldStep(fit: StepTest.Fitter, sh: Shell, e: Call)
    requires Inv(sh) && !(e.Commanded? && e.c.Quit?)
    ensures Next(fit, sh, e).0.hold <==> (EndsRun(fit, sh, e) && sh.fromAuto) || (sh.hold && !ClearsHold(fit, sh, e))
  {
    hide Inv, OnCommand, OnSample, CapAnswered, Serviced, Taken, OnAbort, MonitorIsStock, Bare;
    InvOwned(sh);
    match e {
      case Commanded(c, world) =>
        if sh.status.mode == Calibrating {
          BusyCommand(sh, c, world);
        } else {
          IdleCommand(sh, c, world);
        }
      case Ticked(s, tick, world) =>
        if world.down {
          FencedSample(fit, sh, s, tick, world);
        } else if !Serviced(sh, s, world) {
          TrippedSample(fit, sh, s, tick, world);
        } else if sh.status.mode == Calibrating {
          BusySample(fit, sh, s, tick, world);
        } else {
          QuietSample(fit, sh, s, tick, world);
        }
    }
  }

  /** Call i ended a calibration begun in Auto, and none of the later calls up
      to n cleared the hold. */
  ghost predicate HeldSince(fit: StepTest.Fitter, saved: Saved, calls: seq<Call>, n: nat, i: nat)
    requires n <= |calls|
  {
    && i < n
    && EndsRun(fit, StateAt(fit, saved, calls, i), calls[i]) && StateAt(fit, saved, calls, i).fromAuto
    && forall j: nat | i < j < n :: !ClearsHold(fit, StateAt(fit, saved, calls, j), calls[j])
  }

  /** Over any session the hold is up exactly when a calibration begun in Auto
      ended, emergency ends included, and since then no Auto sample was
      serviced, no calibration was started and none begun in Monitor ended. */
  lemma {:induction false} HoldIsHistory(fit: StepTest.Fitter, saved: Saved, calls: seq<Call>, n: nat)
    requires NoQuit(calls) && n <= |calls|
    ensures StateAt(fit, saved, calls, n).hold <==> exists i: nat :: HeldSince(fit, saved, calls, n, i)
  {
    hide StateAt, EndsRun, ClearsHold, Inv;
    if n == 0 {
      StartIsIdle(fit, saved, calls);
    } else {
      var m := n - 1;
      HoldIsHistory(fit, saved, calls, m);
      StateAfter(fit, saved, calls, m);
      StateIsSound(fit, saved, calls, m);
      HoldStep(fit, StateAt(fit, saved, calls, m), calls[m]);
      HeldLater(fit, saved, calls, m, n);
    }
  }

  lemma {:induction false} HeldLater(fit: StepTest.Fitter, saved: Saved, calls: seq<Call>, m: nat, n: nat)
    requires n == m + 1 <= |calls|
    ensures var sh, e := StateAt(fit, saved, calls, m), calls[m];
            (exists i: nat :: HeldSince(fit, saved, calls, n, i)) <==>
              || (EndsRun(fit, sh, e) && sh.fromAuto)
              || ((exists i: nat :: HeldSince(fit, saved, calls, m, i)) && !ClearsHold(fit, sh, e))
  {
    hide StateAt, EndsRun, ClearsHold;
    var sh, e := StateAt(fit, saved, calls, m), calls[m];
    if EndsRun(fit, sh, e) && sh.fromAuto {
      assert HeldSince(fit, saved, calls, n, m);
    }
    if i: nat :| HeldSince(fit, saved, calls, m, i) {
      if !ClearsHold(fit, sh, e) {
        assert HeldSince(fit, saved, calls, n, i);
      }
    }
    if i: nat :| HeldSince(fit, saved, calls, n, i) {
      if i < m {
        assert HeldSince(fit, saved, calls, m, i);
      }
    }
  }

  // ---- What the hold does to the next Auto session ----

  /** The sample acts on nothing, whatever the loops decide. */
  ghost predicate Swallowed(fit: StepTest.Fitter, sh: Shell, s: Sample, world: World) {
    forall tick :: SwallowedWith(fit, sh, s, tick, world)
  }

  predicate SwallowedWith(fit: StepTest.Fitter, sh: Shell, s: Sample, tick: Tick, world: World) {
    var (sh', effects) := OnSample(fit, sh, s, tick, world);
    effects == [] && sh'.status == sh.status && sh'.hardware == sh.hardware && sh'.timers == sh.timers && sh'.auto == sh.auto
  }

  /** After entering Auto from an untripped Monitor or Manual, the first
      serviced sample is swallowed exactly when the hold was up before. */
  lemma {:induction false} FirstSampleSwallowedExactlyWhenHeld(fit: StepTest.Fitter, sh: Shell, entry: World, s: Sample, world: World)
    requires Inv(sh) && !sh.watchdog.tripped && sh.status.mode != Auto && sh.status.mode != Calibrating
    requires !world.down && Observe(sh.watchdog, s).1 == NoTrip
    ensures Swallowed(fit, OnCommand(sh, SetAuto(true), entry).0, s, world) <==> sh.hold
  {
    hide Inv, NoDuplicates, SwallowedWith, Observe, OnSample;
    InvOwned(sh);
    EntryKeeps(sh, entry);
    CommandIsSound(sh, SetAuto(true), entry);
    SoundKeepsInv(entry.down, sh, OnCommand(sh, SetAuto(true), entry));
    var entered := OnCommand(sh, SetAuto(true), entry).0;
    if sh.hold {
      forall tick ensures SwallowedWith(fit, entered, s, tick, world) {
        HeldSampleSwallowed(fit, entered, s, tick, world);
      }
    } else {
      var on := GpuHot !in entered.status.flags;
      UnheldSampleActs(fit, entered, s, on, world);
      assert !SwallowedWith(fit, entered, s, HotTick(on), world);
    }
  }

  lemma {:induction false} EntryKeeps(sh: Shell, entry: World)
    requires Inv(sh) && !sh.watchdog.tripped && sh.status.mode != Auto && sh.status.mode != Calibrating
    ensures var entered := OnCommand(sh, SetAuto(true), entry).0;
            entered.status.mode == Auto && entered.hold == sh.hold && entered.watchdog == sh.watchdog
  {
    hide NoDuplicates;
  }

  lemma {:induction false} HeldSampleSwallowed(fit: StepTest.Fitter, sh: Shell, s: Sample, tick: Tick, world: World)
    requires sh.status.mode == Auto && sh.hold && !world.down && Observe(sh.watchdog, s).1 == NoTrip
    ensures SwallowedWith(fit, sh, s, tick, world)
  {
    hide Observe, Regulate, CalibSample;
  }

  const IDLE := Maintenance(false, V.Verified, false)
  const SENSE := Sense(Some(Finite(2400.0)), None, Some(Finite(50.0)), Some(Finite(55.0)), false, true, true, Some("quiet16"), Some(60), 0.0, None)
  const CHECK := CapCheck(V.Verified, V.Verified, 0.0)
  const LIMITS := Limits(8.0, 1000, 80.0, 3090, 90.0, 88.0)

  /** A tick whose loops only sync one flag. */
  function HotTick(on: bool): Tick {
    Tick(SENSE, CHECK, LIMITS, AutoTick([FlagUpdate(GpuHot, on)], Engaged, None, None, false, None), IDLE, IDLE, IDLE)
  }

  predicate SameOn(f: Flag, sh: Shell, sh': Shell) {
    f in sh'.status.flags <==> f in sh.status.flags
  }

  lemma {:induction false} VerdictFlagsOnly(sh: Shell)
    requires NoDuplicates(sh.status.flags)
    ensures SameOn(GpuHot, sh, SyncVerdicts(sh))
  {
    hide AddFlag, RemoveFlag, NoDuplicates, V.Counter.InEpisode;
    AddTraces({}, sh, LimitNotSticking);
    AddKeepsDistinct(sh, LimitNotSticking);
    var sh1 := AddFlag(sh, LimitNotSticking);
    AddTraces({}, sh1, ReadbackBlind);
    RemoveTraces({}, sh1, ReadbackBlind);
    AddTraces({}, sh, ReadbackBlind);
    RemoveTraces({}, sh, ReadbackBlind);
  }

  lemma {:induction false} ScoreFlagsOnly(sh: Shell, verdict: V.Verdict, suppress: bool)
    requires NoDuplicates(sh.status.flags)
    ensures SameOn(GpuHot, sh, ScoreCpu(sh, verdict, suppress))
  {
    hide V.Score, NoDuplicates, SyncVerdicts;
    if sh.auto.Some? {
      var (counter, outcome) := V.Score(sh.auto.value.cpu, verdict, suppress);
      var sh1 := sh.(auto := Some(sh.auto.value.(cpu := counter)));
      VerdictFlagsOnly(if outcome == V.Released then WithCpu(Issue(sh1, StockCpu), None) else sh1);
    }
  }

  lemma {:induction false} ReassertFlagsOnly(sh: Shell, m: Maintenance, world: World)
    requires NoDuplicates(sh.status.flags)
    ensures SameOn(GpuHot, sh, Reassert(sh, m, world))
  {
    hide ScoreCpu, NoDuplicates;
    ScoreFlagsOnly(if m.repaired then Issue(sh, CapCpu) else sh, m.verdict, m.suppress);
  }

  lemma {:induction false} OneFlagOnly(sh: Shell, f: Flag)
    requires NoDuplicates(sh.status.flags) && f != GpuHot
    ensures SameOn(GpuHot, sh, AddFlag(sh, f)) && SameOn(GpuHot, sh, RemoveFlag(sh, f))
  {
    hide AddFlag, RemoveFlag, NoDuplicates;
    AddTraces({}, sh, f);
    RemoveTraces({}, sh, f);
  }

  lemma {:induction false} StickinessFlagsOnly(sh: Shell, s: Sample, m: Maintenance, world: World)
    requires NoDuplicates(sh.status.flags)
    ensures SameOn(GpuHot, sh, Stickiness(sh, s, m, world))
  {
    hide AddFlag, RemoveFlag, Reassert, Attempted, NoDuplicates, InTrouble, NeededStreak, Routine;
    var sh1 := sh.(timers := sh.timers.(stick := 0));
    OneFlagOnly(sh1, LimitNotSticking);
    ReassertFlagsOnly(sh1, m, world);
    ReassertRoutine({}, sh1, m, world);
    RoutineKeepsDistinct({}, world.down, sh1, Reassert(sh1, m, world));
    var sh2 := Reassert(sh1, m, world);
    OneFlagOnly(if Attempted(sh1, m, world) then sh2.(timers := sh2.timers.(lastReassert := Some(s.t))) else sh2, LimitNotSticking);
  }

  lemma {:induction false} PeriodicFlagsOnly(sh: Shell, s: Sample, m: Maintenance, world: World)
    requires NoDuplicates(sh.status.flags)
    ensures SameOn(GpuHot, sh, Periodic(sh, s, m, world))
  {
    hide Reassert, NoDuplicates;
    ReassertFlagsOnly(sh.(timers := sh.timers.(lastReassert := Some(s.t))), m, world);
  }

  lemma {:induction false} HotTickSyncs(sh: Shell, on: bool, world: World)
    requires NoDuplicates(sh.status.flags)
    ensures var sh' := AutoSample(sh, HotTick(on).auto, world);
            sh' == SyncFlag(sh, GpuHot, on) && NoDuplicates(sh'.status.flags) && (GpuHot in sh'.status.flags <==> on)
  {
    hide AddFlag, RemoveFlag, NoDuplicates;
    var updates := [FlagUpdate(GpuHot, on)];
    assert updates[..0] == [];
    assert SyncAll(sh, updates) == SyncFlag(SyncAll(sh, updates[..0]), GpuHot, on);
    AddTraces({}, sh, GpuHot);
    AddKeepsDistinct(sh, GpuHot);
    RemoveTraces({}, sh, GpuHot);
  }

  lemma {:induction false} RegulateSyncs(sh: Shell, s: Sample, on: bool, world: World)
    requires NoDuplicates(sh.status.flags) && sh.status.mode == Auto
    ensures GpuHot in Regulate(sh, s, HotTick(on), world).0.status.flags <==> on
  {
    hide Resume, AutoSample, Stickiness, Periodic, NoDuplicates, Routine;
    var sh1 := Resume(sh, s, IDLE, world);
    ResumeRoutine({}, sh, s, IDLE, world);
    RoutineKeepsDistinct({}, world.down, sh, sh1);
    ResumeKeepsMode({}, sh, s, IDLE, world);
    var sh2 := AutoSample(sh1, HotTick(on).auto, world);
    HotTickSyncs(sh1, on, world);
    var sh3 := Stickiness(sh2, s, IDLE, world);
    StickinessFlagsOnly(sh2, s, IDLE, world);
    StickinessRoutine({}, sh2, s, IDLE, world);
    RoutineKeepsDistinct({}, world.down, sh2, sh3);
    PeriodicFlagsOnly(sh3, s, IDLE, world);
  }

  lemma {:induction false} UnheldSampleActs(fit: StepTest.Fitter, sh: Shell, s: Sample, on: bool, world: World)
    requires Inv(sh) && sh.status.mode == Auto && !sh.hold && !world.down && Observe(sh.watchdog, s).1 == NoTrip
    requires on == (GpuHot !in sh.status.flags)
    ensures !SwallowedWith(fit, sh, s, HotTick(on), world)
  {
    hide Observe, Regulate, CalibSample, NoDuplicates, HotTick;
    InvOwned(sh);
    var sh1 := sh.(watchdog := Observe(sh.watchdog, s).0);
    RegulateSyncs(sh1.(idleWarned := sh1.idleWarned && !sh1.watchdog.IsQuiet()), s, on, world);
  }

  /** The hold set when a calibration hands back to Auto is not cleared by a
      release: the next Auto session swallows its first sample although no
      calibration preceded it. */
  lemma {:induction false} ReentryHoldOutlivesRelease(fit: StepTest.Fitter, sh: Shell, s: Sample, tick: Tick, world: World)
    requires Inv(sh) && sh.status.mode == Auto && sh.hold && !world.down
    requires Observe(sh.watchdog, s).1 == NoTrip
    ensures var released := OnCommand(sh, ReleaseAll, world).0;
            var reentered := OnCommand(released, SetAuto(true), world).0;
            var (sh', effects) := OnSample(fit, reentered, s, tick, world);
            && released.status.mode == Monitor && reentered.status.mode == Auto
            && effects == [] && sh'.hardware == reentered.hardware && sh'.status == reentered.status
            && !sh'.hold
  {
    hide NoDuplicates, ReleaseToStock, AddFlag, Regulate, CalibSample, EmergencyRelease, AbortRunner, Replay, Uncapped;
    LeaveIsSound(sh, world);
    InvOwned(sh);
    var released := OnCommand(sh, ReleaseAll, world).0;
    hide Sound;
    SyncRespects({}, false, released, NotCalibrated, true) by {
      LeaveKeepsDistinct(sh, world);
    }
    hide Respects, Observe;
    var reentered := OnCommand(released, SetAuto(true), world).0;
    assert reentered.hold && reentered.watchdog == sh.watchdog && reentered.status.mode == Auto;
  }

  lemma {:induction false} LeaveKeepsDistinct(sh: Shell, world: World)
    requires Inv(sh) && sh.status.mode == Auto
    ensures NoDuplicates(OnCommand(sh, ReleaseAll, world).0.status.flags)
  {
    hide NoDuplicates, ReleaseToStock, Replay, Uncapped;
    LeaveIsSound(sh, world);
  }

  // ---- Sessions that reach a stale hold ----

  const CALM := Sample(0.0, Some(50.0), Some(50.0), 0.0, false)
  const HOT := Sample(0.0, Some(96.0), Some(50.0), 0.0, false)

  /** Every write is verified at 20 W and 1000 MHz. */
  const WORLD := World(false, true, true, [Reply(Some(20.0), Some(1000), 0.0), Reply(Some(20.0), Some(1000), 0.0), Reply(Some(20.0), Some(1000), 0.0)], None)

  const AUTO_ON := Commanded(SetAuto(true), WORLD)
  const CALIBRATE := Commanded(StartCalibration, WORLD)
  const ABORT := Commanded(AbortCalibration, WORLD)
  const RELEASE := Commanded(ReleaseAll, WORLD)
  const HOT_SAMPLE := Ticked(HOT, HotTick(false), WORLD)

  /** A calibration begun in Auto, aborted and released before any sample. */
  const RELEASED_SESSION := [AUTO_ON, CALIBRATE, ABORT, RELEASE]

  /** The watchdog trips during a calibration begun in Auto, and the emergency
      is acknowledged. */
  const TRIPPED_SESSION := [HOT_SAMPLE, HOT_SAMPLE, AUTO_ON, CALIBRATE, HOT_SAMPLE, AUTO_ON]

  predicate StaleHold(sh: Shell) {
    sh.status.mode == Monitor && !sh.watchdog.tripped && sh.hold
  }

  lemma {:induction false} AutoEntered(fit: StepTest.Fitter, saved: Saved, calls: seq<Call>, i: nat)
    requires NoQuit(calls) && i < |calls| && calls[i] == AUTO_ON
    requires StateAt(fit, saved, calls, i).status.mode == Monitor && !StateAt(fit, saved, calls, i).watchdog.tripped
    ensures StateAt(fit, saved, calls, i + 1).status.mode == Auto && StateAt(fit, saved, calls, i + 1).watchdog == StateAt(fit, saved, calls, i).watchdog
  {
    hide StateAt, Inv, OnCommand;
    StateIsSound(fit, saved, calls, i);
    StateAfter(fit, saved, calls, i);
    EntryKeeps(StateAt(fit, saved, calls, i), WORLD);
  }

  lemma {:induction false} AutoCalibrates(fit: StepTest.Fitter, saved: Saved, calls: seq<Call>, i: nat)
    requires NoQuit(calls) && i < |calls| && calls[i] == CALIBRATE && StateAt(fit, saved, calls, i).status.mode == Auto
    ensures var sh := StateAt(fit, saved, calls, i + 1);
            sh.status.mode == Calibrating && sh.fromAuto && sh.watchdog == StateAt(fit, saved, calls, i).watchdog && !sh.watchdog.tripped
  {
    hide StateAt, NoDuplicates;
    StateIsSound(fit, saved, calls, i);
    StateAfter(fit, saved, calls, i);
  }

  lemma {:induction false} AutoRunAborted(fit: StepTest.Fitter, saved: Saved, calls: seq<Call>, i: nat)
    requires NoQuit(calls) && i < |calls| && calls[i] == ABORT
    requires StateAt(fit, saved, calls, i).status.mode == Calibrating && StateAt(fit, saved, calls, i).fromAuto
    ensures StateAt(fit, saved, calls, i + 1).status.mode == Auto && StateAt(fit, saved, calls, i + 1).hold && !StateAt(fit, saved, calls, i + 1).watchdog.tripped
  {
    hide StateAt, OnCommand, NoDuplicates, CapAnswered, OnAbort;
    StateIsSound(fit, saved, calls, i);
    StateIsSound(fit, saved, calls, i + 1);
    StateAfter(fit, saved, calls, i);
    BusyCommand(StateAt(fit, saved, calls, i), AbortCalibration, WORLD);
  }

  lemma {:induction false} HeldRelease(fit: StepTest.Fitter, saved: Saved, calls: seq<Call>, i: nat)
    requires NoQuit(calls) && i < |calls| && calls[i] == RELEASE
    requires StateAt(fit, saved, calls, i).status.mode == Auto && StateAt(fit, saved, calls, i).hold && !StateAt(fit, saved, calls, i).watchdog.tripped
    ensures StaleHold(StateAt(fit, saved, calls, i + 1))
  {
    hide StateAt, NoDuplicates, ReleaseToStock, Sound, Uncapped;
    StateIsSound(fit, saved, calls, i);
    StateAfter(fit, saved, calls, i);
    LeaveIsSound(StateAt(fit, saved, calls, i), WORLD);
  }

  /** The first route: released before any sample came. */
  lemma {:induction false} ReleaseReachesStaleHold(fit: StepTest.Fitter, saved: Saved)
    ensures NoQuit(RELEASED_SESSION) && StaleHold(StateAt(fit, saved, RELEASED_SESSION, 4))
  {
    hide StateAt, StaleHold;
    var calls := RELEASED_SESSION;
    StartIsIdle(fit, saved, calls);
    AutoEntered(fit, saved, calls, 0);
    AutoCalibrates(fit, saved, calls, 1);
    AutoRunAborted(fit, saved, calls, 2);
    HeldRelease(fit, saved, calls, 3);
  }

  /** A hot sample in an idle Monitor counts and does nothing else. */
  lemma {:induction false} HotInMonitor(fit: StepTest.Fitter, saved: Saved, calls: seq<Call>, i: nat)
    requires NoQuit(calls) && i < |calls| && calls[i] == HOT_SAMPLE && i < 2
    requires StateAt(fit, saved, calls, i).status.mode == Monitor && Bare(StateAt(fit, saved, calls, i)) && StateAt(fit, saved, calls, i).watchdog == Watchdog(i, 0, false)
    ensures var sh := StateAt(fit, saved, calls, i + 1); sh.status.mode == Monitor && Bare(sh) && sh.watchdog == Watchdog(i + 1, 0, false)
  {
    hide StateAt, NoDuplicates, Regulate, CalibSample, Sound, Uncapped;
    StateIsSound(fit, saved, calls, i);
    StateAfter(fit, saved, calls, i);
    var sh := StateAt(fit, saved, calls, i);
    var sh1 := sh.(watchdog := Watchdog(i + 1, 0, false));
    assert Observe(sh.watchdog, HOT) == (Watchdog(i + 1, 0, false), NoTrip);
    var sh2 := sh1.(idleWarned := sh1.idleWarned && !sh1.watchdog.IsQuiet());
    InvDependsOnLatch(sh, sh2);
    RegulateIsSound(sh2, HOT, HotTick(false), WORLD);
    RegulateKeeps(sh2, HOT, HotTick(false), WORLD);
  }

  lemma {:induction false} HotTripsCalibration(fit: StepTest.Fitter, saved: Saved, calls: seq<Call>, i: nat)
    requires NoQuit(calls) && i < |calls| && calls[i] == HOT_SAMPLE
    requires StateAt(fit, saved, calls, i).status.mode == Calibrating && StateAt(fit, saved, calls, i).fromAuto && StateAt(fit, saved, calls, i).watchdog == Watchdog(2, 0, false)
    ensures var sh := StateAt(fit, saved, calls, i + 1); sh.status.mode == Monitor && sh.hold && sh.watchdog.tripped
  {
    hide StateAt, Inv, OnSample;
    StateIsSound(fit, saved, calls, i);
    StateAfter(fit, saved, calls, i);
    assert Observe(Watchdog(2, 0, false), HOT).1 == Thermal;
    TrippedSample(fit, StateAt(fit, saved, calls, i), HOT, HotTick(false), WORLD);
  }

  lemma {:induction false} AcknowledgedHold(fit: StepTest.Fitter, saved: Saved, calls: seq<Call>, i: nat)
    requires NoQuit(calls) && i < |calls| && calls[i] == AUTO_ON
    requires StateAt(fit, saved, calls, i).status.mode == Monitor && StateAt(fit, saved, calls, i).hold && StateAt(fit, saved, calls, i).watchdog.tripped
    ensures StaleHold(StateAt(fit, saved, calls, i + 1))
  {
    hide StateAt, NoDuplicates, RemoveFlag, Sound;
    StateIsSound(fit, saved, calls, i);
    StateAfter(fit, saved, calls, i);
    AcknowledgeIsSound(StateAt(fit, saved, calls, i), false);
  }

  /** The second route: an emergency during a calibration begun in Auto. */
  lemma {:induction false} TripReachesStaleHold(fit: StepTest.Fitter, saved: Saved)
    ensures NoQuit(TRIPPED_SESSION) && StaleHold(StateAt(fit, saved, TRIPPED_SESSION, 6))
  {
    hide StateAt, StaleHold;
    var calls := TRIPPED_SESSION;
    StartIsIdle(fit, saved, calls);
    HotInMonitor(fit, saved, calls, 0);
    HotInMonitor(fit, saved, calls, 1);
    AutoEntered(fit, saved, calls, 2);
    AutoCalibrates(fit, saved, calls, 3);
    HotTripsCalibration(fit, saved, calls, 4);
    AcknowledgedHold(fit, saved, calls, 5);
  }

  // ---- A session that ends in Monitor with limits in force ----

  const CALM_SAMPLE := Ticked(CALM, HotTick(false), WORLD)

  const COMMANDING_SESSION := [CALIBRATE, CALM_SAMPLE, ABORT]

  lemma {:induction false} FirstBatch(fit: StepTest.Fitter, x: StepTest.Input)
    requires x.s == StepTest.Sample(Finite(0.0), Some(Finite(2400.0)), None, Some(50.0), Some(50.0))
    requires x.ctx.cpuHot == 90.0 && x.ctx.gpuHot == 88.0
    ensures var (st, effects) := StepTest.Step(fit, StepTest.INITIAL, x.s, x.ctx);
            && effects == [StepTest.StartBurner(24), StepTest.SetCpu(st.baseCpu), StepTest.SetGpu(st.baseGpu)]
            && st.sub == StepTest.Settle
  {
    hide StepTest.ObserveAll, StepTest.ContextKey;
  }

  lemma {:induction false} ThreeEffects(sh: Shell, a: RunnerEffect, b: RunnerEffect, c: RunnerEffect, world: World)
    ensures CalibEffects(sh, [a, b, c], true, world)
         == CalibEffect(CalibEffect(CalibEffect(sh, a, ReplyAt(world, 0), true, world), b, ReplyAt(world, 1), true, world),
                        c, ReplyAt(world, 2), true, world)
  {
    hide CalibEffect, ReplyAt;
    assert [a, b, c][..2] == [a, b] && [a, b][..1] == [a] && [a][..0] == [];
    assert CalibEffects(sh, [], true, world) == sh;
    assert CalibEffects(sh, [a], true, world) == CalibEffect(CalibEffects(sh, [a][..0], true, world), a, ReplyAt(world, 0), true, world);
    assert CalibEffects(sh, [a, b], true, world) == CalibEffect(CalibEffects(sh, [a, b][..1], true, world), b, ReplyAt(world, 1), true, world);
  }

  predicate BothCommanded(sh: Shell) {
    sh.status.cpuLimit.Some? && sh.status.gpuMax.Some?
  }

  lemma {:induction false} BothAnswered(sh: Shell, cpu: real, gpu: nat)
    ensures BothCommanded(CalibEffects(sh, [Machine(StepTest.StartBurner(24)), Machine(StepTest.SetCpu(cpu)), Machine(StepTest.SetGpu(gpu))], true, WORLD))
  {
    hide StopBurner, CalibEffects, G.Kept;
    ThreeEffects(sh, Machine(StepTest.StartBurner(24)), Machine(StepTest.SetCpu(cpu)), Machine(StepTest.SetGpu(gpu)), WORLD);
  }

  lemma {:induction false} FirstTaken(fit: StepTest.Fitter, saved: Saved, x: StepTest.Input)
    requires x.s == StepTest.Sample(Finite(0.0), Some(Finite(2400.0)), None, Some(50.0), Some(50.0))
    requires x.ctx.cpuHot == 90.0 && x.ctx.gpuHot == 88.0
    ensures var (r, batch) := TakeSample(fit, Fresh(saved.cpu, saved.gpu).(started := true), x);
            && !r.finished && Finished !in batch
            && batch == [Machine(StepTest.StartBurner(24)), Machine(StepTest.SetCpu(r.step.baseCpu)), Machine(StepTest.SetGpu(r.step.baseGpu))]
  {
    hide StepTest.Step, Merge;
    FirstBatch(fit, x);
  }

  /** A calibration's first sample commands both caps and does not end it. */
  lemma {:induction false} FirstSampleCommands(fit: StepTest.Fitter, sh: Shell)
    requires Inv(sh) && sh.status.mode == Calibrating && sh.calib == Some(Fresh(sh.saved.cpu, sh.saved.gpu).(started := true))
    requires Observe(sh.watchdog, CALM).1 == NoTrip
    ensures var sh' := OnSample(fit, sh, CALM, HotTick(false), WORLD).0;
            sh'.status.mode == Calibrating && BothCommanded(sh') && sh'.fromAuto == sh.fromAuto
  {
    hide Inv, TakeSample, Observe, CheckDue, CheckCap, GpuScore, CalibEffects, EndedRun, Regulate, BothCommanded, OnSample;
    hide CapAnswered;
    BusySample(fit, sh, CALM, HotTick(false), WORLD);
    PreparedIgnoresWatchdog(sh, Watched(sh, CALM), sh.calib.value, CALM, HotTick(false), WORLD);
    var (prepared, x) := Prepared(Watched(sh, CALM), sh.calib.value, CALM, HotTick(false), WORLD);
    var (r, batch) := TakeSample(fit, sh.calib.value, x);
    FirstTaken(fit, sh.saved, x);
    SamplePasses(fit, sh, CALM, HotTick(false), WORLD);
    var applied := prepared.(calib := Some(r));
    BothAnswered(applied, r.step.baseCpu, r.step.baseGpu);
    BothAfterDrain(CalibEffects(applied, batch, true, WORLD));
  }

  lemma {:induction false} BothAfterDrain(sh: Shell)
    requires BothCommanded(sh)
    ensures BothCommanded(sh.(pending := []))
  {
  }

  lemma {:induction false} OwnersKept(sh: Shell, effects: seq<RunnerEffect>, sampled: bool, world: World)
    requires NoDuplicates(sh.status.flags)
    ensures SameOwner(sh, CalibEffects(sh, effects, sampled, world))
    ensures CalibEffects(sh, effects, sampled, world).watchdog == sh.watchdog
  {
    hide NoDuplicates, Respects, CalibEffects;
    CalibEffectsRespect({}, sh, effects, sampled, world);
    WatchdogKept({}, world.down, sh, CalibEffects(sh, effects, sampled, world));
  }

  lemma {:induction false} AnswersKeepBoth(sh: Shell, reply: Reply, sampled: bool)
    requires BothCommanded(sh)
    ensures BothCommanded(CpuAnswered(sh, reply, sampled)) && BothCommanded(GpuAnswered(sh, reply, sampled))
  {
    hide G.Kept;
  }

  lemma {:induction false} OneEffectKeepsLimits(sh: Shell, e: RunnerEffect, reply: Reply, sampled: bool, world: World)
    requires BothCommanded(sh)
    ensures BothCommanded(CalibEffect(sh, e, reply, sampled, world))
  {
    hide SyncFlag, StopBurner, CpuAnswered, GpuAnswered;
    match e {
      case SaveState(cpu, gpu) => SyncKeepsLimits(sh.(saved := Saved(cpu, gpu)), NotCalibrated, !Calibrated(world.viewKey, cpu, gpu));
      case Finished =>
      case Machine(m) =>
        match m {
          case SetCpu(_) => AnswersKeepBoth(Issue(sh.(evidence := sh.evidence.(cpuVerified := false)), CapCpu), reply, sampled);
          case SetGpu(_) => AnswersKeepBoth(Issue(sh, CapGpu), reply, sampled);
          case StartBurner(_) => BurnerKeepsLimits(sh);
          case StopBurner => BurnerKeepsLimits(sh);
          case Fitted(_, _) =>
          case Noted =>
          case Retrying =>
        }
    }
  }

  lemma {:induction false} LimitsStayCommanded(sh: Shell, effects: seq<RunnerEffect>, sampled: bool, world: World)
    requires BothCommanded(sh)
    ensures BothCommanded(CalibEffects(sh, effects, sampled, world))
  {
    hide CalibEffect, BothCommanded;
    if effects != [] {
      var n := |effects| - 1;
      LimitsStayCommanded(sh, effects[..n], sampled, world);
      OneEffectKeepsLimits(CalibEffects(sh, effects[..n], sampled, world), effects[n], ReplyAt(world, n), sampled, world);
    }
  }

  /** Aborting a calibration begun in Monitor with both caps commanded. */
  lemma {:induction false} AbortedLimits(sh: Shell)
    requires Inv(sh) && sh.status.mode == Calibrating && !sh.fromAuto && BothCommanded(sh)
    ensures var sh' := OnCommand(sh, AbortCalibration, WORLD).0; sh'.status.mode == Monitor && BothCommanded(sh')
  {
    hide CalibEffects, OnAbort, EndCalibration, Uncapped, Respects, NoDuplicates;
    var r := sh.calib.value;
    AbortHasNoFinish(r);
    var sh1 := sh.(calib := None);
    var sh2 := CalibEffects(sh1, OnAbort(r).1, false, WORLD);
    LimitsStayCommanded(sh1, OnAbort(r).1, false, WORLD);
    OwnersKept(sh1, OnAbort(r).1, false, WORLD);
    EndRespects({}, false, sh2);
  }

  /** Ending a calibration that began in Monitor leaves its limits in force:
      a session that does so, from the start. */
  lemma {:induction false} MonitorCanHoldLimits(fit: StepTest.Fitter, saved: Saved)
    ensures NoQuit(COMMANDING_SESSION)
    ensures var sh := StateAt(fit, saved, COMMANDING_SESSION, 3); sh.status.mode == Monitor && BothCommanded(sh)
  {
    hide StateAt, OnSample, OnCommand, NoDuplicates, CalibSample;
    var calls := COMMANDING_SESSION;
    StartIsIdle(fit, saved, calls);
    StateAfter(fit, saved, calls, 0);
    StateAfter(fit, saved, calls, 1);
    StateAfter(fit, saved, calls, 2);
    StateIsSound(fit, saved, calls, 1);
    StateIsSound(fit, saved, calls, 2);
    BegunInMonitor(saved);
    FirstSampleCommands(fit, StateAt(fit, saved, calls, 1));
    AbortedLimits(StateAt(fit, saved, calls, 2));
  }

  lemma {:induction false} BegunInMonitor(saved: Saved)
    ensures var sh := OnCommand(Booted(saved), StartCalibration, WORLD).0;
            && sh.status.mode == Calibrating && !sh.fromAuto && sh.saved == saved && sh.calib == Some(Fresh(saved.cpu, saved.gpu).(started := true))
            && Observe(sh.watchdog, CALM).1 == NoTrip
  {
  }
}
