/** The controller as an object updated in place by commands and samples.
    Every method is tied to the transition of Controller it performs. */
module ControllerMachine {
  import opened Prelude
  import opened Controller
  import opened Runner
  import StepTest
  import G = GpuVerify
  import V = Verdicts

  class SafetyController {
    const fit: StepTest.Fitter
    var status: Status
    var pending: seq<Effect>
    var calib: Option<RunState>
    var auto: Option<AutoState>
    var fromAuto: bool
    var hold: bool
    var watchdog: Watchdog
    var idleWarned: bool
    var burner: bool
    var timers: Timers
    var hardware: seq<Operation>
    var evidence: Evidence
    var cpuGains: GainMap
    var gpuGains: GainMap

    ghost function Abs(): Shell
      reads this
    {
      Shell(status, pending, calib, auto, fromAuto, hold, watchdog, idleWarned, burner, timers, hardware, evidence,
            Saved(cpuGains, gpuGains))
    }

    constructor (fit: StepTest.Fitter, cpuGains: GainMap, gpuGains: GainMap)
      ensures Abs() == Booted(Saved(cpuGains, gpuGains)) && this.fit == fit
    {
      this.fit, this.cpuGains, this.gpuGains := fit, cpuGains, gpuGains;
      status, pending, calib, auto := Status(Monitor, None, None, []), [], None, None;
      fromAuto, hold, watchdog, idleWarned := false, false, ARMED, false;
      burner, timers, hardware, evidence := false, NO_TIMERS, [], NO_EVIDENCE;
    }

    // ---- Flags ----

    method RaiseFlag(f: Flag)
      modifies this`status, this`pending
      ensures Abs() == AddFlag(old(Abs()), f)
    {
      if f !in status.flags {
        status := status.(flags := status.flags + [f]);
        pending := pending + [Flagged(f, true)];
      }
    }

    /** Retains every other flag. */
    method RetainOthers(f: Flag) returns (kept: seq<Flag>)
      ensures kept == Without(status.flags, f)
    {
      kept := [];
      for i := 0 to |status.flags|
        invariant kept == Without(status.flags[..i], f)
      {
        assert status.flags[..i + 1][..i] == status.flags[..i];
        if status.flags[i] != f {
          kept := kept + [status.flags[i]];
        }
      }
      assert status.flags[..|status.flags|] == status.flags;
    }

    method ClearFlag(f: Flag)
      modifies this`status, this`pending
      ensures Abs() == RemoveFlag(old(Abs()), f)
    {
      hide Without;
      var kept := RetainOthers(f);
      if |kept| != |status.flags| {
        status := status.(flags := kept);
        pending := pending + [Flagged(f, false)];
      }
    }

    method SyncBoolFlag(f: Flag, on: bool)
      modifies this`status, this`pending
      ensures Abs() == SyncFlag(old(Abs()), f, on)
    {
      hide AddFlag, RemoveFlag;
      if on {
        RaiseFlag(f);
      } else {
        ClearFlag(f);
      }
    }

    method ClearFlags(flags: seq<Flag>)
      modifies this`status, this`pending
      ensures Abs() == RemoveAll(old(Abs()), flags)
    {
      hide RemoveFlag, Abs;
      for i := 0 to |flags|
        invariant Abs() == RemoveAll(old(Abs()), flags[..i])
      {
        assert flags[..i + 1][..i] == flags[..i];
        ClearFlag(flags[i]);
      }
      assert flags[..|flags|] == flags;
    }

    method SyncFlags(updates: seq<FlagUpdate>)
      modifies this`status, this`pending
      ensures Abs() == SyncAll(old(Abs()), updates)
    {
      hide SyncFlag, Abs;
      for i := 0 to |updates|
        invariant Abs() == SyncAll(old(Abs()), updates[..i])
      {
        assert updates[..i + 1][..i] == updates[..i];
        SyncBoolFlag(updates[i].flag, updates[i].on);
      }
      assert updates[..|updates|] == updates;
    }

    /** Moves the recorded transitions into the call's effects. */
    method DrainFlagEffects(first: seq<Effect>) returns (effects: seq<Effect>)
      modifies this`pending
      ensures Abs() == Drain(old(Abs()), first).0 && effects == Drain(old(Abs()), first).1
    {
      effects := first + pending;
      pending := [];
    }

    // ---- Hardware ----

    method Operate(op: Operation)
      modifies this`hardware
      ensures Abs() == Issue(old(Abs()), op)
    {
      hide AddFlag;
      hardware := hardware + [op];
    }

    method SetCpuLimit(limit: Option<real>)
      modifies this`status
      ensures Abs() == WithCpu(old(Abs()), limit)
    {
      hide AddFlag;
      status := status.(cpuLimit := limit);
    }

    method SetGpuMax(max: Option<nat>)
      modifies this`status
      ensures Abs() == WithGpu(old(Abs()), max)
    {
      hide AddFlag;
      status := status.(gpuMax := max);
    }

    method SetMode(mode: Mode)
      modifies this`status
      ensures Abs() == WithMode(old(Abs()), mode)
    {
      hide AddFlag;
      status := status.(mode := mode);
    }

    method HaltBurner()
      modifies this`hardware, this`burner
      ensures Abs() == Controller.StopBurner(old(Abs()))
    {
      if burner {
        Operate(Burner(false));
        burner := false;
      }
    }

    method ReleaseLimits(world: World)
      modifies this`hardware, this`status, this`pending, this`timers
      ensures Abs() == ReleaseToStock(old(Abs()), world)
    {
      hide RemoveAll;
      if world.hasGpu {
        Operate(StockGpu);
      }
      if world.hasCpu {
        Operate(StockCpu);
      }
      status, timers := Status(Monitor, None, None, status.flags), timers.(stick := 0, lastReassert := None);
      ClearFlags(AUTO_FLAGS);
    }

    method DropAuto()
      modifies this`auto
      ensures Abs() == ExitAuto(old(Abs()))
    {
      hide AddFlag;
      auto := None;
    }

    // ---- Calibration ----

    method ForgetRun()
      modifies this`calib, this`fromAuto, this`evidence
      ensures Abs() == old(Abs()).(calib := None, fromAuto := false, evidence := NO_EVIDENCE)
    {
      hide AddFlag;
      calib, fromAuto, evidence := None, false, NO_EVIDENCE;
    }

    method FinishCalibration()
      modifies this
      ensures Abs() == EndCalibration(old(Abs()))
    {
      hide Controller.StopBurner;
      var resume := fromAuto && auto.Some?;
      HaltBurner();
      ForgetRun();
      if resume {
        SetMode(Auto);
        auto, hold := Some(AutoState(V.FRESH, V.FRESH)), true;
      } else {
        SetMode(Monitor);
        hold := false;
      }
    }

    /** What a CPU cap write answered: the verified value becomes the limit. */
    method NoteCpuAnswer(reply: Reply, sampled: bool)
      modifies this`status, this`evidence
      ensures Abs() == CpuAnswered(old(Abs()), reply, sampled)
    {
      hide AddFlag;
      var stamp := Stamp(reply, sampled);
      if reply.cpu.Some? {
        SetCpuLimit(reply.cpu);
        evidence := evidence.(cpuVerified := true, cpuCompletedAt := stamp, cpuCheckedAt := stamp);
      } else {
        evidence := evidence.(cpuCheckedAt := stamp);
      }
    }

    /** What a GPU lock answered; with a sample it is recorded as a command. */
    method NoteGpuAnswer(reply: Reply, sampled: bool)
      modifies this`status, this`evidence
      ensures Abs() == GpuAnswered(old(Abs()), reply, sampled)
    {
      hide AddFlag, G.Kept;
      if reply.gpu.Some? {
        SetGpuMax(reply.gpu);
        if sampled {
          var kept := G.RecordGpuCommand(evidence.gpuCommands, reply.gpu.value, reply.at);
          evidence := evidence.(gpuCompletedAt := Some(reply.at), gpuCommands := kept);
        }
      }
    }

    method DoubtCpu()
      modifies this`evidence
      ensures Abs() == old(Abs()).(evidence := old(evidence).(cpuVerified := false))
    {
      hide AddFlag;
      evidence := evidence.(cpuVerified := false);
    }

    method ApplyMachineEffect(e: StepTest.Effect, reply: Reply, sampled: bool, world: World)
      modifies this`hardware, this`status, this`burner, this`evidence
      ensures Abs() == MachineEffect(old(Abs()), e, reply, sampled, world)
    {
      hide AddFlag, CpuAnswered, GpuAnswered;
      match e {
        case SetCpu(_) =>
          if !world.down {
            DoubtCpu();
            if world.hasCpu {
              Operate(CapCpu);
              NoteCpuAnswer(reply, sampled);
            }
          }
        case SetGpu(_) =>
          if !world.down && world.hasGpu {
            Operate(CapGpu);
            NoteGpuAnswer(reply, sampled);
          }
        case StartBurner(_) =>
          HaltBurner();
          Operate(Burner(true));
          burner := true;
        case StopBurner => HaltBurner();
        case _ =>
      }
    }

    /** Takes over the saved maps and says whether the view is calibrated. */
    method KeepGains(cpu: GainMap, gpu: GainMap, world: World)
      modifies this`cpuGains, this`gpuGains, this`status, this`pending
      ensures Abs() == SyncFlag(old(Abs()).(saved := Saved(cpu, gpu)), NotCalibrated, !Calibrated(world.viewKey, cpu, gpu))
    {
      hide SyncFlag;
      cpuGains, gpuGains := cpu, gpu;
      SyncBoolFlag(NotCalibrated, !(world.viewKey.Some? && world.viewKey.value in cpuGains && world.viewKey.value in gpuGains));
    }

    /** Executes a batch of runner effects; a terminal batch ends the run. */
    method ApplyCalibEffects(effects: seq<RunnerEffect>, sampled: bool, world: World)
      modifies this
      ensures Abs() == ApplyCalib(old(Abs()), effects, sampled, world)
    {
      hide Abs, MachineEffect, SyncFlag, EndCalibration, ReplyAt;
      var ended := false;
      for i := 0 to |effects|
        invariant Abs() == CalibEffects(old(Abs()), effects[..i], sampled, world)
        invariant ended == (Finished in effects[..i])
      {
        assert effects[..i + 1][..i] == effects[..i];
        match effects[i] {
          case Machine(e) => ApplyMachineEffect(e, ReplyAt(world, i), sampled, world);
          case SaveState(cpu, gpu) => KeepGains(cpu, gpu, world);
          case Finished => ended := true;
        }
      }
      assert effects[..|effects|] == effects;
      if ended {
        FinishCalibration();
      }
    }

    method TakeDownCalibration(world: World)
      modifies this
      ensures Abs() == AbortCalib(old(Abs()), world)
    {
      hide ApplyCalib, EndCalibration, OnAbort;
      if calib.Some? {
        var effects := OnAbort(calib.value).1;
        calib := None;
        ApplyCalibEffects(effects, false, world);
        FinishCalibration();
      }
    }

    // ---- Emergency ----

    /** Releases everything toward stock and latches the flag. */
    method EmergencyStop(trip: Trip, world: World) returns (effects: seq<Effect>)
      modifies this
      ensures Abs() == EmergencyRelease(old(Abs()), trip, world).0
      ensures effects == EmergencyRelease(old(Abs()), trip, world).1
    {
      hide Abs, AbortCalib, ExitAuto, ReleaseToStock, AddFlag;
      TakeDownCalibration(world);
      DropAuto();
      ReleaseLimits(world);
      RaiseFlag(if trip == Thermal then ThermalEmergency else SensorLost);
      effects := DrainFlagEffects([Released]);
    }

    method AbortRunnerFirst(world: World)
      modifies this
      ensures Abs() == AbortRunner(old(Abs()), world)
    {
      hide ApplyCalib, OnAbort;
      if calib.Some? {
        var r := calib.value;
        calib := Some(OnAbort(r).0);
        ApplyCalibEffects(OnAbort(r).1, true, world);
      }
    }

    // ---- Commands ----

    method AcknowledgeEmergency() returns (effects: seq<Effect>)
      modifies this
      ensures Abs() == Acknowledge(old(Abs())).0 && effects == Acknowledge(old(Abs())).1
    {
      hide RemoveFlag;
      ClearFlag(ThermalEmergency);
      ClearFlag(SensorLost);
      watchdog := ARMED;
      effects := DrainFlagEffects([]);
    }

    method CommandCpu(verified: Option<real>, world: World)
      modifies this
      ensures Abs() == CommandedCpu(old(Abs()), verified, world)
    {
      hide AddFlag;
      if !world.down && world.hasCpu {
        Operate(CapCpu);
        if verified.Some? {
          SetCpuLimit(verified);
          SetMode(Manual);
          timers := timers.(stick := 0);
        }
      }
    }

    method CommandGpu(applied: Option<nat>, world: World)
      modifies this
      ensures Abs() == CommandedGpu(old(Abs()), applied, world)
    {
      hide AddFlag;
      if !world.down && world.hasGpu {
        Operate(CapGpu);
        if applied.Some? {
          SetGpuMax(applied);
          SetMode(Manual);
        }
      }
    }

    method EnterAuto()
      modifies this
      ensures Abs() == EnteredAuto(old(Abs()))
    {
      hide AddFlag;
      RaiseFlag(NotCalibrated);
      auto := Some(AutoState(V.FRESH, V.FRESH));
      SetMode(Auto);
    }

    method BeginCalibration()
      modifies this
      ensures Abs() == Begun(old(Abs()))
    {
      hide AddFlag;
      fromAuto, hold, evidence := status.mode == Auto, false, NO_EVIDENCE;
      calib := Some(Fresh(cpuGains, gpuGains).(started := true));
      SetMode(Calibrating);
    }

    method ExecuteCommand(c: Command, world: World) returns (effects: seq<Effect>)
      modifies this
      ensures Abs() == Execute(old(Abs()), c, world).0 && effects == Execute(old(Abs()), c, world).1
    {
      hide AddFlag, ReleaseToStock, AbortCalib, ExitAuto, Begun, CommandedCpu, CommandedGpu, EnteredAuto;
      effects := [];
      match c {
        case SetCpuW(verified) => CommandCpu(verified, world);
        case SetGpuMaxClock(applied) => CommandGpu(applied, world);
        case ReleaseAll =>
          DropAuto();
          ReleaseLimits(world);
          effects := [Released];
        case SetAuto(on) =>
          if on {
            if status.mode != Auto {
              EnterAuto();
            }
          } else if status.mode == Auto {
            DropAuto();
            ReleaseLimits(world);
            effects := [Released];
          }
        case StartCalibration =>
          if status.mode == Monitor || status.mode == Auto {
            BeginCalibration();
          }
        case AbortCalibration => TakeDownCalibration(world);
        case Quit =>
          TakeDownCalibration(world);
          DropAuto();
          Operate(RestoreAll);
        case _ =>
      }
      effects := DrainFlagEffects(effects);
      if c.Quit? {
        effects := effects + [QuitNow];
      }
    }

    /** Consumes one command: acknowledge gate, ownership gates, execution. */
    method OnCommand(c: Command, world: World) returns (effects: seq<Effect>)
      modifies this
      ensures Abs() == Controller.OnCommand(old(Abs()), c, world).0
      ensures effects == Controller.OnCommand(old(Abs()), c, world).1
    {
      hide Acknowledge, Execute;
      if watchdog.tripped && Actuating(c) {
        effects := AcknowledgeEmergency();
        return;
      }
      if status.mode == Calibrating
         && (c.SetCpuW? || c.SetGpuMaxClock? || c.ReleaseAll? || c.SetAuto? || c.SetFloors?) {
        return [];
      }
      if status.mode == Auto && (c.SetCpuW? || c.SetGpuMaxClock?) {
        return [];
      }
      effects := ExecuteCommand(c, world);
    }

    // ---- Samples ----

    /** Raises or syncs the flags shared by both read-back counters. */
    method SyncVerdictFlags()
      modifies this`status, this`pending
      ensures Abs() == SyncVerdicts(old(Abs()))
    {
      hide AddFlag, RemoveFlag, V.Counter.InEpisode;
      if auto.None? {
        ClearFlag(ReadbackBlind);
      } else {
        var a := auto.value;
        if a.cpu.InEpisode() || a.gpu.InEpisode() {
          RaiseFlag(LimitNotSticking);
        }
        SyncBoolFlag(ReadbackBlind, a.cpu.blind || a.gpu.blind);
      }
    }

    method ScoreCpuVerdict(verdict: V.Verdict, suppress: bool)
      modifies this
      ensures Abs() == ScoreCpu(old(Abs()), verdict, suppress)
    {
      hide SyncVerdicts, V.Score;
      if auto.Some? {
        var (counter, outcome) := V.Score(auto.value.cpu, verdict, suppress);
        auto := Some(auto.value.(cpu := counter));
        if outcome == V.Released {
          Operate(StockCpu);
          SetCpuLimit(None);
        }
        SyncVerdictFlags();
      }
    }

    method ScoreGpuVerdict(seen: V.Seen, world: World) returns (released: bool)
      modifies this
      ensures Abs() == ScoreGpu(old(Abs()), seen, world)
      ensures released == GpuReleased(old(Abs()), Some(seen))
    {
      hide SyncVerdicts, V.Score;
      released := false;
      if auto.Some? {
        var (counter, outcome) := V.Score(auto.value.gpu, seen.verdict, seen.suppress);
        auto := Some(auto.value.(gpu := counter));
        released := outcome == V.Released;
        if released {
          if world.hasGpu {
            Operate(StockGpu);
          }
          SetGpuMax(None);
        }
        SyncVerdictFlags();
      }
    }

    /** A due CPU write, re-tried once on a candidate mismatch. */
    method WriteCpuDecision(try: Option<CpuTry>, world: World)
      modifies this
      ensures Abs() == AutoCpu(old(Abs()), try, world)
    {
      hide ScoreCpu;
      if try.None? || world.down || !world.hasCpu {
        return;
      }
      Operate(CapCpu);
      if try.value.retried {
        Operate(CapCpu);
      }
      if try.value.verdict == V.Verified {
        SetCpuLimit(Some(try.value.value));
      }
      ScoreCpuVerdict(try.value.verdict, try.value.suppress);
    }

    /** Scores the GPU sample first, then writes unless just released. */
    method WriteGpuDecision(a: AutoTick, world: World)
      modifies this
      ensures Abs() == AutoGpu(old(Abs()), a, world)
    {
      hide ScoreGpu;
      var released := false;
      if a.gpuSeen.Some? {
        released := ScoreGpuVerdict(a.gpuSeen.value, world);
      }
      if a.gpuDue && !released && !world.down && world.hasGpu {
        Operate(CapGpu);
        if a.gpuApplied.Some? {
          SetGpuMax(a.gpuApplied);
        }
      }
    }

    method RefreshEngagement()
      modifies this`auto, this`timers
      ensures Abs() == old(Abs()).(auto := if old(auto).Some? then Some(AutoState(V.FRESH, V.FRESH)) else None,
                                   timers := old(timers).(stick := 0, lastReassert := None))
    {
      hide AddFlag;
      if auto.Some? {
        auto := Some(AutoState(V.FRESH, V.FRESH));
      }
      timers := timers.(stick := 0, lastReassert := None);
    }

    /** Puts both devices back to stock without leaving Auto. */
    method ReleaseDevices(world: World)
      modifies this`hardware, this`status
      ensures Abs() == var sh3 := if world.hasGpu then Issue(old(Abs()), StockGpu) else old(Abs());
                       var sh4 := if world.hasCpu then Issue(sh3, StockCpu) else sh3;
                       WithGpu(WithCpu(sh4, None), None)
    {
      hide AddFlag;
      if world.hasGpu {
        Operate(StockGpu);
      }
      if world.hasCpu {
        Operate(StockCpu);
      }
      SetCpuLimit(None);
      SetGpuMax(None);
    }

    /** The end of an engagement under a released temperature target. */
    method EndEngagement(changed: bool, world: World)
      modifies this
      ensures Abs() == Disengage(old(Abs()), changed, world)
    {
      hide RemoveFlag;
      RefreshEngagement();
      ClearFlag(ReadbackBlind);
      ClearFlag(LimitNotSticking);
      if changed {
        ReleaseDevices(world);
      }
    }

    method OnAutoSample(a: AutoTick, world: World)
      modifies this
      ensures Abs() == AutoSample(old(Abs()), a, world)
    {
      hide Abs, SyncAll, AutoCpu, AutoGpu, Disengage;
      SyncFlags(a.flags);
      match a.engagement {
        case Disengaged(changed) => EndEngagement(changed, world);
        case Engaged =>
          WriteCpuDecision(a.cpu, world);
          WriteGpuDecision(a, world);
      }
    }

    /** Re-applies whatever limits are commanded. */
    method ReassertActuators(m: Maintenance, world: World) returns (attempted: bool)
      modifies this
      ensures Abs() == Reassert(old(Abs()), m, world)
      ensures attempted == old(Attempted(Abs(), m, world))
    {
      hide ScoreCpu;
      if world.down {
        return false;
      }
      var hadGpu := status.gpuMax.Some? && world.hasGpu;
      attempted := hadGpu || (status.cpuLimit.Some? && world.hasCpu && (m.repaired || m.verdict != V.Verified));
      if status.cpuLimit.Some? && world.hasCpu {
        if m.repaired {
          Operate(CapCpu);
        }
        ScoreCpuVerdict(m.verdict, m.suppress);
      }
      if status.gpuMax.Some? && world.hasGpu {
        Operate(CapGpu);
      }
    }

    method PinReassert(t: real)
      modifies this`timers
      ensures Abs() == old(Abs()).(timers := old(timers).(lastReassert := Some(t)))
    {
      hide AddFlag;
      timers := timers.(lastReassert := Some(t));
    }

    /** The resume half of a sample, or the end of a resumed episode. */
    method HandleResume(s: Sample, m: Maintenance, world: World)
      modifies this
      ensures Abs() == Resume(old(Abs()), s, m, world)
    {
      hide AddFlag, RemoveFlag, Reassert, Attempted;
      if s.resumed {
        RaiseFlag(Resumed);
        ArmResume(s.t);
        var attempted := ReassertActuators(m, world);
        if attempted {
          PinReassert(s.t);
        }
      } else if timers.resumedUntil.Some? && s.t >= timers.resumedUntil.value {
        ClearFlag(Resumed);
        timers := timers.(resumedUntil := None);
      }
    }

    method ArmResume(t: real)
      modifies this`timers, this`auto
      ensures Abs() == old(Abs()).(
                timers := old(timers).(strictUntil := Some(t + RESUMED_STRICT_S), resumedUntil := Some(t + RESUMED_FLAG_S)),
                auto := if old(auto).Some? then Some(AutoState(V.FRESH, V.FRESH)) else None)
    {
      hide AddFlag;
      timers := timers.(strictUntil := Some(t + RESUMED_STRICT_S), resumedUntil := Some(t + RESUMED_FLAG_S));
      if auto.Some? {
        auto := Some(AutoState(V.FRESH, V.FRESH));
      }
    }

    method SetStick(n: nat)
      modifies this`timers
      ensures Abs() == old(Abs()).(timers := old(timers).(stick := n))
    {
      hide AddFlag;
      timers := timers.(stick := n);
    }

    /** Measured power well above the limit, three samples in a row. */
    method WatchStickiness(s: Sample, m: Maintenance, world: World)
      modifies this
      ensures Abs() == Stickiness(old(Abs()), s, m, world)
    {
      hide AddFlag, RemoveFlag, Reassert, Attempted, InTrouble;
      if status.cpuLimit.None? || s.pkgW <= 0.0 {
        return;
      }
      if s.pkgW > status.cpuLimit.value + STICKINESS_MARGIN_W {
        var needed := if timers.strictUntil.Some? && s.t < timers.strictUntil.value then STICKINESS_SAMPLES_STRICT else STICKINESS_SAMPLES;
        if timers.stick + 1 >= needed {
          SetStick(0);
          var attempted := ReassertActuators(m, world);
          if attempted {
            PinReassert(s.t);
          }
          RaiseFlag(LimitNotSticking);
        } else {
          SetStick(timers.stick + 1);
        }
      } else {
        SetStick(0);
        var trouble := VerdictTrouble();
        if !trouble {
          ClearFlag(LimitNotSticking);
        }
      }
    }

    method VerdictTrouble() returns (trouble: bool)
      ensures trouble == InTrouble(Abs())
    {
      return auto.Some? && (auto.value.cpu.InEpisode() || auto.value.gpu.InEpisode());
    }

    /** Maintenance every ten seconds while anything is commanded. */
    method MaintainPeriodically(s: Sample, m: Maintenance, world: World)
      modifies this
      ensures Abs() == Periodic(old(Abs()), s, m, world)
    {
      hide Reassert, Attempted;
      if status.cpuLimit.None? && status.gpuMax.None? {
        return;
      }
      if timers.lastReassert.None? {
        PinReassert(s.t);
      } else if s.t - timers.lastReassert.value >= REASSERT_PERIOD_S {
        PinReassert(s.t);
        var _ := ReassertActuators(m, world);
      }
    }

    method RegulateSample(s: Sample, tick: Tick, world: World) returns (effects: seq<Effect>)
      modifies this
      ensures Abs() == Regulate(old(Abs()), s, tick, world).0
      ensures effects == Regulate(old(Abs()), s, tick, world).1
    {
      hide Resume, AutoSample, Stickiness, Periodic;
      effects := [];
      HandleResume(s, tick.onResume, world);
      if status.mode == Auto {
        OnAutoSample(tick.auto, world);
        if tick.auto.engagement == Disengaged(true) {
          effects := [Released];
        }
      }
      WatchStickiness(s, tick.onStick, world);
      MaintainPeriodically(s, tick.periodic, world);
      effects := DrainFlagEffects(effects);
    }

    /** Reads the CPU cap when due, and writes it again if it was changed. */
    method CheckCpuCap(r: RunState, s: Sample, tick: Tick, world: World) returns (reset: bool)
      modifies this`hardware, this`evidence
      ensures Abs() == CheckCap(old(Abs()), r, s, tick, world)
      ensures reset == (CheckDue(old(Abs()), r, s, world) && tick.check.observed == V.Mismatch)
    {
      hide AddFlag, FinishingResponse, TooHotToRepair;
      if !world.down && status.cpuLimit.Some? && world.hasCpu
         && (evidence.cpuCheckedAt.None? || s.t - evidence.cpuCheckedAt.value >= REASSERT_PERIOD_S
             || FinishingResponse(r.step, s.t)) {
        reset := tick.check.observed == V.Mismatch;
        var verdict := tick.check.observed;
        if reset && !TooHotToRepair(s, tick) {
          Operate(CapCpu);
          verdict := tick.check.repaired;
        }
        evidence := evidence.(cpuCheckedAt := Some(tick.check.at), cpuVerified := verdict == V.Verified);
      } else {
        reset := false;
      }
    }

    /** Scores the GPU reading of a sample against this run's commands. */
    method ScoreCalibGpu(s: Sample, sense: Sense) returns (verified: bool)
      modifies this`evidence
      ensures var (streak, ok) := GpuScore(old(evidence), s, sense);
              Abs() == old(Abs()).(evidence := old(evidence).(gpuStreak := streak)) && verified == ok
    {
      hide AddFlag, G.Score;
      if sense.gpuSm.None? || s.resumed {
        return false;
      }
      var (streak, verdict) := G.Score(evidence.gpuStreak, G.Reading(sense.gpuUtil, sense.gpuSm.value, s.t, evidence.gpuCommands));
      evidence := evidence.(gpuStreak := streak);
      return verdict.Verified?;
    }

    method BuildCalibContext(r: RunState, s: Sample, tick: Tick, world: World) returns (x: StepTest.Input)
      modifies this`hardware, this`evidence
      ensures (Abs(), x) == Prepared(old(Abs()), r, s, tick, world)
    {
      hide CheckCap, CheckDue, GpuScore;
      var reset := CheckCpuCap(r, s, tick, world);
      var verified := ScoreCalibGpu(s, tick.sense);
      x := BuildInput(s, tick, reset, verified);
    }

    method BuildInput(s: Sample, tick: Tick, cpuReset: bool, gpuVerified: bool) returns (x: StepTest.Input)
      ensures x == CalibInput(Abs(), s, tick, cpuReset, gpuVerified)
    {
      var reading := StepTest.Sample(Finite(s.t), tick.sense.fan, tick.sense.ecMax, s.gpuTemp, s.cpuTemp);
      var ctx := StepTest.Context(
        status.cpuLimit, evidence.cpuVerified, cpuReset, evidence.cpuCompletedAt,
        status.gpuMax, gpuVerified, evidence.gpuCompletedAt,
        fromAuto, tick.limits.cpuFloor, tick.limits.gpuFloor, tick.limits.cpuMax, tick.limits.gpuMax,
        tick.sense.cpuGroup, tick.sense.gpuGroup,
        tick.sense.fanctrlActive, tick.sense.ecMismatch, tick.sense.argmaxControllable,
        tick.limits.cpuHot, tick.limits.gpuHot, tick.sense.strategy, tick.sense.maInterval);
      return StepTest.Input(reading, ctx);
    }

    method OnCalibSample(s: Sample, tick: Tick, world: World) returns (effects: seq<Effect>)
      modifies this
      ensures Abs() == CalibSample(fit, old(Abs()), s, tick, world).0
      ensures effects == CalibSample(fit, old(Abs()), s, tick, world).1
    {
      hide TakeSample, ApplyCalib, EndCalibration, Prepared;
      if calib.None? {
        FinishCalibration();
      } else {
        var x := BuildCalibContext(calib.value, s, tick, world);
        var (r, batch) := TakeSample(fit, calib.value, x);
        calib := Some(r);
        ApplyCalibEffects(batch, true, world);
      }
      effects := DrainFlagEffects([]);
    }

    method ProceedSample(s: Sample, tick: Tick, world: World) returns (effects: seq<Effect>)
      modifies this
      ensures Abs() == Proceed(fit, old(Abs()), s, tick, world).0
      ensures effects == Proceed(fit, old(Abs()), s, tick, world).1
    {
      hide CalibSample, Regulate;
      if status.mode == Calibrating {
        effects := OnCalibSample(s, tick, world);
      } else if status.mode == Auto && hold {
        hold := false;
        effects := [];
      } else {
        effects := RegulateSample(s, tick, world);
      }
    }

    /** One sample: the fence, the watchdog before any mode, then the mode. */
    method OnSample(s: Sample, tick: Tick, world: World) returns (effects: seq<Effect>)
      modifies this
      ensures Abs() == Controller.OnSample(fit, old(Abs()), s, tick, world).0
      ensures effects == Controller.OnSample(fit, old(Abs()), s, tick, world).1
    {
      hide Proceed, EmergencyRelease, AbortRunner, Observe;
      if world.down {
        return [];
      }
      var (observed, trip) := Observe(watchdog, s);
      watchdog := observed;
      if trip == NoTrip {
        if idleWarned && watchdog.IsQuiet() {
          idleWarned := false;
        }
        effects := ProceedSample(s, tick, world);
        return;
      }
      if trip == Thermal && status.mode == Calibrating {
        AbortRunnerFirst(world);
        effects := EmergencyStop(Thermal, world);
        return;
      }
      if status.mode != Monitor || status.cpuLimit.Some? || status.gpuMax.Some? {
        effects := EmergencyStop(trip, world);
        return;
      }
      idleWarned, watchdog := true, ARMED;
      effects := ProceedSample(s, tick, world);
    }
  }
}
