/** The controller's safety shell: who owns the actuators, the watchdog latch
    and its acknowledgement, and the stream of flag transitions. State and
    transitions as values; the class that performs them in place is in
    ControllerMachine. */
module Controller {
  import opened Prelude
  import opened Runner
  import StepTest
  import G = GpuVerify
  import V = Verdicts

  const CPU_TRIP_C := 95.0
  const GPU_TRIP_C := 91.0
  const TRIP_STREAK: nat := 3
  const SENSOR_LOST_STREAK: nat := 10
  const U8_MAX: nat := 255
  const REASSERT_PERIOD_S := 10.0
  const STICKINESS_MARGIN_W := 5.0
  const STICKINESS_SAMPLES: nat := 3
  const STICKINESS_SAMPLES_STRICT: nat := 2
  const RESUMED_STRICT_S := 60.0
  const RESUMED_FLAG_S := 30.0

  datatype Mode = Monitor | Manual | Auto | Calibrating

  datatype Flag =
    | LimitNotSticking | Resumed | NotCalibrated | TargetUnreachable | ThermalEmergency | SensorLost | FanctrlLost
    | EcMismatch | SteepCurve | CurveInvalid | GpuHot | NvmeHot | ReadbackBlind

  predicate IsEmergency(f: Flag) {
    f == ThermalEmergency || f == SensorLost
  }

  datatype Effect = Flagged(flag: Flag, active: bool) | Released | QuitNow

  /** Hardware operations, in the order they are started. */
  datatype Operation = CapCpu | CapGpu | StockCpu | StockGpu | RestoreAll | Burner(on: bool)

  datatype Status = Status(mode: Mode, cpuLimit: Option<real>, gpuMax: Option<nat>, flags: seq<Flag>)

  /** The read-back counters of a live Auto session. */
  datatype AutoState = AutoState(cpu: V.Counter, gpu: V.Counter)

  datatype Timers = Timers(stick: nat, strictUntil: Option<real>, resumedUntil: Option<real>, lastReassert: Option<real>)

  datatype Trip = NoTrip | Thermal | LostSensor

  datatype Watchdog = Watchdog(hot: nat, lost: nat, tripped: bool) {
    predicate IsQuiet() {
      !tripped && hot == 0 && lost == 0
    }
  }

  const ARMED := Watchdog(0, 0, false)

  datatype Sample = Sample(t: real, cpuTemp: Option<real>, gpuTemp: Option<real>, pkgW: real, resumed: bool)

  /** What a calibration has learned about its own cap writes: whether the CPU
      cap is verified and when it was checked and completed, and the last three
      GPU commands with the verifier's violation streak. */
  datatype Evidence = Evidence(
    cpuVerified: bool, cpuCheckedAt: Option<real>, cpuCompletedAt: Option<real>,
    gpuCompletedAt: Option<real>, gpuStreak: nat, gpuCommands: seq<G.Command>)

  const NO_EVIDENCE := Evidence(false, None, None, None, 0, [])

  /** The gain maps as last loaded or saved. */
  datatype Saved = Saved(cpu: GainMap, gpu: GainMap)

  datatype Shell = Shell(
    status: Status, pending: seq<Effect>, calib: Option<RunState>, auto: Option<AutoState>,
    fromAuto: bool, hold: bool, watchdog: Watchdog, idleWarned: bool, burner: bool,
    timers: Timers, hardware: seq<Operation>, evidence: Evidence, saved: Saved)

  const NO_TIMERS := Timers(0, None, None, None)

  /** The controller as it starts, with the gains it loaded. */
  function Booted(saved: Saved): Shell {
    Shell(Status(Monitor, None, None, []), [], None, None, false, false, ARMED, false, false, NO_TIMERS, [], NO_EVIDENCE, saved)
  }

  /** The answer of the actuators to one write: the verified value, if any, and
      when the write completed. */
  datatype Reply = Reply(cpu: Option<real>, gpu: Option<nat>, at: real)

  /** What one call meets outside: the stop fence, the actuators present, the
      replies to calibration writes, and the key of the current view, if any. */
  datatype World = World(down: bool, hasCpu: bool, hasGpu: bool, replies: seq<Reply>, viewKey: Option<StepTest.Key>)

  type Outcome = (Shell, seq<Effect>)

  // ---- Flags ----

  function AddFlag(sh: Shell, f: Flag): Shell {
    if f in sh.status.flags then sh
    else sh.(status := sh.status.(flags := sh.status.flags + [f]), pending := sh.pending + [Flagged(f, true)])
  }

  function Without(flags: seq<Flag>, f: Flag): seq<Flag> {
    if flags == [] then []
    else if flags[|flags| - 1] == f then Without(flags[..|flags| - 1], f)
    else Without(flags[..|flags| - 1], f) + [flags[|flags| - 1]]
  }

  function RemoveFlag(sh: Shell, f: Flag): Shell {
    if |Without(sh.status.flags, f)| == |sh.status.flags| then sh
    else sh.(status := sh.status.(flags := Without(sh.status.flags, f)), pending := sh.pending + [Flagged(f, false)])
  }

  function SyncFlag(sh: Shell, f: Flag, on: bool): Shell {
    if on then AddFlag(sh, f) else RemoveFlag(sh, f)
  }

  function RemoveAll(sh: Shell, flags: seq<Flag>): Shell {
    if flags == [] then sh else RemoveFlag(RemoveAll(sh, flags[..|flags| - 1]), flags[|flags| - 1])
  }

  /** A flag the closed loop owns. */
  type RoutineFlag = f: Flag | !IsEmergency(f) witness Resumed

  datatype FlagUpdate = FlagUpdate(flag: RoutineFlag, on: bool)

  function SyncAll(sh: Shell, updates: seq<FlagUpdate>): Shell {
    if updates == [] then sh
    else
      var last := updates[|updates| - 1];
      SyncFlag(SyncAll(sh, updates[..|updates| - 1]), last.flag, last.on)
  }

  function Drain(sh: Shell, first: seq<Effect>): Outcome {
    (sh.(pending := []), first + sh.pending)
  }

  // ---- The watchdog ----

  function Observe(w: Watchdog, s: Sample): (Watchdog, Trip) {
    if w.tripped then (w, NoTrip)
    else
      var lost := if s.cpuTemp.Some? then 0 else MinN(w.lost + 1, U8_MAX);
      if s.cpuTemp.None? && lost >= SENSOR_LOST_STREAK then (w.(lost := lost, tripped := true), LostSensor)
      else if (s.cpuTemp.Some? && s.cpuTemp.value >= CPU_TRIP_C) || (s.gpuTemp.Some? && s.gpuTemp.value >= GPU_TRIP_C) then
        var hot := MinN(w.hot + 1, U8_MAX);
        if hot >= TRIP_STREAK then (Watchdog(hot, lost, true), Thermal) else (w.(hot := hot, lost := lost), NoTrip)
      else (w.(hot := if s.cpuTemp.Some? || s.gpuTemp.Some? then 0 else w.hot, lost := lost), NoTrip)
  }

  // ---- Hardware ----

  function Issue(sh: Shell, op: Operation): Shell {
    sh.(hardware := sh.hardware + [op])
  }

  function WithCpu(sh: Shell, limit: Option<real>): Shell {
    sh.(status := sh.status.(cpuLimit := limit))
  }

  function WithGpu(sh: Shell, max: Option<nat>): Shell {
    sh.(status := sh.status.(gpuMax := max))
  }

  function WithMode(sh: Shell, mode: Mode): Shell {
    sh.(status := sh.status.(mode := mode))
  }

  function StopBurner(sh: Shell): Shell {
    if sh.burner then Issue(sh, Burner(false)).(burner := false) else sh
  }

  const AUTO_FLAGS: seq<Flag> := [
    TargetUnreachable, LimitNotSticking, NotCalibrated, FanctrlLost, EcMismatch, SteepCurve, CurveInvalid, GpuHot, NvmeHot, ReadbackBlind]

  /** Back to Monitor with stock limits. */
  function ReleaseToStock(sh: Shell, world: World): Shell {
    var sh1 := if world.hasGpu then Issue(sh, StockGpu) else sh;
    var sh2 := if world.hasCpu then Issue(sh1, StockCpu) else sh1;
    var sh3 := sh2.(status := Status(Monitor, None, None, sh2.status.flags),
                    timers := sh2.timers.(stick := 0, lastReassert := None));
    RemoveAll(sh3, AUTO_FLAGS)
  }

  function ExitAuto(sh: Shell): Shell {
    sh.(auto := None)
  }

  // ---- Calibration ----

  /** Ends a calibration: an Auto origin resumes its suspended session after a
      held sample, a Monitor origin returns to Monitor. */
  function EndCalibration(sh: Shell): Shell {
    var sh1 := StopBurner(sh).(calib := None, fromAuto := false, evidence := NO_EVIDENCE);
    if sh.fromAuto && sh.auto.Some? then
      WithMode(sh1, Auto).(auto := Some(AutoState(V.FRESH, V.FRESH)), hold := true)
    else WithMode(sh1, Monitor).(hold := false)
  }

  function ReplyAt(world: World, i: nat): Reply {
    if i < |world.replies| then world.replies[i] else Reply(None, None, 0.0)
  }

  /** The completion stamp of a write; only a sample's batch has a clock. */
  function Stamp(reply: Reply, sampled: bool): Option<real> {
    if sampled then Some(reply.at) else None
  }

  /** A verified CPU write becomes the limit; any other only counts as a check. */
  function CpuAnswered(sh: Shell, reply: Reply, sampled: bool): Shell {
    var stamp := Stamp(reply, sampled);
    match reply.cpu
    case Some(_) =>
      WithCpu(sh, reply.cpu).(evidence := sh.evidence.(cpuVerified := true, cpuCompletedAt := stamp, cpuCheckedAt := stamp))
    case None => sh.(evidence := sh.evidence.(cpuCheckedAt := stamp))
  }

  function GpuAnswered(sh: Shell, reply: Reply, sampled: bool): Shell {
    match reply.gpu
    case Some(applied) =>
      WithGpu(sh, reply.gpu).(
        evidence := if sampled then
                      sh.evidence.(gpuCompletedAt := Some(reply.at),
                                   gpuCommands := G.Kept(sh.evidence.gpuCommands + [G.Command(applied, reply.at)]))
                    else sh.evidence)
    case None => sh
  }

  /** One effect of the step test; cap writes stop at the fence. */
  function MachineEffect(sh: Shell, e: StepTest.Effect, reply: Reply, sampled: bool, world: World): Shell {
    match e
    case SetCpu(_) =>
      if world.down then sh
      else
        var sh1 := sh.(evidence := sh.evidence.(cpuVerified := false));
        if world.hasCpu then CpuAnswered(Issue(sh1, CapCpu), reply, sampled) else sh1
    case SetGpu(_) =>
      if world.down || !world.hasGpu then sh else GpuAnswered(Issue(sh, CapGpu), reply, sampled)
    case StartBurner(_) => Issue(StopBurner(sh), Burner(true)).(burner := true)
    case StopBurner => StopBurner(sh)
    case _ => sh
  }

  /** The current view's key has a gain for both devices. */
  predicate Calibrated(viewKey: Option<StepTest.Key>, cpu: GainMap, gpu: GainMap) {
    viewKey.Some? && viewKey.value in cpu && viewKey.value in gpu
  }

  function CalibEffect(sh: Shell, e: RunnerEffect, reply: Reply, sampled: bool, world: World): Shell {
    match e
    case Machine(m) => MachineEffect(sh, m, reply, sampled, world)
    case SaveState(cpu, gpu) => SyncFlag(sh.(saved := Saved(cpu, gpu)), NotCalibrated, !Calibrated(world.viewKey, cpu, gpu))
    case Finished => sh
  }

  function CalibEffects(sh: Shell, effects: seq<RunnerEffect>, sampled: bool, world: World): Shell {
    if effects == [] then sh
    else
      var n := |effects| - 1;
      CalibEffect(CalibEffects(sh, effects[..n], sampled, world), effects[n], ReplyAt(world, n), sampled, world)
  }

  /** A batch applied with or without the sample that caused it. */
  function ApplyCalib(sh: Shell, effects: seq<RunnerEffect>, sampled: bool, world: World): Shell {
    var sh1 := CalibEffects(sh, effects, sampled, world);
    if Finished in effects then EndCalibration(sh1) else sh1
  }

  /** Takes a running calibration down: the runner's own restores, then the end. */
  function AbortCalib(sh: Shell, world: World): Shell {
    match sh.calib
    case None => sh
    case Some(r) => EndCalibration(ApplyCalib(sh.(calib := None), OnAbort(r).1, false, world))
  }

  // ---- Emergency ----

  predicate AnythingCommanded(sh: Shell) {
    sh.status.mode != Monitor || sh.status.cpuLimit.Some? || sh.status.gpuMax.Some?
  }

  function EmergencyRelease(sh: Shell, trip: Trip, world: World): Outcome {
    var released := ReleaseToStock(ExitAuto(AbortCalib(sh, world)), world);
    Drain(AddFlag(released, if trip == Thermal then ThermalEmergency else SensorLost), [Released])
  }

  /** A thermal trip first lets the calibration runner restore its pair. */
  function AbortRunner(sh: Shell, world: World): Shell {
    match sh.calib
    case None => sh
    case Some(r) => ApplyCalib(sh.(calib := Some(OnAbort(r).0)), OnAbort(r).1, true, world)
  }

  // ---- Commands ----

  datatype Command =
    | SetCpuW(verified: Option<real>) | SetGpuMaxClock(applied: Option<nat>) | ReleaseAll | SetFanTarget | SetFloors
    | SetAuto(on: bool) | StartCalibration | DismissOutcome | AbortCalibration | Quit

  predicate Actuating(c: Command) {
    c.SetCpuW? || c.SetGpuMaxClock? || (c.SetAuto? && c.on) || c.StartCalibration?
  }

  function Acknowledge(sh: Shell): Outcome {
    Drain(RemoveFlag(RemoveFlag(sh, ThermalEmergency), SensorLost).(watchdog := ARMED), [])
  }

  predicate Rejected(sh: Shell, c: Command) {
    || (sh.status.mode == Calibrating && (c.SetCpuW? || c.SetGpuMaxClock? || c.ReleaseAll? || c.SetAuto? || c.SetFloors?))
    || (sh.status.mode == Auto && (c.SetCpuW? || c.SetGpuMaxClock?))
  }

  function OnCommand(sh: Shell, c: Command, world: World): Outcome {
    if sh.watchdog.tripped && Actuating(c) then Acknowledge(sh)
    else if Rejected(sh, c) then (sh, [])
    else Execute(sh, c, world)
  }

  /** A manual cap, in force only when its write was verified. */
  function CommandedCpu(sh: Shell, verified: Option<real>, world: World): Shell {
    if world.down || !world.hasCpu then sh
    else
      var sh1 := Issue(sh, CapCpu);
      if verified.Some? then WithMode(WithCpu(sh1, verified), Manual).(timers := sh1.timers.(stick := 0)) else sh1
  }

  function CommandedGpu(sh: Shell, applied: Option<nat>, world: World): Shell {
    if world.down || !world.hasGpu then sh
    else
      var sh1 := Issue(sh, CapGpu);
      if applied.Some? then WithMode(WithGpu(sh1, applied), Manual) else sh1
  }

  function EnteredAuto(sh: Shell): Shell {
    WithMode(AddFlag(sh, NotCalibrated).(auto := Some(AutoState(V.FRESH, V.FRESH))), Auto)
  }

  /** A started runner without evidence, remembering where it came from. */
  function Begun(sh: Shell): Shell {
    WithMode(sh.(fromAuto := sh.status.mode == Auto, hold := false, evidence := NO_EVIDENCE,
                 calib := Some(Fresh(sh.saved.cpu, sh.saved.gpu).(started := true))), Calibrating)
  }

  function Execute(sh: Shell, c: Command, world: World): Outcome {
    match c
    case SetCpuW(verified) => Drain(CommandedCpu(sh, verified, world), [])
    case SetGpuMaxClock(applied) => Drain(CommandedGpu(sh, applied, world), [])
    case ReleaseAll => Drain(ReleaseToStock(ExitAuto(sh), world), [Released])
    case SetAuto(on) =>
      if on then
        if sh.status.mode == Auto then Drain(sh, [])
        else Drain(EnteredAuto(sh), [])
      else if sh.status.mode == Auto then Drain(ReleaseToStock(ExitAuto(sh), world), [Released])
      else Drain(sh, [])
    case StartCalibration =>
      if sh.status.mode != Monitor && sh.status.mode != Auto then Drain(sh, [])
      else
        Drain(Begun(sh), [])
    case AbortCalibration => Drain(AbortCalib(sh, world), [])
    case Quit =>
      var (sh', effects) := Drain(Issue(ExitAuto(AbortCalib(sh, world)), RestoreAll), []);
      (sh', effects + [QuitNow])
    case _ => Drain(sh, [])
  }

  // ---- Samples ----

  datatype CpuTry = CpuTry(verdict: V.Verdict, value: real, suppress: bool, retried: bool)

  /** Whether the temperature target engages the loops; a released target ends
      the engagement, and its first sample puts the hardware back to stock. */
  datatype Engagement = Engaged | Disengaged(changed: bool)

  /** What the closed loops decide and meet on one Auto sample. */
  datatype AutoTick = AutoTick(
    flags: seq<FlagUpdate>, engagement: Engagement,
    cpu: Option<CpuTry>, gpuSeen: Option<V.Seen>, gpuDue: bool, gpuApplied: Option<nat>)

  /** One maintenance pass over the commanded limits. */
  datatype Maintenance = Maintenance(repaired: bool, verdict: V.Verdict, suppress: bool)

  /** What a calibrating sample reads besides temperatures; None where the
      reading is missing or invalid. */
  datatype Sense = Sense(
    fan: Option<Float>, ecMax: Option<int>, cpuGroup: Option<Float>, gpuGroup: Option<Float>,
    ecMismatch: bool, fanctrlActive: bool, argmaxControllable: bool,
    strategy: Option<string>, maInterval: Option<nat>, gpuUtil: real, gpuSm: Option<nat>)

  /** The calibration's read of the CPU cap: what it showed, what a repair then
      showed, and when it completed. */
  datatype CapCheck = CapCheck(observed: V.Verdict, repaired: V.Verdict, at: real)

  /** The configured limits handed to the step test. */
  datatype Limits = Limits(cpuFloor: real, gpuFloor: nat, cpuMax: real, gpuMax: nat, cpuHot: real, gpuHot: real)

  /** Everything a sample can meet; maintenance may run up to three times. */
  datatype Tick = Tick(sense: Sense, check: CapCheck, limits: Limits, auto: AutoTick,
                       onResume: Maintenance, onStick: Maintenance, periodic: Maintenance)

  /** The shared consequences of a read-back verdict. */
  function SyncVerdicts(sh: Shell): Shell {
    match sh.auto
    case None => RemoveFlag(sh, ReadbackBlind)
    case Some(a) =>
      var sh1 := if a.cpu.InEpisode() || a.gpu.InEpisode() then AddFlag(sh, LimitNotSticking) else sh;
      SyncFlag(sh1, ReadbackBlind, a.cpu.blind || a.gpu.blind)
  }

  function ScoreCpu(sh: Shell, verdict: V.Verdict, suppress: bool): Shell {
    match sh.auto
    case None => sh
    case Some(a) =>
      var (counter, outcome) := V.Score(a.cpu, verdict, suppress);
      var sh1 := sh.(auto := Some(a.(cpu := counter)));
      SyncVerdicts(if outcome == V.Released then WithCpu(Issue(sh1, StockCpu), None) else sh1)
  }

  function ScoreGpu(sh: Shell, seen: V.Seen, world: World): Shell {
    match sh.auto
    case None => sh
    case Some(a) =>
      var (counter, outcome) := V.Score(a.gpu, seen.verdict, seen.suppress);
      var sh1 := sh.(auto := Some(a.(gpu := counter)));
      SyncVerdicts(if outcome == V.Released then WithGpu(if world.hasGpu then Issue(sh1, StockGpu) else sh1, None) else sh1)
  }

  predicate GpuReleased(sh: Shell, seen: Option<V.Seen>) {
    sh.auto.Some? && seen.Some? && V.Score(sh.auto.value.gpu, seen.value.verdict, seen.value.suppress).1 == V.Released
  }

  function AutoCpu(sh: Shell, try: Option<CpuTry>, world: World): Shell {
    if try.None? || world.down || !world.hasCpu then sh
    else
      var sh1 := Issue(sh, CapCpu);
      var sh2 := if try.value.retried then Issue(sh1, CapCpu) else sh1;
      ScoreCpu(if try.value.verdict == V.Verified then WithCpu(sh2, Some(try.value.value)) else sh2,
               try.value.verdict, try.value.suppress)
  }

  function AutoGpu(sh: Shell, a: AutoTick, world: World): Shell {
    var sh1 := if a.gpuSeen.Some? then ScoreGpu(sh, a.gpuSeen.value, world) else sh;
    if !a.gpuDue || GpuReleased(sh, a.gpuSeen) || world.down || !world.hasGpu then sh1
    else WithGpu(Issue(sh1, CapGpu), if a.gpuApplied.Some? then a.gpuApplied else sh1.status.gpuMax)
  }

  /** The end of an engagement: fresh counters and timers, the verdict flags
      gone, and on the change itself both devices back to stock. */
  function Disengage(sh: Shell, changed: bool, world: World): Shell {
    var sh1 := sh.(auto := if sh.auto.Some? then Some(AutoState(V.FRESH, V.FRESH)) else None,
                   timers := sh.timers.(stick := 0, lastReassert := None));
    var sh2 := RemoveFlag(RemoveFlag(sh1, ReadbackBlind), LimitNotSticking);
    if !changed then sh2
    else
      var sh3 := if world.hasGpu then Issue(sh2, StockGpu) else sh2;
      var sh4 := if world.hasCpu then Issue(sh3, StockCpu) else sh3;
      WithGpu(WithCpu(sh4, None), None)
  }

  function AutoSample(sh: Shell, a: AutoTick, world: World): Shell {
    var sh1 := SyncAll(sh, a.flags);
    match a.engagement
    case Disengaged(changed) => Disengage(sh1, changed, world)
    case Engaged => AutoGpu(AutoCpu(sh1, a.cpu, world), a, world)
  }

  /** Re-applies whatever is commanded: the CPU cap by read-first repair, the
      GPU lock outright. */
  function Reassert(sh: Shell, m: Maintenance, world: World): Shell {
    if world.down then sh
    else
      var sh1 :=
        if sh.status.cpuLimit.Some? && world.hasCpu then
          ScoreCpu(if m.repaired then Issue(sh, CapCpu) else sh, m.verdict, m.suppress)
        else sh;
      if sh1.status.gpuMax.Some? && world.hasGpu then Issue(sh1, CapGpu) else sh1
  }

  function Resume(sh: Shell, s: Sample, m: Maintenance, world: World): Shell {
    if s.resumed then
      var sh1 := AddFlag(sh, Resumed);
      var sh2 := sh1.(timers := sh1.timers.(strictUntil := Some(s.t + RESUMED_STRICT_S), resumedUntil := Some(s.t + RESUMED_FLAG_S)),
                      auto := if sh.auto.Some? then Some(AutoState(V.FRESH, V.FRESH)) else None);
      var sh3 := Reassert(sh2, m, world);
      if Attempted(sh2, m, world) then sh3.(timers := sh3.timers.(lastReassert := Some(s.t))) else sh3
    else if sh.timers.resumedUntil.Some? && s.t >= sh.timers.resumedUntil.value then
      RemoveFlag(sh, Resumed).(timers := sh.timers.(resumedUntil := None))
    else sh
  }

  /** Whether a maintenance pass did more than a matching read. */
  predicate Attempted(sh: Shell, m: Maintenance, world: World) {
    && !world.down
    && ((sh.status.cpuLimit.Some? && world.hasCpu && (m.repaired || m.verdict != V.Verified))
        || (sh.status.gpuMax.Some? && world.hasGpu))
  }

  predicate InTrouble(sh: Shell) {
    sh.auto.Some? && (sh.auto.value.cpu.InEpisode() || sh.auto.value.gpu.InEpisode())
  }

  function NeededStreak(sh: Shell, s: Sample): nat {
    if sh.timers.strictUntil.Some? && s.t < sh.timers.strictUntil.value then STICKINESS_SAMPLES_STRICT else STICKINESS_SAMPLES
  }

  function Stickiness(sh: Shell, s: Sample, m: Maintenance, world: World): Shell {
    if sh.status.cpuLimit.None? || s.pkgW <= 0.0 then sh
    else if s.pkgW > sh.status.cpuLimit.value + STICKINESS_MARGIN_W then
      if sh.timers.stick + 1 >= NeededStreak(sh, s) then
        var sh1 := sh.(timers := sh.timers.(stick := 0));
        var sh2 := Reassert(sh1, m, world);
        AddFlag(if Attempted(sh1, m, world) then sh2.(timers := sh2.timers.(lastReassert := Some(s.t))) else sh2, LimitNotSticking)
      else sh.(timers := sh.timers.(stick := sh.timers.stick + 1))
    else
      var sh1 := sh.(timers := sh.timers.(stick := 0));
      if InTrouble(sh1) then sh1 else RemoveFlag(sh1, LimitNotSticking)
  }

  function Periodic(sh: Shell, s: Sample, m: Maintenance, world: World): Shell {
    if sh.status.cpuLimit.None? && sh.status.gpuMax.None? then sh
    else
      match sh.timers.lastReassert
      case None => sh.(timers := sh.timers.(lastReassert := Some(s.t)))
      case Some(last) =>
        if s.t - last >= REASSERT_PERIOD_S then Reassert(sh.(timers := sh.timers.(lastReassert := Some(s.t))), m, world) else sh
  }

  /** Resume, then the closed loops, then the two watches over the limits. */
  function Regulate(sh: Shell, s: Sample, tick: Tick, world: World): Outcome {
    var sh1 := Resume(sh, s, tick.onResume, world);
    var sh2 := if sh1.status.mode == Auto then AutoSample(sh1, tick.auto, world) else sh1;
    Drain(Periodic(Stickiness(sh2, s, tick.onStick, world), s, tick.periodic, world),
          if sh1.status.mode == Auto && tick.auto.engagement == Disengaged(true) then [Released] else [])
  }

  // ---- Calibrating samples ----

  predicate AtLeast(temp: Option<real>, hot: real) {
    temp.Some? && temp.value >= hot
  }

  /** A repair must not precede the runner's own thermal abort. */
  predicate TooHotToRepair(s: Sample, tick: Tick) {
    || AtLeast(s.cpuTemp, tick.limits.cpuHot) || AtLeast(s.gpuTemp, tick.limits.gpuHot)
    || (tick.sense.ecMax.Some? && tick.sense.ecMax.value >= StepTest.EC_MAX_ABORT_C)
  }

  /** A response about to conclude has its cap checked at once. */
  predicate FinishingResponse(st: StepTest.State, now: real) {
    && (st.sub == StepTest.CpuStep || st.sub == StepTest.GpuStep)
    && st.commandedAt.Some? && now - st.commandedAt.value >= StepTest.DEVICE_FIT_WINDOW_S
  }

  predicate CheckDue(sh: Shell, r: RunState, s: Sample, world: World) {
    && !world.down && sh.status.cpuLimit.Some? && world.hasCpu
    && (sh.evidence.cpuCheckedAt.None? || s.t - sh.evidence.cpuCheckedAt.value >= REASSERT_PERIOD_S
        || FinishingResponse(r.step, s.t))
  }

  predicate Repairs(sh: Shell, r: RunState, s: Sample, tick: Tick, world: World) {
    CheckDue(sh, r, s, world) && tick.check.observed == V.Mismatch && !TooHotToRepair(s, tick)
  }

  /** The CPU cap is read, and written again if it was found changed. */
  function CheckCap(sh: Shell, r: RunState, s: Sample, tick: Tick, world: World): Shell {
    if !CheckDue(sh, r, s, world) then sh
    else
      var verdict := if Repairs(sh, r, s, tick, world) then tick.check.repaired else tick.check.observed;
      (if Repairs(sh, r, s, tick, world) then Issue(sh, CapCpu) else sh).(
        evidence := sh.evidence.(cpuCheckedAt := Some(tick.check.at), cpuVerified := verdict == V.Verified))
  }

  /** One GPU clock reading against the calibration's own commands. */
  function GpuScore(evidence: Evidence, s: Sample, sense: Sense): (nat, bool) {
    if sense.gpuSm.None? || s.resumed then (evidence.gpuStreak, false)
    else
      var (streak, verdict) := G.Score(evidence.gpuStreak, G.Reading(sense.gpuUtil, sense.gpuSm.value, s.t, evidence.gpuCommands));
      (streak, verdict.Verified?)
  }

  /** What the step test is shown: the caps in force, the evidence for them and
      the configured limits. */
  function CalibInput(sh: Shell, s: Sample, tick: Tick, cpuReset: bool, gpuVerified: bool): StepTest.Input {
    StepTest.Input(
      StepTest.Sample(Finite(s.t), tick.sense.fan, tick.sense.ecMax, s.gpuTemp, s.cpuTemp),
      StepTest.Context(
        sh.status.cpuLimit, sh.evidence.cpuVerified, cpuReset, sh.evidence.cpuCompletedAt,
        sh.status.gpuMax, gpuVerified, sh.evidence.gpuCompletedAt,
        sh.fromAuto, tick.limits.cpuFloor, tick.limits.gpuFloor, tick.limits.cpuMax, tick.limits.gpuMax,
        tick.sense.cpuGroup, tick.sense.gpuGroup,
        tick.sense.fanctrlActive, tick.sense.ecMismatch, tick.sense.argmaxControllable,
        tick.limits.cpuHot, tick.limits.gpuHot, tick.sense.strategy, tick.sense.maInterval))
  }

  /** The state after the checks, and the input the runner is given. */
  function Prepared(sh: Shell, r: RunState, s: Sample, tick: Tick, world: World): (Shell, StepTest.Input) {
    var reset := CheckDue(sh, r, s, world) && tick.check.observed == V.Mismatch;
    var sh1 := CheckCap(sh, r, s, tick, world);
    var (streak, verified) := GpuScore(sh1.evidence, s, tick.sense);
    var sh2 := sh1.(evidence := sh1.evidence.(gpuStreak := streak));
    (sh2, CalibInput(sh2, s, tick, reset, verified))
  }

  /** A calibrating sample: check the caps, feed the runner, apply its batch. */
  function CalibSample(fit: StepTest.Fitter, sh: Shell, s: Sample, tick: Tick, world: World): Outcome {
    match sh.calib
    case None => Drain(EndCalibration(sh), [])
    case Some(r) =>
      var (sh1, x) := Prepared(sh, r, s, tick, world);
      var (r', effects) := TakeSample(fit, r, x);
      Drain(ApplyCalib(sh1.(calib := Some(r')), effects, true, world), [])
  }

  function Proceed(fit: StepTest.Fitter, sh: Shell, s: Sample, tick: Tick, world: World): Outcome {
    if sh.status.mode == Calibrating then CalibSample(fit, sh, s, tick, world)
    else if sh.status.mode == Auto && sh.hold then (sh.(hold := false), [])
    else Regulate(sh, s, tick, world)
  }

  function OnSample(fit: StepTest.Fitter, sh: Shell, s: Sample, tick: Tick, world: World): Outcome {
    if world.down then (sh, [])
    else
      var (watchdog, trip) := Observe(sh.watchdog, s);
      var sh1 := sh.(watchdog := watchdog);
      if trip == NoTrip then
        Proceed(fit, sh1.(idleWarned := sh1.idleWarned && !watchdog.IsQuiet()), s, tick, world)
      else if trip == Thermal && sh1.status.mode == Calibrating then
        EmergencyRelease(AbortRunner(sh1, world), Thermal, world)
      else if AnythingCommanded(sh1) then EmergencyRelease(sh1, trip, world)
      else Proceed(fit, sh1.(idleWarned := true, watchdog := ARMED), s, tick, world)
  }

  // ---- Runs ----

  datatype Call = Commanded(c: Command, world: World) | Ticked(s: Sample, tick: Tick, world: World)

  function Next(fit: StepTest.Fitter, sh: Shell, e: Call): Outcome {
    match e
    case Commanded(c, world) => OnCommand(sh, c, world)
    case Ticked(s, tick, world) => OnSample(fit, sh, s, tick, world)
  }

  /** State and everything returned after a run of events. */
  function Session(fit: StepTest.Fitter, start: Shell, events: seq<Call>): Outcome {
    if events == [] then (start, [])
    else
      var (sh, emitted) := Session(fit, start, events[..|events| - 1]);
      var (sh', effects) := Next(fit, sh, events[|events| - 1]);
      (sh', emitted + effects)
  }
}
