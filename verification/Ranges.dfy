/** The ranges the device loops are given: floors from the live configuration,
    maxima from the hot-guard ratchets. */
module Ranges {
  import opened Prelude
  import Config
  import opened Guards

  const CPU_HOT_STREAK: nat := 3
  const CPU_HOT_BAND_C := 3.0
  const CPU_RECOVERY_MARGIN_C := 5.0
  const GPU_RECOVERY_MARGIN_C := 4.0
  const U8_MAX: nat := 255

  /** A control sample's temperatures; None when the validity bit is off. */
  datatype Temps = Temps(cpu: Option<real>, gpu: Option<real>)

  datatype CpuGuard = CpuGuard(streak: nat, hot: bool)

  /** Three hot readings in a row enter; a missing or cool reading leaves. */
  function CpuGuardStep(g: CpuGuard, temp: Option<real>, hot: real): CpuGuard {
    var streak := if temp.Some? && temp.value >= hot then MinN(g.streak + 1, U8_MAX) else 0;
    CpuGuard(streak,
             if temp.None? || temp.value <= hot - CPU_HOT_BAND_C then false
             else if streak >= CPU_HOT_STREAK then true
             else g.hot)
  }

  datatype Axes = Axes(cpu: Ratchet, gpu: Ratchet, cpuGuard: CpuGuard, gpuHot: bool)

  function Entered(c: Config.Config): Axes
    requires Config.InRange(c)
  {
    Axes(NewRatchet(c.cpuFloor.v, c.cpuMax.v, c.cpuMax.v, CPU_DOWN_RATE_W, c.cpuHot.v - CPU_RECOVERY_MARGIN_C),
         NewRatchet(c.gpuFloor as real, c.gpuMax as real, c.gpuMax as real, GPU_DOWN_RATE_MHZ, c.gpuHot.v - GPU_RECOVERY_MARGIN_C),
         CpuGuard(0, false), false)
  }

  function Ticked(c: Config.Config, a: Axes, s: Temps): Axes
    requires Config.InRange(c)
  {
    var gpuHot := Hysteresis(a.gpuHot, s.gpu, c.gpuHot.v, GPU_HYSTERESIS_C);
    var cpuGuard := CpuGuardStep(a.cpuGuard, s.cpu, c.cpuHot.v);
    Axes(Stepped(WithFloor(a.cpu, c.cpuFloor.v), s.cpu.Some?, cpuGuard.hot, s.cpu),
         Stepped(WithFloor(a.gpu, c.gpuFloor as real), s.gpu.Some?, gpuHot, s.gpu),
         cpuGuard, gpuHot)
  }

  /** A resumed sample: both guards cold, the ratchets untouched. */
  function Cooled(a: Axes): Axes {
    a.(cpuGuard := CpuGuard(0, false), gpuHot := false)
  }

  /** The held sample after a calibration: cold guards that have seen this
      reading, the ratchets untouched. */
  function Reseeded(c: Config.Config, a: Axes, s: Temps): Axes
    requires Config.InRange(c)
  {
    a.(cpuGuard := CpuGuard(if s.cpu.Some? && s.cpu.value >= c.cpuHot.v then 1 else 0, false),
       gpuHot := Hysteresis(false, s.gpu, c.gpuHot.v, GPU_HYSTERESIS_C))
  }

  /** A floor edit goes through the same sanitation as loading. */
  function FloorsSet(c: Config.Config, cpuW: Float, gpuMhz: nat): Config.Config {
    Config.Sanitized(c.(cpuFloor := cpuW, gpuFloor := gpuMhz))
  }

  class ThermalRanges {
    const cpuRatchet: MaxRatchet
    const gpuRatchet: MaxRatchet
    var guards: GuardPair
    var cpuHotStreak: nat
    var cpuHot: bool

    ghost predicate Separate()
      reads this
    {
      cpuRatchet != gpuRatchet
    }

    ghost function Abs(): Axes
      reads this, cpuRatchet, gpuRatchet, guards
    {
      Axes(cpuRatchet.Abs(), gpuRatchet.Abs(), CpuGuard(cpuHotStreak, cpuHot), guards.gpuHot)
    }

    constructor (c: Config.Config)
      requires Config.InRange(c)
      ensures fresh(cpuRatchet) && fresh(gpuRatchet) && fresh(guards) && Separate()
      ensures Abs() == Entered(c) && guards.gpuEnter == c.gpuHot.v
    {
      cpuRatchet := new MaxRatchet(c.cpuFloor.v, c.cpuMax.v, c.cpuMax.v, CPU_DOWN_RATE_W, c.cpuHot.v - CPU_RECOVERY_MARGIN_C);
      gpuRatchet := new MaxRatchet(c.gpuFloor as real, c.gpuMax as real, c.gpuMax as real, GPU_DOWN_RATE_MHZ,
                                   c.gpuHot.v - GPU_RECOVERY_MARGIN_C);
      guards := new GuardPair(c.gpuHot.v, c.nvmeHot.v);
      cpuHotStreak, cpuHot := 0, false;
    }

    method StepCpuGuard(temp: Option<real>, hot: real)
      modifies this`cpuHotStreak, this`cpuHot
      ensures CpuGuard(cpuHotStreak, cpuHot) == CpuGuardStep(CpuGuard(old(cpuHotStreak), old(cpuHot)), temp, hot)
    {
      cpuHotStreak := if temp.Some? && temp.value >= hot then MinN(cpuHotStreak + 1, U8_MAX) else 0;
      if temp.None? || temp.value <= hot - CPU_HOT_BAND_C {
        cpuHot := false;
      } else if cpuHotStreak >= CPU_HOT_STREAK {
        cpuHot := true;
      }
    }

    /** One Auto sample: guards, live floors, then both ratchets. */
    method Tick(c: Config.Config, s: Temps, nvme: Option<real>) returns (cpuMax: real, gpuMax: real)
      requires Config.InRange(c) && Separate() && guards.gpuEnter == c.gpuHot.v
      modifies this`cpuHotStreak, this`cpuHot, cpuRatchet, gpuRatchet, guards
      ensures Abs() == Ticked(c, old(Abs()), s)
      ensures cpuMax == Abs().cpu.current && gpuMax == Abs().gpu.current
    {
      hide Stepped, WithFloor, Hysteresis, CpuGuardStep, Config.AtLeast;
      var gpuHot, nvmeHot := guards.Step(s.gpu, nvme);
      StepCpuGuard(s.cpu, c.cpuHot.v);
      cpuRatchet.SetFloor(c.cpuFloor.v);
      gpuRatchet.SetFloor(c.gpuFloor as real);
      cpuMax := cpuRatchet.Step(s.cpu.Some?, cpuHot, s.cpu);
      gpuMax := gpuRatchet.Step(s.gpu.Some?, gpuHot, s.gpu);
    }

    method Resume(c: Config.Config)
      requires Config.InRange(c)
      modifies this
      ensures Abs() == Cooled(old(Abs())) && fresh(guards) && guards.gpuEnter == c.gpuHot.v
    {
      cpuHotStreak, cpuHot := 0, false;
      guards := new GuardPair(c.gpuHot.v, c.nvmeHot.v);
    }

    /** Rebuilds both guards from the held sample. */
    method ReseedAfterCalibration(c: Config.Config, s: Temps, nvme: Option<real>)
      requires Config.InRange(c)
      modifies this
      ensures Abs() == Reseeded(c, old(Abs()), s) && fresh(guards) && guards.gpuEnter == c.gpuHot.v
    {
      hide Hysteresis, Config.AtLeast;
      cpuHotStreak, cpuHot := if s.cpu.Some? && s.cpu.value >= c.cpuHot.v then 1 else 0, false;
      guards := new GuardPair(c.gpuHot.v, c.nvmeHot.v);
      var gpuHot, nvmeHot := guards.Step(s.gpu, nvme);
    }
  }

  // ---- Every interleaving of edits, samples, resumes and Auto entries ----

  /** A resumed sample is a Resume followed by its Sampled. */
  datatype Event = SetFloors(cpuW: Float, gpuMhz: nat) | Sampled(temps: Temps) | EnterAuto | Resume | Reseed(held: Temps)

  datatype System = System(config: Config.Config, axes: Axes)

  predicate Sound(s: System) {
    && Config.InRange(s.config)
    && s.axes.cpu.Valid() && s.axes.gpu.Valid()
    && s.axes.cpu.ceiling <= s.config.cpuMax.v
    && s.axes.gpu.ceiling <= s.config.gpuMax as real
    && s.axes.cpu.downRate == CPU_DOWN_RATE_W && s.axes.gpu.downRate == GPU_DOWN_RATE_MHZ
    && s.axes.cpu.recovery == s.config.cpuHot.v - CPU_RECOVERY_MARGIN_C
    && s.axes.gpu.recovery == s.config.gpuHot.v - GPU_RECOVERY_MARGIN_C
  }

  function Next(s: System, e: Event): System
    requires Config.InRange(s.config)
  {
    match e
    case SetFloors(cpuW, gpuMhz) => s.(config := FloorsSet(s.config, cpuW, gpuMhz))
    case Sampled(temps) => s.(axes := Ticked(s.config, s.axes, temps))
    case EnterAuto => s.(axes := Entered(s.config))
    case Resume => s.(axes := Cooled(s.axes))
    case Reseed(held) => s.(axes := Reseeded(s.config, s.axes, held))
  }

  function Run(raw: Config.Config, events: seq<Event>): (s: System)
    ensures Config.InRange(s.config)
  {
    if events == [] then
      Config.SanitizedIsInRange(raw);
      System(Config.Sanitized(raw), Entered(Config.Sanitized(raw)))
    else
      var s := Run(raw, events[..|events| - 1]);
      FloorEdit(s.config, events[|events| - 1]);
      Next(s, events[|events| - 1])
  }

  /** A floor edit keeps the configuration in range, moves no limit but the
      floors, and raises the GPU maximum exactly when its floor exceeds it. */
  lemma {:induction false} FloorEdit(c: Config.Config, e: Event)
    requires Config.InRange(c)
    ensures e.SetFloors? ==>
              var c' := FloorsSet(c, e.cpuW, e.gpuMhz);
              && Config.InRange(c')
              && c'.cpuMax == c.cpuMax && c'.cpuHot == c.cpuHot && c'.gpuHot == c.gpuHot
              && c'.gpuMax >= c.gpuMax && (c'.gpuMax > c.gpuMax <==> c'.gpuFloor > c.gpuMax)
  {
    if e.SetFloors? {
      Config.SanitizedIsInRange(c.(cpuFloor := e.cpuW, gpuFloor := e.gpuMhz));
      hide Config.Override, Config.Positive;
    }
  }

  lemma {:induction false} EnteredIsSound(c: Config.Config)
    requires Config.InRange(c)
    ensures Sound(System(c, Entered(c)))
  {
  }

  lemma {:induction false} TickIsSound(s: System, temps: Temps)
    requires Sound(s)
    ensures Sound(Next(s, Sampled(temps)))
    ensures var a := Next(s, Sampled(temps)).axes;
            && s.config.cpuFloor.v <= a.cpu.current && s.config.gpuFloor as real <= a.gpu.current
  {
    hide Stepped, WithFloor, Hysteresis, CpuGuardStep, Config.AtLeast, Config.RawGains.IsValid;
    var gpuHot := Hysteresis(s.axes.gpuHot, temps.gpu, s.config.gpuHot.v, GPU_HYSTERESIS_C);
    var cpuHot := CpuGuardStep(s.axes.cpuGuard, temps.cpu, s.config.cpuHot.v).hot;
    RatchetStaysValid(s.axes.cpu, s.config.cpuFloor.v, temps.cpu.Some?, cpuHot, temps.cpu);
    RatchetStaysValid(s.axes.gpu, s.config.gpuFloor as real, temps.gpu.Some?, gpuHot, temps.gpu);
    RatesKept(s.axes.cpu, s.config.cpuFloor.v, temps.cpu.Some?, cpuHot, temps.cpu);
    RatesKept(s.axes.gpu, s.config.gpuFloor as real, temps.gpu.Some?, gpuHot, temps.gpu);
  }

  lemma {:induction false} RatesKept(r: Ratchet, floor: real, validControl: bool, active: bool, temp: Option<real>)
    ensures var r' := Stepped(WithFloor(r, floor), validControl, active, temp);
            r'.downRate == r.downRate && r'.recovery == r.recovery
  {
  }

  lemma {:induction false} RunIsSound(raw: Config.Config, events: seq<Event>)
    ensures Sound(Run(raw, events))
  {
    hide Config.Sanitized, Config.InRange, Ticked, Entered, Config.Within, Config.AtLeast;
    if events == [] {
      Config.SanitizedIsInRange(raw);
      EnteredIsSound(Config.Sanitized(raw));
    } else {
      RunIsSound(raw, events[..|events| - 1]);
      var s, e := Run(raw, events[..|events| - 1]), events[|events| - 1];
      FloorEdit(s.config, e);
      match e {
        case SetFloors(_, _) =>
        case Sampled(temps) => TickIsSound(s, temps);
        case EnterAuto => EnteredIsSound(s.config);
        case Resume =>
        case Reseed(_) =>
      }
    }
  }

  /** Ranges never invert: after any edits (even non-finite floors), samples,
      resumes, Auto entries and held re-entry samples, the next sample gives
      each loop a floor at most its maximum, the maximum at most the configured
      one, and that at most the hardware's. */
  lemma {:induction false} RangesNeverInvert(raw: Config.Config, events: seq<Event>, temps: Temps)
    ensures var s := Run(raw, events);
            var a := Ticked(s.config, s.axes, temps);
            && 0.0 <= s.config.cpuFloor.v <= a.cpu.current <= s.config.cpuMax.v <= Config.CPU_MAX_W
            && s.config.gpuFloor as real <= a.gpu.current <= s.config.gpuMax as real <= Config.GPU_MAX_MHZ as real
  {
    hide Run, Ticked;
    RunIsSound(raw, events);
    TickIsSound(Run(raw, events), temps);
  }

  /** In every run, resumes and held re-entry samples included, the GPU
      maximum rises on a sample exactly when the edited
      floor forces it, or when the guard is inactive with the die at least
      four degrees below its threshold and there is room above. */
  lemma {:induction false} GpuCeilingRisesOnlyCool(raw: Config.Config, events: seq<Event>, temps: Temps)
    ensures var s := Run(raw, events);
            var a := Ticked(s.config, s.axes, temps);
            a.gpu.current > s.axes.gpu.current <==>
              || s.config.gpuFloor as real > s.axes.gpu.current
              || (!a.gpuHot && temps.gpu.Some? && temps.gpu.value <= s.config.gpuHot.v - GPU_RECOVERY_MARGIN_C
                  && s.axes.gpu.current < s.axes.gpu.ceiling)
  {
    hide Run, Stepped, WithFloor, Hysteresis, CpuGuardStep, Config.AtLeast;
    RunIsSound(raw, events);
    var s := Run(raw, events);
    CeilingRisesOnlyCoolOrForced(s.axes.gpu, s.config.gpuFloor as real, temps.gpu.Some?,
                                 Hysteresis(s.axes.gpuHot, temps.gpu, s.config.gpuHot.v, GPU_HYSTERESIS_C), temps.gpu);
  }

  /** The loop's ceiling can lag the configured one: a GPU floor raised above
      the maximum and lowered again between two samples raises the configured
      maximum for good, but never reaches the ratchet. */
  lemma {:induction false} BriefFloorEditIsForgotten(raw: Config.Config, temps: Temps)
    requires raw.gpuFloor == 1000 && raw.gpuMax == 2000
    ensures var s := Run(raw, [SetFloors(raw.cpuFloor, 3000), SetFloors(raw.cpuFloor, 1000)]);
            && s.config.gpuMax == 3000
            && Ticked(s.config, s.axes, temps).gpu.current <= 2000.0
  {
    var a, b := SetFloors(raw.cpuFloor, 3000), SetFloors(raw.cpuFloor, 1000);
    assert [a, b][..1] == [a] && [a][..0] == [];
    var s0, s1 := Run(raw, []), Run(raw, [a]);
    hide Hysteresis, CpuGuardStep, Config.Override, Config.Positive;
    assert s0.config.gpuMax == 2000 && s0.axes.gpu.ceiling == 2000.0;
    assert s1.config.gpuMax == 3000 && s1.axes == s0.axes;
  }

  // ---- How far the loop's ceiling lags the configured maximum ----

  /** The configured GPU maximum at the last Auto entry. */
  function EntryMax(raw: Config.Config, events: seq<Event>): nat {
    if events == [] then Config.Sanitized(raw).gpuMax
    else if events[|events| - 1].EnterAuto? then Run(raw, events[..|events| - 1]).config.gpuMax
    else EntryMax(raw, events[..|events| - 1])
  }

  function MaxN(x: nat, y: nat): nat {
    if x >= y then x else y
  }

  /** The highest GPU floor in force at any sample since the last Auto entry. */
  function HighestSampledFloor(raw: Config.Config, events: seq<Event>): nat {
    if events == [] || events[|events| - 1].EnterAuto? then 0
    else
      var front := events[..|events| - 1];
      if events[|events| - 1].Sampled? then MaxN(HighestSampledFloor(raw, front), Run(raw, front).config.gpuFloor)
      else HighestSampledFloor(raw, front)
  }

  /** The highest GPU floor set since the last Auto entry. */
  function HighestSetFloor(raw: Config.Config, events: seq<Event>): nat {
    if events == [] || events[|events| - 1].EnterAuto? then 0
    else
      var front := events[..|events| - 1];
      if events[|events| - 1].SetFloors? then MaxN(HighestSetFloor(raw, front), Run(raw, events).config.gpuFloor)
      else HighestSetFloor(raw, front)
  }

  /** A sample since the last Auto entry saw this GPU floor. */
  predicate SampledUnder(raw: Config.Config, events: seq<Event>, floor: nat) {
    && events != [] && !events[|events| - 1].EnterAuto?
    && var front := events[..|events| - 1];
       (events[|events| - 1].Sampled? && Run(raw, front).config.gpuFloor == floor) || SampledUnder(raw, front, floor)
  }

  lemma {:induction false} EditedMaximum(c: Config.Config, cpuW: Float, gpuMhz: nat)
    requires Config.InRange(c)
    ensures var c' := FloorsSet(c, cpuW, gpuMhz); c'.gpuMax == MaxN(c.gpuMax, c'.gpuFloor)
  {
    hide Config.Override, Config.Positive, Config.Bounded, Config.CpuFloor;
  }

  lemma {:induction false} TickedCeilings(c: Config.Config, a: Axes, s: Temps)
    requires Config.InRange(c)
    ensures Ticked(c, a, s).gpu.ceiling == MaxR(a.gpu.ceiling, c.gpuFloor as real)
    ensures Ticked(c, a, s).cpu.ceiling == MaxR(a.cpu.ceiling, c.cpuFloor.v)
  {
    hide Hysteresis, CpuGuardStep;
  }

  /** The loop's GPU ceiling is the highest of the maximum at the last Auto
      entry and the floors its samples saw; the configured maximum is the
      highest of the same entry maximum and the floors set. The CPU ceiling is
      always the configured one. */
  lemma {:induction false} CeilingsFollowFloors(raw: Config.Config, events: seq<Event>)
    ensures var s := Run(raw, events);
            && s.axes.gpu.ceiling == MaxN(EntryMax(raw, events), HighestSampledFloor(raw, events)) as real
            && s.config.gpuMax == MaxN(EntryMax(raw, events), HighestSetFloor(raw, events))
            && s.axes.cpu.ceiling == s.config.cpuMax.v
  {
    hide Config.Sanitized, FloorsSet, Ticked, Config.AtLeast, Config.RawGains.IsValid;
    if events == [] {
      Config.SanitizedIsInRange(raw);
    } else {
      var front, e := events[..|events| - 1], events[|events| - 1];
      CeilingsFollowFloors(raw, front);
      var s := Run(raw, front);
      FloorEdit(s.config, e);
      match e {
        case SetFloors(cpuW, gpuMhz) => EditedMaximum(s.config, cpuW, gpuMhz);
        case Sampled(temps) => TickedCeilings(s.config, s.axes, temps);
        case EnterAuto =>
        case Resume =>
        case Reseed(_) =>
      }
    }
  }

  /** Floors seen by samples were set since the entry, or were in force at it. */
  lemma {:induction false} SampledFloorsWereSet(raw: Config.Config, events: seq<Event>, floor: nat)
    ensures HighestSampledFloor(raw, events) > 0 ==> SampledUnder(raw, events, HighestSampledFloor(raw, events))
    ensures SampledUnder(raw, events, floor) ==> floor <= HighestSampledFloor(raw, events)
    ensures HighestSampledFloor(raw, events) <= MaxN(EntryMax(raw, events), HighestSetFloor(raw, events))
  {
    hide Run;
    if events != [] {
      var front := events[..|events| - 1];
      SampledFloorsWereSet(raw, front, floor);
      CeilingsFollowFloors(raw, front);
    }
  }

  /** The loop's ceiling is the configured maximum exactly when the highest
      GPU floor set since the last Auto entry was at most the maximum at that
      entry, or some sample since saw it in force. */
  lemma {:induction false} CeilingIsConfigured(raw: Config.Config, events: seq<Event>)
    ensures var s, highest := Run(raw, events), HighestSetFloor(raw, events);
            s.axes.gpu.ceiling == s.config.gpuMax as real <==>
              highest <= EntryMax(raw, events) || SampledUnder(raw, events, highest)
  {
    hide Run, HighestSetFloor, HighestSampledFloor, EntryMax, SampledUnder;
    CeilingsFollowFloors(raw, events);
    SampledFloorsWereSet(raw, events, HighestSetFloor(raw, events));
  }

  // ---- The guards ----

  function CpuGuardAfter(temps: seq<Option<real>>, hot: real): CpuGuard {
    if temps == [] then CpuGuard(0, false)
    else CpuGuardStep(CpuGuardAfter(temps[..|temps| - 1], hot), temps[|temps| - 1], hot)
  }

  predicate AtHot(t: Option<real>, hot: real) {
    t.Some? && t.value >= hot
  }

  predicate Warm(t: Option<real>, hot: real) {
    t.Some? && t.value > hot - CPU_HOT_BAND_C
  }

  ghost predicate TripledAt(temps: seq<Option<real>>, hot: real, i: nat) {
    && 2 <= i < |temps|
    && AtHot(temps[i - 2], hot) && AtHot(temps[i - 1], hot) && AtHot(temps[i], hot)
    && forall j :: i <= j < |temps| ==> Warm(temps[j], hot)
  }

  lemma {:induction false} StreakMeaning(temps: seq<Option<real>>, hot: real)
    ensures var n := CpuGuardAfter(temps, hot).streak;
            && (n >= 1 <==> |temps| >= 1 && AtHot(temps[|temps| - 1], hot))
            && (n >= 2 <==> |temps| >= 2 && AtHot(temps[|temps| - 1], hot) && AtHot(temps[|temps| - 2], hot))
            && (n >= 3 <==> |temps| >= 3 && AtHot(temps[|temps| - 1], hot) && AtHot(temps[|temps| - 2], hot) && AtHot(temps[|temps| - 3], hot))
  {
    if temps != [] {
      StreakMeaning(temps[..|temps| - 1], hot);
    }
  }

  lemma {:induction false} TripledExtends(temps: seq<Option<real>>, t: Option<real>, hot: real, i: nat)
    requires i <= |temps|
    ensures TripledAt(temps + [t], hot, i) <==>
              if i < |temps| then TripledAt(temps, hot, i) && Warm(t, hot)
              else i >= 2 && AtHot(temps[i - 2], hot) && AtHot(temps[i - 1], hot) && AtHot(t, hot)
  {
    assert (temps + [t])[|temps|] == t;
    assert forall j :: 0 <= j < |temps| ==> (temps + [t])[j] == temps[j];
  }

  lemma {:induction false} TripledSnoc(front: seq<Option<real>>, t: Option<real>, hot: real)
    ensures (exists i: nat :: TripledAt(front + [t], hot, i)) <==>
              || ((exists i: nat :: TripledAt(front, hot, i)) && Warm(t, hot))
              || (|front| >= 2 && AtHot(front[|front| - 2], hot) && AtHot(front[|front| - 1], hot) && AtHot(t, hot))
  {
    hide TripledAt, AtHot, Warm;
    var temps := front + [t];
    if i: nat :| TripledAt(temps, hot, i) {
      TripledInside(temps, hot);
      TripledExtends(front, t, hot, i);
    }
    if i: nat :| TripledAt(front, hot, i) {
      TripledInside(front, hot);
      TripledExtends(front, t, hot, i);
    }
    TripledExtends(front, t, hot, |front|);
  }

  /** The CPU guard is hot exactly when three consecutive readings reached the
      threshold and every reading since was available and within three degrees. */
  lemma {:induction false} CpuGuardMeaning(temps: seq<Option<real>>, hot: real)
    ensures CpuGuardAfter(temps, hot).hot <==> exists i: nat :: TripledAt(temps, hot, i)
  {
    hide TripledAt;
    if temps == [] {
      NeverTripled(hot);
    } else {
      var front, t := temps[..|temps| - 1], temps[|temps| - 1];
      assert temps == front + [t];
      CpuGuardMeaning(front, hot);
      StreakMeaning(temps, hot);
      TripledSnoc(front, t, hot);
    }
  }

  lemma {:induction false} NeverTripled(hot: real)
    ensures forall i: nat :: !TripledAt([], hot, i)
  {
  }

  lemma {:induction false} TripledInside(temps: seq<Option<real>>, hot: real)
    ensures forall i: nat :: TripledAt(temps, hot, i) ==> i < |temps|
  {
  }

  // ---- The guards in every run ----

  /** The readings since the guards were last made cold. */
  function SinceCold(events: seq<Event>): seq<Temps> {
    if events == [] then []
    else
      var front := events[..|events| - 1];
      match events[|events| - 1]
      case SetFloors(_, _) => SinceCold(front)
      case Sampled(temps) => SinceCold(front) + [temps]
      case EnterAuto => []
      case Resume => []
      case Reseed(held) => [held]
  }

  function CpuTemps(temps: seq<Temps>): (r: seq<Option<real>>)
    ensures |r| == |temps| && forall i :: 0 <= i < |r| ==> r[i] == temps[i].cpu
  {
    seq(|temps|, i requires 0 <= i < |temps| => temps[i].cpu)
  }

  function GpuTemps(temps: seq<Temps>): (r: seq<Option<real>>)
    ensures |r| == |temps| && forall i :: 0 <= i < |r| ==> r[i] == temps[i].gpu
  {
    seq(|temps|, i requires 0 <= i < |temps| => temps[i].gpu)
  }

  lemma {:induction false} OneMoreReading(temps: seq<Temps>, t: Temps, cpuHot: real, gpuHot: real)
    ensures CpuGuardAfter(CpuTemps(temps + [t]), cpuHot) == CpuGuardStep(CpuGuardAfter(CpuTemps(temps), cpuHot), t.cpu, cpuHot)
    ensures HotAfter(GpuTemps(temps + [t]), gpuHot, GPU_HYSTERESIS_C)
         == Hysteresis(HotAfter(GpuTemps(temps), gpuHot, GPU_HYSTERESIS_C), t.gpu, gpuHot, GPU_HYSTERESIS_C)
  {
    hide CpuGuardStep, Hysteresis;
    var all := temps + [t];
    assert CpuTemps(all)[..|temps|] == CpuTemps(temps) && GpuTemps(all)[..|temps|] == GpuTemps(temps);
  }

  lemma {:induction false} ColdReading(t: Temps, cpuHot: real, gpuHot: real)
    ensures CpuGuardAfter(CpuTemps([t]), cpuHot) == CpuGuard(if t.cpu.Some? && t.cpu.value >= cpuHot then 1 else 0, false)
    ensures HotAfter(GpuTemps([t]), gpuHot, GPU_HYSTERESIS_C) == Hysteresis(false, t.gpu, gpuHot, GPU_HYSTERESIS_C)
  {
    hide Hysteresis;
    assert [] + [t] == [t];
    OneMoreReading([], t, cpuHot, gpuHot);
  }

  /** In every run both guards are those of the readings since they were last
      cold, under thresholds that never move. */
  lemma {:induction false} GuardsSinceCold(raw: Config.Config, events: seq<Event>)
    ensures var s := Run(raw, events);
            && s.config.cpuHot == Config.Sanitized(raw).cpuHot && s.config.gpuHot == Config.Sanitized(raw).gpuHot
            && s.axes.cpuGuard == CpuGuardAfter(CpuTemps(SinceCold(events)), s.config.cpuHot.v)
            && s.axes.gpuHot == HotAfter(GpuTemps(SinceCold(events)), s.config.gpuHot.v, GPU_HYSTERESIS_C)
  {
    hide Config.Sanitized, FloorsSet, Config.AtLeast, Config.RawGains.IsValid, CpuGuardStep, Hysteresis, Stepped, WithFloor;
    if events != [] {
      var front, e := events[..|events| - 1], events[|events| - 1];
      GuardsSinceCold(raw, front);
      var s := Run(raw, front);
      FloorEdit(s.config, e);
      hide CpuGuardAfter, HotAfter;
      ColdGuards(s.config.cpuHot.v, s.config.gpuHot.v);
      match e {
        case SetFloors(_, _) =>
        case Sampled(temps) => OneMoreReading(SinceCold(front), temps, s.config.cpuHot.v, s.config.gpuHot.v);
        case EnterAuto =>
        case Resume =>
        case Reseed(held) => ColdReading(held, s.config.cpuHot.v, s.config.gpuHot.v);
      }
    }
  }

  lemma {:induction false} ColdGuards(cpuHot: real, gpuHot: real)
    ensures CpuGuardAfter(CpuTemps([]), cpuHot) == CpuGuard(0, false) && !HotAfter(GpuTemps([]), gpuHot, GPU_HYSTERESIS_C)
  {
  }

  /** Over every run of edits, samples, resumes, entries and held samples: the
      CPU guard is hot exactly when, since the guards were last cold, three
      readings in a row reached the threshold and every later one stayed within
      three degrees; the GPU guard exactly when some reading since reached its
      threshold and none after it was missing or two degrees below. */
  lemma {:induction false} GuardMeanings(raw: Config.Config, events: seq<Event>)
    ensures var s := Run(raw, events);
            && (s.axes.cpuGuard.hot <==> exists i: nat :: TripledAt(CpuTemps(SinceCold(events)), s.config.cpuHot.v, i))
            && (s.axes.gpuHot <==> exists i: nat :: HotSince(GpuTemps(SinceCold(events)), s.config.gpuHot.v, GPU_HYSTERESIS_C, i))
  {
    hide Run, TripledAt, HotSince, CpuGuardAfter, HotAfter, SinceCold;
    GuardsSinceCold(raw, events);
    var s := Run(raw, events);
    CpuGuardMeaning(CpuTemps(SinceCold(events)), s.config.cpuHot.v);
    HysteresisMeaning(GpuTemps(SinceCold(events)), s.config.gpuHot.v, GPU_HYSTERESIS_C);
  }

  // ---- How the maxima move ----

  /** In every run a sample lowers a loop's maximum exactly when it is valid,
      leaves that guard hot and finds room above the floor; and then by the
      whole rate, or to exactly the floor. */
  lemma {:induction false} MaximaFallExactlyHot(raw: Config.Config, events: seq<Event>, temps: Temps)
    ensures var s := Run(raw, events);
            var a := Ticked(s.config, s.axes, temps);
            && (a.cpu.current < s.axes.cpu.current <==>
                  temps.cpu.Some? && a.cpuGuard.hot && s.axes.cpu.current > s.config.cpuFloor.v)
            && (a.gpu.current < s.axes.gpu.current <==>
                  temps.gpu.Some? && a.gpuHot && s.axes.gpu.current > s.config.gpuFloor as real)
            && (a.cpu.current < s.axes.cpu.current ==> a.cpu.current == MaxR(s.config.cpuFloor.v, s.axes.cpu.current - 2.0))
            && (a.gpu.current < s.axes.gpu.current ==> a.gpu.current == MaxR(s.config.gpuFloor as real, s.axes.gpu.current - 105.0))
  {
    hide Run, Stepped, WithFloor, Hysteresis, CpuGuardStep, Config.AtLeast;
    RunIsSound(raw, events);
    var s := Run(raw, events);
    var gpuHot := Hysteresis(s.axes.gpuHot, temps.gpu, s.config.gpuHot.v, GPU_HYSTERESIS_C);
    var cpuHot := CpuGuardStep(s.axes.cpuGuard, temps.cpu, s.config.cpuHot.v).hot;
    HotGuardLowers(s.axes.cpu, s.config.cpuFloor.v, temps.cpu.Some?, cpuHot, temps.cpu);
    HotGuardLowers(s.axes.gpu, s.config.gpuFloor as real, temps.gpu.Some?, gpuHot, temps.gpu);
  }

  function Samples(temps: seq<Temps>): (events: seq<Event>)
    ensures |events| == |temps| && forall i :: 0 <= i < |temps| ==> events[i] == Sampled(temps[i])
  {
    seq(|temps|, i requires 0 <= i < |temps| => Sampled(temps[i]))
  }

  lemma {:induction false} RunSnoc(raw: Config.Config, events: seq<Event>, temps: seq<Temps>)
    requires temps != []
    ensures var s := Run(raw, events + Samples(temps[..|temps| - 1]));
            Run(raw, events + Samples(temps)) == s.(axes := Ticked(s.config, s.axes, temps[|temps| - 1]))
  {
    hide Ticked;
    var all := events + Samples(temps);
    assert all[..|all| - 1] == events + Samples(temps[..|temps| - 1]);
  }

  /** A floored fall of n steps, one more step. */
  lemma {:induction false} FallStep(floor: real, start: real, rate: real, n: nat, now: real, next: real)
    requires start >= floor && rate > 0.0 && now == MaxR(floor, start - n as real * rate)
    requires if now > floor then next == MaxR(floor, now - rate) else next == now
    ensures next == MaxR(floor, start - (n + 1) as real * rate)
  {
    var p, q := n as real * rate, (n + 1) as real * rate;
    assert q == p + rate;
  }

  /** After any run, n further samples with a hot die leave the GPU maximum at
      the higher of the floor and the start less n times 105 MHz. */
  lemma {:induction false} HotSamplesLowerGpu(raw: Config.Config, events: seq<Event>, temps: seq<Temps>)
    requires Run(raw, events).axes.gpu.current >= Run(raw, events).config.gpuFloor as real
    requires forall i :: 0 <= i < |temps| ==> temps[i].gpu.Some? && temps[i].gpu.value >= Run(raw, events).config.gpuHot.v
    ensures var s, s' := Run(raw, events), Run(raw, events + Samples(temps));
            && s'.config == s.config
            && s'.axes.gpu.current == MaxR(s.config.gpuFloor as real, s.axes.gpu.current - |temps| as real * 105.0)
  {
    hide Ticked, Run;
    var s := Run(raw, events);
    if temps == [] {
      assert events + Samples(temps) == events;
    } else {
      var front, t := temps[..|temps| - 1], temps[|temps| - 1];
      HotSamplesLowerGpu(raw, events, front);
      RunSnoc(raw, events, temps);
      var before := Run(raw, events + Samples(front));
      HotDie(before, t);
      MaximaFallExactlyHot(raw, events + Samples(front), t);
      GpuCeilingRisesOnlyCool(raw, events + Samples(front), t);
      FallStep(s.config.gpuFloor as real, s.axes.gpu.current, 105.0, |front|, before.axes.gpu.current,
               Ticked(before.config, before.axes, t).gpu.current);
    }
  }

  lemma {:induction false} HotDie(s: System, t: Temps)
    requires Config.InRange(s.config) && t.gpu.Some? && t.gpu.value >= s.config.gpuHot.v
    ensures Ticked(s.config, s.axes, t).gpuHot
  {
    hide Stepped, WithFloor, CpuGuardStep;
  }

  lemma {:induction false} WarmKeepsGuard(s: System, t: Temps)
    requires Config.InRange(s.config) && s.axes.cpuGuard.hot && Warm(t.cpu, s.config.cpuHot.v)
    ensures Ticked(s.config, s.axes, t).cpuGuard.hot
    ensures s.axes.cpu.Valid() && s.axes.cpu.current >= s.config.cpuFloor.v ==>
              Ticked(s.config, s.axes, t).cpu.current <= s.axes.cpu.current
  {
    hide Hysteresis;
  }

  /** After any run that leaves the CPU guard hot, n further readings within
      three degrees of the threshold leave the CPU maximum at the higher of the
      floor and the start less n times 2 W. */
  lemma {:induction false} WarmSamplesLowerCpu(raw: Config.Config, events: seq<Event>, temps: seq<Temps>)
    requires Run(raw, events).axes.cpuGuard.hot && Run(raw, events).axes.cpu.current >= Run(raw, events).config.cpuFloor.v
    requires forall i :: 0 <= i < |temps| ==> Warm(temps[i].cpu, Run(raw, events).config.cpuHot.v)
    ensures var s, s' := Run(raw, events), Run(raw, events + Samples(temps));
            && s'.config == s.config && s'.axes.cpuGuard.hot
            && s'.axes.cpu.current == MaxR(s.config.cpuFloor.v, s.axes.cpu.current - |temps| as real * 2.0)
  {
    hide Ticked, Run;
    var s := Run(raw, events);
    if temps == [] {
      assert events + Samples(temps) == events;
    } else {
      var front, t := temps[..|temps| - 1], temps[|temps| - 1];
      WarmSamplesLowerCpu(raw, events, front);
      RunSnoc(raw, events, temps);
      var before := Run(raw, events + Samples(front));
      RunIsSound(raw, events + Samples(front));
      WarmKeepsGuard(before, t);
      MaximaFallExactlyHot(raw, events + Samples(front), t);
      FallStep(s.config.cpuFloor.v, s.axes.cpu.current, 2.0, |front|, before.axes.cpu.current,
               Ticked(before.config, before.axes, t).cpu.current);
    }
  }

  /** Entering Auto starts each loop at its configured maximum. */
  lemma {:induction false} EntryStartsAtMaxima(raw: Config.Config, events: seq<Event>)
    ensures var s := Run(raw, events + [EnterAuto]);
            s.axes.cpu.current == s.config.cpuMax.v && s.axes.gpu.current == s.config.gpuMax as real
  {
    hide Config.AtLeast;
    assert (events + [EnterAuto])[..|events|] == events;
  }
}
