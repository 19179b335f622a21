/** The part of the configuration that bounds the controller, and its
    sanitation. */
module Config {
  import opened Prelude
  import GpuVerify

  const CPU_MAX_W := 54.0
  const CPU_MAX_W_FLOOR := 10.0
  const GPU_MAX_MHZ: nat := 3090
  const CPU_FLOOR_DEFAULT_W := 15.0
  const CPU_HOT_C_FLOOR := 82.0
  const CPU_TRIP_C := 95.0
  const CPU_HOT_C_DEFAULT := 90.0
  const GPU_HOT_C_FLOOR := 85.0
  const GPU_TRIP_C := 91.0
  const GPU_HYSTERESIS_C := 2.0
  const GPU_HOT_C_CEIL := GPU_TRIP_C - GPU_HYSTERESIS_C
  const GPU_HOT_C_DEFAULT := 88.0
  const NVME_HOT_C_FLOOR := 50.0
  const NVME_HOT_C_CEIL := 90.0
  const NVME_HOT_C_DEFAULT := 80.0

  /** A gain override as read from the file. */
  datatype RawGains = RawGains(kc: Float, ti: Float) {
    predicate IsValid() {
      kc.Finite? && kc.v > 0.0 && ti.Finite? && ti.v > 0.0
    }
  }

  datatype Config = Config(
    gpuFloor: nat, gpuMax: nat, cpuMax: Float, cpuFloor: Float,
    headroomCpu: Float, headroomGpu: Float, fallCpu: Float, fallGpu: Float,
    cpuHot: Float, gpuHot: Float, nvmeHot: Float,
    cpuGains: Option<RawGains>, gpuGains: Option<RawGains>)

  /** Clamped when finite, else a fallback. */
  function Bounded(x: Float, lo: real, hi: real, fallback: real): Float
    requires lo <= hi
  {
    Finite(if x.Finite? then ClampR(x.v, lo, hi) else fallback)
  }

  function Positive(x: Float, floor: real): Float {
    Finite(if x.Finite? then MaxR(x.v, floor) else floor)
  }

  function Override(g: Option<RawGains>): Option<RawGains> {
    if g.Some? && !g.value.IsValid() then None else g
  }

  /** The CPU floor is bounded by the sanitized maximum. */
  function CpuFloor(floor: Float, max: real): Float
    requires 0.0 <= max
  {
    Bounded(floor, 0.0, max, MinR(CPU_FLOOR_DEFAULT_W, max))
  }

  function Sanitized(c: Config): Config {
    var gpuFloor := GpuVerify.ClampGpuClock(c.gpuFloor);
    var cpuMax := Bounded(c.cpuMax, CPU_MAX_W_FLOOR, CPU_MAX_W, CPU_MAX_W);
    Config(gpuFloor, ClampN(c.gpuMax, gpuFloor, GPU_MAX_MHZ), cpuMax, CpuFloor(c.cpuFloor, cpuMax.v),
           Positive(c.headroomCpu, 1.0), Positive(c.headroomGpu, 30.0), Positive(c.fallCpu, 0.05), Positive(c.fallGpu, 1.0),
           Bounded(c.cpuHot, CPU_HOT_C_FLOOR, CPU_TRIP_C - 1.0, CPU_HOT_C_DEFAULT),
           Bounded(c.gpuHot, GPU_HOT_C_FLOOR, GPU_HOT_C_CEIL, GPU_HOT_C_DEFAULT),
           Bounded(c.nvmeHot, NVME_HOT_C_FLOOR, NVME_HOT_C_CEIL, NVME_HOT_C_DEFAULT),
           Override(c.cpuGains), Override(c.gpuGains))
  }

  /** Rewrites the configuration field by field; later fields depend on the
      already rewritten ones. */
  method Sanitize(raw: Config) returns (c: Config)
    ensures c == Sanitized(raw)
  {
    hide MinR, MaxR;
    c := raw;
    c := c.(gpuFloor := GpuVerify.ClampGpuClock(c.gpuFloor));
    c := c.(gpuMax := ClampN(c.gpuMax, c.gpuFloor, GPU_MAX_MHZ));
    c := c.(cpuMax := Finite(if c.cpuMax.Finite? then ClampR(c.cpuMax.v, CPU_MAX_W_FLOOR, CPU_MAX_W) else CPU_MAX_W));
    c := c.(cpuFloor := Finite(if c.cpuFloor.Finite? then ClampR(c.cpuFloor.v, 0.0, c.cpuMax.v)
                               else MinR(CPU_FLOOR_DEFAULT_W, c.cpuMax.v)));
    var headroomCpu := SanitizePositive(c.headroomCpu, 1.0);
    var headroomGpu := SanitizePositive(c.headroomGpu, 30.0);
    var fallCpu := SanitizePositive(c.fallCpu, 0.05);
    var fallGpu := SanitizePositive(c.fallGpu, 1.0);
    c := c.(headroomCpu := headroomCpu, headroomGpu := headroomGpu, fallCpu := fallCpu, fallGpu := fallGpu);
    c := c.(cpuHot := Bounded(c.cpuHot, CPU_HOT_C_FLOOR, CPU_TRIP_C - 1.0, CPU_HOT_C_DEFAULT));
    if c.cpuGains.Some? && !c.cpuGains.value.IsValid() {
      c := c.(cpuGains := None);
    }
    if c.gpuGains.Some? && !c.gpuGains.value.IsValid() {
      c := c.(gpuGains := None);
    }
    c := c.(gpuHot := Bounded(c.gpuHot, GPU_HOT_C_FLOOR, GPU_HOT_C_CEIL, GPU_HOT_C_DEFAULT));
    c := c.(nvmeHot := Bounded(c.nvmeHot, NVME_HOT_C_FLOOR, NVME_HOT_C_CEIL, NVME_HOT_C_DEFAULT));
  }

  method SanitizePositive(value: Float, floor: real) returns (r: Float)
    ensures r == Positive(value, floor)
  {
    r := value;
    var sanitized := if r.Finite? then MaxR(r.v, floor) else floor;
    if r.NonFinite? || sanitized != r.v {
      r := Finite(sanitized);
    }
  }

  predicate Within(x: Float, lo: real, hi: real) {
    x.Finite? && lo <= x.v <= hi
  }

  predicate AtLeast(x: Float, floor: real) {
    x.Finite? && x.v >= floor
  }

  /** Everything the controller relies on. */
  predicate InRange(c: Config) {
    && GpuVerify.MIN_MAX_CLOCK_MHZ <= c.gpuFloor <= c.gpuMax <= GPU_MAX_MHZ
    && Within(c.cpuMax, CPU_MAX_W_FLOOR, CPU_MAX_W)
    && Within(c.cpuFloor, 0.0, c.cpuMax.v)
    && AtLeast(c.headroomCpu, 1.0) && AtLeast(c.headroomGpu, 30.0) && AtLeast(c.fallCpu, 0.05) && AtLeast(c.fallGpu, 1.0)
    && Within(c.cpuHot, CPU_HOT_C_FLOOR, CPU_TRIP_C - 1.0)
    && Within(c.gpuHot, GPU_HOT_C_FLOOR, GPU_HOT_C_CEIL)
    && Within(c.nvmeHot, NVME_HOT_C_FLOOR, NVME_HOT_C_CEIL)
    && (c.cpuGains.Some? ==> c.cpuGains.value.IsValid())
    && (c.gpuGains.Some? ==> c.gpuGains.value.IsValid())
  }

  lemma {:induction false} SanitizedIsInRange(c: Config)
    ensures InRange(Sanitized(c))
  {
    hide Override;
    assert forall g :: Override(g).Some? ==> Override(g).value.IsValid() by { OverridesAreValid(); }
  }

  lemma {:induction false} OverridesAreValid()
    ensures forall g :: Override(g).Some? ==> Override(g).value.IsValid()
  {
  }

  /** Sanitation is a projection onto the in-range configurations: it leaves
      exactly those alone, and doing it twice is doing it once. */
  lemma {:induction false} SanitizedIsProjection(c: Config)
    ensures Sanitized(c) == c <==> InRange(c)
    ensures Sanitized(Sanitized(c)) == Sanitized(c)
  {
    SanitizedIsInRange(c);
    InRangeIsFixed(Sanitized(c));
    if InRange(c) {
      InRangeIsFixed(c);
    }
    hide Sanitized, InRange;
  }

  lemma {:induction false} InRangeIsFixed(c: Config)
    requires InRange(c)
    ensures Sanitized(c) == c
  {
    hide RawGains.IsValid;
  }

  function Distance(x: real, y: real): real {
    AbsR(x - y)
  }

  function Gap(x: nat, y: nat): nat {
    if x < y then y - x else x - y
  }

  /** Of the values in range, the one closest to what was written, or the
      default where that was no number. */
  ghost predicate Settled(raw: Float, lo: real, hi: real, fallback: real, r: Float) {
    && r.Finite? && lo <= r.v <= hi
    && (raw.Finite? ==> forall x :: lo <= x <= hi ==> Distance(r.v, raw.v) <= Distance(x, raw.v))
    && (raw.NonFinite? ==> r.v == fallback)
  }

  /** The same with no upper bound, where the floor is the default. */
  ghost predicate Raised(raw: Float, floor: real, r: Float) {
    && r.Finite? && r.v >= floor
    && (raw.Finite? ==> forall x :: x >= floor ==> Distance(r.v, raw.v) <= Distance(x, raw.v))
    && (raw.NonFinite? ==> r.v == floor)
  }

  ghost predicate SettledClock(raw: nat, lo: nat, hi: nat, r: nat) {
    lo <= r <= hi && forall x: nat :: lo <= x <= hi ==> Gap(r, raw) <= Gap(x, raw)
  }

  lemma {:induction false} BoundedSettles(x: Float, lo: real, hi: real, fallback: real)
    requires lo <= fallback <= hi
    ensures Settled(x, lo, hi, fallback, Bounded(x, lo, hi, fallback))
  {
  }

  lemma {:induction false} PositiveRaises(x: Float, floor: real)
    ensures Raised(x, floor, Positive(x, floor))
  {
  }

  lemma {:induction false} ClampSettles(x: nat, lo: nat, hi: nat)
    requires lo <= hi
    ensures SettledClock(x, lo, hi, ClampN(x, lo, hi))
  {
  }

  /** Sanitation never moves a value further than it must: every number goes to
      the nearest value in its range, the two maxima and the CPU floor in the
      ranges the other fields were given, and what is no number goes to its
      default. A gain override survives exactly when it is valid. */
  lemma {:induction false} SanitizedIsNearest(c: Config)
    ensures var d := Sanitized(c);
            && SettledClock(c.gpuFloor, GpuVerify.MIN_MAX_CLOCK_MHZ, GpuVerify.MAX_MAX_CLOCK_MHZ, d.gpuFloor)
            && SettledClock(c.gpuMax, d.gpuFloor, 3090, d.gpuMax)
            && Settled(c.cpuMax, 10.0, 54.0, 54.0, d.cpuMax)
            && Settled(c.cpuFloor, 0.0, d.cpuMax.v, if d.cpuMax.v < 15.0 then d.cpuMax.v else 15.0, d.cpuFloor)
            && Raised(c.headroomCpu, 1.0, d.headroomCpu) && Raised(c.headroomGpu, 30.0, d.headroomGpu)
            && Raised(c.fallCpu, 0.05, d.fallCpu) && Raised(c.fallGpu, 1.0, d.fallGpu)
            && Settled(c.cpuHot, 82.0, 94.0, 90.0, d.cpuHot) && Settled(c.gpuHot, 85.0, 89.0, 88.0, d.gpuHot)
            && Settled(c.nvmeHot, 50.0, 90.0, 80.0, d.nvmeHot)
            && d.cpuGains == (if c.cpuGains.Some? && c.cpuGains.value.IsValid() then c.cpuGains else None)
            && d.gpuGains == (if c.gpuGains.Some? && c.gpuGains.value.IsValid() then c.gpuGains else None)
  {
    hide Settled, Raised, SettledClock, Bounded, Positive, ClampN, RawGains.IsValid;
    ClampSettles(c.gpuFloor, GpuVerify.MIN_MAX_CLOCK_MHZ, GpuVerify.MAX_MAX_CLOCK_MHZ);
    FloorIsAClock(c.gpuFloor);
    ClampSettles(c.gpuMax, GpuVerify.ClampGpuClock(c.gpuFloor), GPU_MAX_MHZ);
    BoundedSettles(c.cpuMax, 10.0, 54.0, 54.0);
    var max := Bounded(c.cpuMax, 10.0, 54.0, 54.0).v;
    SettledWithin(c.cpuMax, 10.0, 54.0, 54.0, Bounded(c.cpuMax, 10.0, 54.0, 54.0));
    BoundedSettles(c.cpuFloor, 0.0, max, MinR(15.0, max));
    PositiveRaises(c.headroomCpu, 1.0);
    PositiveRaises(c.headroomGpu, 30.0);
    PositiveRaises(c.fallCpu, 0.05);
    PositiveRaises(c.fallGpu, 1.0);
    BoundedSettles(c.cpuHot, 82.0, 94.0, 90.0);
    BoundedSettles(c.gpuHot, 85.0, 89.0, 88.0);
    BoundedSettles(c.nvmeHot, 50.0, 90.0, 80.0);
  }

  lemma {:induction false} FloorIsAClock(mhz: nat)
    ensures GpuVerify.ClampGpuClock(mhz) <= GPU_MAX_MHZ
  {
  }

  lemma {:induction false} SettledWithin(raw: Float, lo: real, hi: real, fallback: real, r: Float)
    requires Settled(raw, lo, hi, fallback, r)
    ensures r.Finite? && lo <= r.v <= hi
  {
  }
}
