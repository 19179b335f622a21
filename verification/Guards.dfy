/** The per-device ceiling ratchets and the hysteresis guards. */
module Guards {
  import opened Prelude

  const GPU_HYSTERESIS_C := 2.0
  const NVME_HYSTERESIS_C := 5.0
  const GPU_DOWN_RATE_MHZ := 105.0
  const CPU_DOWN_RATE_W := 2.0

  // ---- The ceiling ratchet ----

  datatype Ratchet = Ratchet(floor: real, ceiling: real, current: real, downRate: real, recovery: real) {
    predicate Valid() {
      floor <= current <= ceiling && downRate >= 0.0
    }
  }

  function NewRatchet(floor: real, ceiling: real, current: real, downRate: real, recovery: real): Ratchet {
    var lo, hi := MinR(floor, ceiling), MaxR(floor, ceiling);
    Ratchet(lo, hi, ClampR(current, lo, hi), downRate, recovery)
  }

  function WithFloor(r: Ratchet, floor: real): Ratchet {
    var ceiling := MaxR(r.ceiling, floor);
    r.(ceiling := ceiling, floor := floor, current := ClampR(r.current, floor, ceiling))
  }

  function Stepped(r: Ratchet, validControl: bool, active: bool, temp: Option<real>): Ratchet {
    if !validControl then r
    else if active then r.(current := MaxR(r.current - r.downRate, r.floor))
    else if temp.Some? && temp.value <= r.recovery then r.(current := MinR(r.current + r.downRate / 2.0, r.ceiling))
    else r
  }

  class MaxRatchet {
    var floor: real
    var ceiling: real
    var current: real
    const downRate: real
    const recovery: real

    ghost function Abs(): Ratchet
      reads this
    {
      Ratchet(floor, ceiling, current, downRate, recovery)
    }

    constructor (floor: real, ceiling: real, current: real, downRate: real, recovery: real)
      ensures Abs() == NewRatchet(floor, ceiling, current, downRate, recovery)
    {
      var lo, hi := floor, ceiling;
      if floor > ceiling {
        lo, hi := ceiling, floor;
      }
      this.floor, this.ceiling := lo, hi;
      this.current := ClampR(current, lo, hi);
      this.downRate, this.recovery := downRate, recovery;
    }

    method SetFloor(floor: real)
      modifies this
      ensures Abs() == WithFloor(old(Abs()), floor)
    {
      ceiling := MaxR(ceiling, floor);
      this.floor := floor;
      current := ClampR(current, this.floor, ceiling);
    }

    method Step(validControl: bool, active: bool, temp: Option<real>) returns (max: real)
      modifies this`current
      ensures Abs() == Stepped(old(Abs()), validControl, active, temp) && max == Abs().current
    {
      if !validControl {
        return current;
      }
      if active {
        current := MaxR(current - downRate, floor);
      } else if temp.Some? && temp.value <= recovery {
        current := MinR(current + downRate / 2.0, ceiling);
      }
      return current;
    }
  }

  /** A new ratchet orders its bounds, and starts at the value given or at the
      bound that value is beyond. */
  lemma {:induction false} NewRatchetMeaning(floor: real, ceiling: real, current: real, downRate: real, recovery: real)
    requires downRate >= 0.0
    ensures var r := NewRatchet(floor, ceiling, current, downRate, recovery);
            && r.Valid() && r.downRate == downRate && r.recovery == recovery
            && ((r.floor == floor && r.ceiling == ceiling) || (r.floor == ceiling && r.ceiling == floor))
            && (r.current == current || (current < r.floor && r.current == r.floor) || (current > r.ceiling && r.current == r.ceiling))
  {
  }

  lemma {:induction false} RatchetStaysValid(r: Ratchet, floor: real, validControl: bool, active: bool, temp: Option<real>)
    requires r.Valid()
    ensures WithFloor(r, floor).Valid() && Stepped(WithFloor(r, floor), validControl, active, temp).Valid()
    ensures floor <= Stepped(WithFloor(r, floor), validControl, active, temp).current
    ensures Stepped(WithFloor(r, floor), validControl, active, temp).ceiling == MaxR(r.ceiling, floor)
  {
  }

  /** A tick raises the ceiling exactly when the new floor forces it up, less
      any step down, or when a valid cool reading arrives with the guard
      inactive and there is room; the recovery is at most half the fall. */
  lemma {:induction false} CeilingRisesOnlyCoolOrForced(r: Ratchet, floor: real, validControl: bool, active: bool, temp: Option<real>)
    requires r.Valid() && r.downRate > 0.0
    ensures var r' := Stepped(WithFloor(r, floor), validControl, active, temp);
            var cool := validControl && !active && temp.Some? && temp.value <= r.recovery;
            && (r'.current > r.current <==> floor > r.current || (cool && r.current < r.ceiling))
            && (floor <= r.current ==> r'.current <= r.current + r.downRate / 2.0)
  {
  }

  /** A tick lowers the maximum exactly when a valid sample finds the guard hot
      and room above the floor, and then by the whole rate or to the floor. */
  lemma {:induction false} HotGuardLowers(r: Ratchet, floor: real, validControl: bool, active: bool, temp: Option<real>)
    requires r.Valid() && r.downRate > 0.0
    ensures var r' := Stepped(WithFloor(r, floor), validControl, active, temp);
            && (r'.current < r.current <==> validControl && active && r.current > floor)
            && (r'.current < r.current ==>
                  (r'.current == r.current - r.downRate && r'.current >= floor)
                  || (r'.current == floor && floor > r.current - r.downRate))
  {
  }

  /** A tick that neither lowers nor is forced up raises the maximum on a cool
      valid sample by half the rate or to the ceiling, and else leaves it. */
  lemma {:induction false} CoolGuardRaises(r: Ratchet, floor: real, validControl: bool, active: bool, temp: Option<real>)
    requires r.Valid() && r.downRate > 0.0 && floor <= r.current && !(validControl && active)
    ensures var r' := Stepped(WithFloor(r, floor), validControl, active, temp);
            if validControl && temp.Some? && temp.value <= r.recovery then
              if r.current + r.downRate / 2.0 <= r.ceiling then r'.current == r.current + r.downRate / 2.0 else r'.current == r.ceiling
            else r'.current == r.current
  {
  }

  // ---- Hysteresis ----

  function Hysteresis(wasHot: bool, temp: Option<real>, enter: real, band: real): bool {
    match temp
    case None => false
    case Some(t) => if !wasHot && t >= enter then true else if wasHot && t <= enter - band then false else wasHot
  }

  class GuardPair {
    const gpuEnter: real
    const nvmeEnter: real
    var gpuHot: bool
    var nvmeHot: bool

    constructor (gpuEnter: real, nvmeEnter: real)
      ensures this.gpuEnter == gpuEnter && this.nvmeEnter == nvmeEnter && !gpuHot && !nvmeHot
    {
      this.gpuEnter, this.nvmeEnter := gpuEnter, nvmeEnter;
      gpuHot, nvmeHot := false, false;
    }

    method Step(gpuTemp: Option<real>, nvmeTemp: Option<real>) returns (gpu: bool, nvme: bool)
      modifies this
      ensures gpu == gpuHot == Hysteresis(old(gpuHot), gpuTemp, gpuEnter, GPU_HYSTERESIS_C)
      ensures nvme == nvmeHot == Hysteresis(old(nvmeHot), nvmeTemp, nvmeEnter, NVME_HYSTERESIS_C)
    {
      gpuHot := Hysteresis(gpuHot, gpuTemp, gpuEnter, GPU_HYSTERESIS_C);
      nvmeHot := Hysteresis(nvmeHot, nvmeTemp, nvmeEnter, NVME_HYSTERESIS_C);
      return gpuHot, nvmeHot;
    }
  }

  function HotAfter(temps: seq<Option<real>>, enter: real, band: real): bool {
    temps != [] && Hysteresis(HotAfter(temps[..|temps| - 1], enter, band), temps[|temps| - 1], enter, band)
  }

  /** A reading at or above the threshold with every later reading available
      and inside the band. */
  ghost predicate HotSince(temps: seq<Option<real>>, enter: real, band: real, i: nat) {
    && i < |temps|
    && temps[i].Some? && temps[i].value >= enter
    && forall j :: i <= j < |temps| ==> temps[j].Some? && temps[j].value > enter - band
  }

  lemma {:induction false} HotSinceExtends(temps: seq<Option<real>>, t: Option<real>, enter: real, band: real, i: nat)
    requires band > 0.0 && i <= |temps|
    ensures HotSince(temps + [t], enter, band, i) <==>
              if i < |temps| then HotSince(temps, enter, band, i) && t.Some? && t.value > enter - band
              else t.Some? && t.value >= enter
  {
    assert (temps + [t])[|temps|] == t;
    assert forall j :: 0 <= j < |temps| ==> (temps + [t])[j] == temps[j];
  }

  /** The guard is hot exactly when some reading reached the threshold and no
      reading since was missing or at the bottom of the band. */
  lemma {:induction false} HysteresisMeaning(temps: seq<Option<real>>, enter: real, band: real)
    requires band > 0.0
    ensures HotAfter(temps, enter, band) <==> exists i: nat :: HotSince(temps, enter, band, i)
  {
    hide HotSince;
    NeverHot(enter, band);
    if temps != [] {
      var front, t := temps[..|temps| - 1], temps[|temps| - 1];
      assert temps == front + [t];
      HysteresisMeaning(front, enter, band);
      HotSinceInside(front, enter, band);
      HotSinceInside(temps, enter, band);
      forall i: nat | i <= |front|
        ensures HotSince(temps, enter, band, i) <==>
                  if i < |front| then HotSince(front, enter, band, i) && t.Some? && t.value > enter - band
                  else t.Some? && t.value >= enter
      {
        HotSinceExtends(front, t, enter, band, i);
      }
      if HotAfter(temps, enter, band) {
        if t.value >= enter {
          assert HotSince(temps, enter, band, |front|);
        } else {
          var i: nat :| HotSince(front, enter, band, i);
          assert HotSince(temps, enter, band, i);
        }
      }
    }
  }

  lemma {:induction false} NeverHot(enter: real, band: real)
    ensures forall i: nat :: !HotSince([], enter, band, i)
  {
  }

  lemma {:induction false} HotSinceInside(temps: seq<Option<real>>, enter: real, band: real)
    ensures forall i: nat :: HotSince(temps, enter, band, i) ==> i < |temps|
  {
  }
}
