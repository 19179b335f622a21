/** Passive warm starts: a cap pair is stored under a key only from a full
    window of settled evidence for that key. */
module WarmStart {
  import opened Prelude

  const STEADY_WINDOW_N: nat := 40
  const STDEV_MAX_RPM := 60.0
  const VARIANCE_MAX := 3600.0
  const FAN_SMOOTH_N: nat := 5
  const GROUP_TOLERANCE_C := 1.0

  /** Strategy, duty and power source. */
  datatype Key = Key(strategy: string, duty: nat, onAc: bool)

  /** One control tick with a fan-control view. */
  datatype Call = Call(
    key: Key, active: bool, upToDate: bool, atDuty: bool,
    tStar: Option<real>, cpuGroup: Option<real>, gpuGroup: Option<real>,
    gpuGuarded: bool, cpuHot: bool, rpm: Option<Float>,
    cpuLimit: Option<real>, gpuMax: Option<nat>,
    cpuHeld: bool, gpuHeld: bool, cpuEpisode: bool, gpuEpisode: bool,
    targetRpm: Float)

  /** A tick; losing the view, a resume or a released target; and the held
      sample after a calibration, with its fan reading. */
  datatype Event = Called(c: Call) | Lost | Reseeded(rpm: Option<Float>)

  predicate GroupsSettled(c: Call) {
    && c.tStar.Some? && c.cpuGroup.Some? && c.gpuGroup.Some?
    && AbsR(c.cpuGroup.value - c.tStar.value) <= GROUP_TOLERANCE_C
    && AbsR(c.gpuGroup.value - c.tStar.value) <= GROUP_TOLERANCE_C
  }

  predicate Qualifies(c: Call) {
    && c.active && c.upToDate && c.atDuty && GroupsSettled(c)
    && !c.gpuGuarded && !c.cpuHot && FiniteOf(c.rpm).Some?
    && c.cpuLimit.Some? && c.gpuMax.Some?
    && !c.cpuHeld && !c.gpuHeld && !c.cpuEpisode && !c.gpuEpisode
  }

  predicate WarmQualifies(c: Call, smoothed: Float) {
    Qualifies(c) && smoothed.Finite? && c.targetRpm.Finite? && AbsR(smoothed.v - c.targetRpm.v) <= STDEV_MAX_RPM
  }

  // ---- Statistics; a non-finite operand makes a non-finite result ----

  function Plus(x: Float, y: Float): Float {
    if x.Finite? && y.Finite? then Finite(x.v + y.v) else NonFinite
  }

  function Over(x: Float, n: nat): Float
    requires n > 0
  {
    if x.Finite? then Finite(x.v / n as real) else NonFinite
  }

  function SquareOff(x: Float, mean: Float): Float {
    if x.Finite? && mean.Finite? then Finite((x.v - mean.v) * (x.v - mean.v)) else NonFinite
  }

  function Sum(xs: seq<Float>): Float {
    if xs == [] then Finite(0.0) else Plus(Sum(xs[..|xs| - 1]), xs[|xs| - 1])
  }

  function Mean(xs: seq<Float>): Float
    requires xs != []
  {
    Over(Sum(xs), |xs|)
  }

  function Deviations(xs: seq<Float>, mean: Float): Float {
    if xs == [] then Finite(0.0)
    else Plus(Deviations(xs[..|xs| - 1], mean), SquareOff(xs[|xs| - 1], mean))
  }

  /** Population variance; the deviation limit is compared squared. */
  function Variance(xs: seq<Float>): Float
    requires xs != []
  {
    Over(Deviations(xs, Mean(xs)), |xs|)
  }

  predicate AllFinite(xs: seq<Float>) {
    forall i :: 0 <= i < |xs| ==> xs[i].Finite?
  }

  lemma {:induction false} FiniteSums(xs: seq<Float>, mean: Float)
    ensures Sum(xs).Finite? <==> AllFinite(xs)
    ensures Deviations(xs, mean).Finite? <==> AllFinite(xs) && (xs == [] || mean.Finite?)
  {
    hide SquareOff, Plus;
    if xs != [] {
      var front, x := xs[..|xs| - 1], xs[|xs| - 1];
      FiniteSums(front, mean);
      FiniteParts(Sum(front), x, mean);
      FiniteParts(Deviations(front, mean), x, mean);
      assert AllFinite(xs) <==> AllFinite(front) && x.Finite?;
    }
  }

  lemma {:induction false} FiniteParts(sum: Float, x: Float, mean: Float)
    ensures Plus(sum, x).Finite? <==> sum.Finite? && x.Finite?
    ensures Plus(sum, SquareOff(x, mean)).Finite? <==> sum.Finite? && x.Finite? && mean.Finite?
  {
  }

  /** A mean or a variance is a number exactly when every value is. */
  lemma {:induction false} FiniteStatistics(xs: seq<Float>)
    requires xs != []
    ensures Mean(xs).Finite? <==> AllFinite(xs)
    ensures Variance(xs).Finite? <==> AllFinite(xs)
  {
    hide Sum, Deviations, AllFinite;
    FiniteSums(xs, Mean(xs));
  }

  // ---- What the mean and the variance are ----

  function Total(vs: seq<real>): real {
    if vs == [] then 0.0 else Total(vs[..|vs| - 1]) + vs[|vs| - 1]
  }

  function Squared(v: real): real {
    v * v
  }

  function TotalSquares(vs: seq<real>): real {
    if vs == [] then 0.0 else TotalSquares(vs[..|vs| - 1]) + Squared(vs[|vs| - 1])
  }

  function Numbers(vs: seq<real>): (xs: seq<Float>)
    ensures |xs| == |vs| && forall i :: 0 <= i < |xs| ==> xs[i] == Finite(vs[i])
  {
    seq(|vs|, i requires 0 <= i < |vs| => Finite(vs[i]))
  }

  function SquaredGap(v: real, m: real): real {
    (v - m) * (v - m)
  }

  lemma {:induction false} SquareOffNumbers(x: real, m: real)
    ensures SquareOff(Finite(x), Finite(m)) == Finite(SquaredGap(x, m))
  {
  }

  /** The sum of squared gaps from m, multiplied out. */
  function Expanded(q: real, s: real, n: real, m: real): real {
    q - 2.0 * (m * s) + n * (m * m)
  }

  lemma {:induction false} ExpandedStep(x: real, m: real, q: real, s: real, n: real)
    ensures Expanded(q, s, n, m) + SquaredGap(x, m) == Expanded(q + Squared(x), s + x, n + 1.0, m)
  {
    assert SquaredGap(x, m) == x * x - 2.0 * (m * x) + m * m;
    assert m * (s + x) == m * s + m * x;
    assert (n + 1.0) * (m * m) == n * (m * m) + m * m;
  }

  lemma {:induction false} NumbersSnoc(vs: seq<real>, m: real)
    requires vs != []
    ensures var front, x := vs[..|vs| - 1], vs[|vs| - 1];
            && Sum(Numbers(vs)) == Plus(Sum(Numbers(front)), Finite(x))
            && Deviations(Numbers(vs), Finite(m)) == Plus(Deviations(Numbers(front), Finite(m)), Finite(SquaredGap(x, m)))
  {
    hide Plus, SquaredGap, SquareOff;
    assert Numbers(vs)[..|vs| - 1] == Numbers(vs[..|vs| - 1]);
    SquareOffNumbers(vs[|vs| - 1], m);
  }

  lemma {:induction false} SumsOfNumbers(vs: seq<real>, m: real)
    ensures Sum(Numbers(vs)) == Finite(Total(vs))
    ensures Deviations(Numbers(vs), Finite(m)) == Finite(Expanded(TotalSquares(vs), Total(vs), |vs| as real, m))
  {
    if vs == [] {
      assert m * 0.0 == 0.0;
    } else {
      hide Total, TotalSquares, Numbers, Sum, Deviations, Expanded, SquaredGap, Squared;
      var front, x := vs[..|vs| - 1], vs[|vs| - 1];
      SumsOfNumbers(front, m);
      NumbersSnoc(vs, m);
      TotalsSnoc(vs);
      ExpandedStep(x, m, TotalSquares(front), Total(front), |front| as real);
    }
  }

  lemma {:induction false} TotalsSnoc(vs: seq<real>)
    requires vs != []
    ensures Total(vs) == Total(vs[..|vs| - 1]) + vs[|vs| - 1]
    ensures TotalSquares(vs) == TotalSquares(vs[..|vs| - 1]) + Squared(vs[|vs| - 1])
  {
    hide Squared;
  }

  lemma {:induction false} CentredIdentity(n: real, q: real, s: real, m: real, dev: real, v: real)
    requires n > 0.0 && m == s / n && dev == q - 2.0 * (m * s) + n * (m * m) && v == dev / n
    ensures n * m == s
    ensures n * n * v == n * q - s * s
  {
    assert n * m == s;
    assert n * (m * m) == m * s;
    assert dev == q - m * s;
    assert n * v == dev;
    assert n * (m * s) == s * s;
    assert n * dev == n * q - n * (m * s);
    assert n * n * v == n * (n * v);
  }

  /** The mean times the count is the total, and the count squared times the
      variance is the count times the total of squares less the total squared. */
  lemma {:induction false} VarianceIdentity(vs: seq<real>)
    requires vs != []
    ensures Mean(Numbers(vs)).Finite? && Variance(Numbers(vs)).Finite?
    ensures var n := |vs| as real;
            && n * Mean(Numbers(vs)).v == Total(vs)
            && n * n * Variance(Numbers(vs)).v == n * TotalSquares(vs) - Total(vs) * Total(vs)
  {
    hide Sum, Deviations, Total, TotalSquares, Numbers, SquaredGap;
    var n, s := |vs| as real, Total(vs);
    var m := s / n;
    SumsOfNumbers(vs, m);
    var dev := Deviations(Numbers(vs), Finite(m)).v;
    CentredIdentity(n, TotalSquares(vs), s, m, dev, dev / n);
  }

  /** The variance bounds every deviation from the mean, and is zero exactly
      when all values are equal. */
  lemma {:induction false} VarianceBounds(vs: seq<real>, limit: real)
    requires vs != []
    ensures Mean(Numbers(vs)).Finite? && Variance(Numbers(vs)).Finite?
    ensures var mean, v := Mean(Numbers(vs)).v, Variance(Numbers(vs)).v;
            && v >= 0.0
            && (v < limit ==> forall i :: 0 <= i < |vs| ==> SquaredGap(vs[i], mean) < |vs| as real * limit)
            && (v == 0.0 <==> forall i, j :: 0 <= i < |vs| && 0 <= j < |vs| ==> vs[i] == vs[j])
  {
    hide Sum, Deviations, Numbers, Total, TotalSquares, SquaredGap;
    VarianceIdentity(vs);
    var n, mean := |vs| as real, Mean(Numbers(vs)).v;
    var dev := Deviations(Numbers(vs), Finite(mean)).v;
    DeviationsBound(vs, mean);
    DividedBound(dev, n, dev / n, limit);
    if forall i, j :: 0 <= i < |vs| && 0 <= j < |vs| ==> vs[i] == vs[j] {
      EqualTotals(vs, vs[0]);
      assert vs[0] == mean by { CancelCount(n, vs[0], mean); }
    }
  }

  lemma {:induction false} CancelCount(n: real, a: real, b: real)
    requires n > 0.0 && n * a == n * b
    ensures a == b
  {
  }

  lemma {:induction false} EqualTotals(vs: seq<real>, x: real)
    requires forall i :: 0 <= i < |vs| ==> vs[i] == x
    ensures Total(vs) == |vs| as real * x
  {
    if vs != [] {
      EqualTotals(vs[..|vs| - 1], x);
      var n := |vs| as real;
      assert n * x == (n - 1.0) * x + x;
    }
  }

  lemma {:induction false} DividedBound(dev: real, n: real, v: real, limit: real)
    requires n > 0.0 && dev >= 0.0 && v == dev / n
    ensures v >= 0.0 && (v == 0.0 <==> dev == 0.0) && (v < limit ==> dev < n * limit)
  {
    assert n * v == dev;
    if v < limit {
      assert n * (limit - v) > 0.0;
    }
  }

  predicate AllAt(vs: seq<real>, m: real) {
    forall i :: 0 <= i < |vs| ==> vs[i] == m
  }

  predicate AllWithin(vs: seq<real>, m: real, bound: real) {
    forall i :: 0 <= i < |vs| ==> SquaredGap(vs[i], m) <= bound
  }

  lemma {:induction false} AllSnoc(vs: seq<real>, m: real, before: real, bound: real)
    requires vs != [] && before <= bound
    ensures AllAt(vs, m) <==> AllAt(vs[..|vs| - 1], m) && vs[|vs| - 1] == m
    ensures AllWithin(vs[..|vs| - 1], m, before) && SquaredGap(vs[|vs| - 1], m) <= bound ==> AllWithin(vs, m, bound)
  {
    hide SquaredGap;
    var front := vs[..|vs| - 1];
    assert forall i :: 0 <= i < |front| ==> front[i] == vs[i];
  }

  lemma {:induction false} DeviationsBound(vs: seq<real>, m: real)
    ensures var dev := Deviations(Numbers(vs), Finite(m));
            dev.Finite? && dev.v >= 0.0 && AllWithin(vs, m, dev.v) && (dev.v == 0.0 <==> AllAt(vs, m))
  {
    if vs != [] {
      hide Numbers, Deviations, Sum, SquaredGap, AllAt, AllWithin;
      var front, x := vs[..|vs| - 1], vs[|vs| - 1];
      DeviationsBound(front, m);
      NumbersSnoc(vs, m);
      GapIsPositive(x, m);
      var before := Deviations(Numbers(front), Finite(m)).v;
      AllSnoc(vs, m, before, before + SquaredGap(x, m));
    }
  }

  lemma {:induction false} PositiveProduct(x: real, y: real, p: real)
    requires x > 0.0 && y > 0.0 && p == x * y
    ensures p > 0.0
  {
  }

  lemma {:induction false} SquareIsPositive(x: real, q: real)
    requires q == x * x
    ensures q >= 0.0 && (q == 0.0 <==> x == 0.0)
  {
    if x > 0.0 {
      PositiveProduct(x, x, q);
    } else if x < 0.0 {
      assert q == (-x) * (-x);
      PositiveProduct(-x, -x, q);
    }
  }

  lemma {:induction false} GapIsPositive(x: real, m: real)
    ensures SquaredGap(x, m) >= 0.0 && (SquaredGap(x, m) == 0.0 <==> x == m)
  {
    SquareIsPositive(x - m, SquaredGap(x, m));
  }

  method SumOf(xs: seq<Float>) returns (sum: Float)
    ensures sum == Sum(xs)
  {
    hide Plus;
    sum := Finite(0.0);
    for i := 0 to |xs|
      invariant sum == Sum(xs[..i])
    {
      assert xs[..i + 1][..i] == xs[..i];
      sum := Plus(sum, xs[i]);
    }
    assert xs[..|xs|] == xs;
  }

  method PopulationVariance(xs: seq<Float>) returns (v: Float)
    requires xs != []
    ensures v == Variance(xs)
  {
    hide Plus, SquareOff, Over, Sum;
    var sum := SumOf(xs);
    var mean := Over(sum, |xs|);
    var squares := Finite(0.0);
    for i := 0 to |xs|
      invariant squares == Deviations(xs[..i], mean)
    {
      assert xs[..i + 1][..i] == xs[..i];
      squares := Plus(squares, SquareOff(xs[i], mean));
    }
    assert xs[..|xs|] == xs;
    return Over(squares, |xs|);
  }

  // ---- The detector ----

  function LastN<T>(xs: seq<T>, n: nat): seq<T> {
    if |xs| <= n then xs else xs[|xs| - n..]
  }

  datatype Window = Window(key: Option<Key>, values: seq<Float>)

  /** Only a number at the limit or above is too wide: a NaN is not. */
  predicate TooWide(variance: Float) {
    variance.Finite? && variance.v >= VARIANCE_MAX
  }

  predicate Full(values: seq<Float>) {
    |values| == STEADY_WINDOW_N && !TooWide(Variance(values))
  }

  /** A key change or a failed gate restarts the window without the sample. */
  function Advance(w: Window, key: Key, gate: bool, x: Float): Window {
    if w.key != Some(key) || !gate then Window(Some(key), [])
    else Window(Some(key), LastN(w.values + [x], STEADY_WINDOW_N))
  }

  /** Whether the sample just pushed completes a settled window. */
  predicate Completes(w: Window, key: Key, gate: bool, x: Float) {
    w.key == Some(key) && gate && Full(LastN(w.values + [x], STEADY_WINDOW_N))
  }

  function FanAfter(fan: seq<Float>, rpm: Option<Float>): seq<Float> {
    match FiniteOf(rpm)
    case None => []
    case Some(v) => LastN(fan + [Finite(v)], FAN_SMOOTH_N)
  }

  function Smoothed(fan: seq<Float>): Float {
    Over(Sum(fan), if fan == [] then 1 else |fan|)
  }

  /** The held sample's reading, or NaN in its place. */
  function Seed(rpm: Option<Float>): Float {
    match rpm case None => NonFinite case Some(x) => x
  }

  datatype Entry = Entry(cpu: real, gpu: nat)

  datatype Detector = Detector(fan: seq<Float>, steady: Window, refinement: Window, stored: map<Key, Entry>)

  const NOTHING := Window(None, [])

  function Observed(d: Detector, e: Event): Detector {
    match e
    case Lost => d.(fan := [], steady := NOTHING, refinement := NOTHING)
    case Reseeded(rpm) => d.(fan := [Seed(rpm)], steady := NOTHING, refinement := NOTHING)
    case Called(c) =>
      var fan := FanAfter(d.fan, c.rpm);
      var x := Smoothed(fan);
      Detector(fan, Advance(d.steady, c.key, WarmQualifies(c, x), x), Advance(d.refinement, c.key, Qualifies(c), x),
               if Stores(d, c) then d.stored[c.key := Entry(c.cpuLimit.value, c.gpuMax.value)] else d.stored)
  }

  predicate Stores(d: Detector, c: Call)
    ensures Stores(d, c) ==> c.cpuLimit.Some? && c.gpuMax.Some?
  {
    var x := Smoothed(FanAfter(d.fan, c.rpm));
    Completes(d.steady, c.key, WarmQualifies(c, x), x)
  }

  /** The mean handed to the duty table's refinement, if any. */
  function Refines(d: Detector, c: Call): Option<Float> {
    var x := Smoothed(FanAfter(d.fan, c.rpm));
    if Completes(d.refinement, c.key, Qualifies(c), x) then Some(Mean(LastN(d.refinement.values + [x], STEADY_WINDOW_N))) else None
  }

  class SteadyObserver {
    var fanWindow: seq<Float>
    var steadyKey: Option<Key>
    var steadyWindow: seq<Float>
    var refinementKey: Option<Key>
    var refinementWindow: seq<Float>
    var warmStarts: map<Key, Entry>

    ghost function Abs(): Detector
      reads this
    {
      Detector(fanWindow, Window(steadyKey, steadyWindow), Window(refinementKey, refinementWindow), warmStarts)
    }

    constructor (warmStarts: map<Key, Entry>)
      ensures Abs() == Detector([], NOTHING, NOTHING, warmStarts)
    {
      fanWindow, steadyKey, steadyWindow, refinementKey, refinementWindow := [], None, [], None, [];
      this.warmStarts := warmStarts;
    }

    /** Pushes into a bounded window; the mean when it is full and steady. */
    method PushSmoothed(window: seq<Float>, x: Float) returns (w: seq<Float>, mean: Option<Float>)
      requires |window| <= STEADY_WINDOW_N
      ensures w == LastN(window + [x], STEADY_WINDOW_N)
      ensures mean == if Full(w) then Some(Mean(w)) else None
    {
      w := window + [x];
      if |w| > STEADY_WINDOW_N {
        w := w[1..];
      }
      if |w| != STEADY_WINDOW_N {
        return w, None;
      }
      var v := PopulationVariance(w);
      if TooWide(v) {
        return w, None;
      }
      var sum := SumOf(w);
      return w, Some(Over(sum, |w|));
    }

    method LoseView()
      modifies this
      ensures Abs() == Observed(old(Abs()), Lost)
    {
      fanWindow, steadyWindow, steadyKey, refinementWindow, refinementKey := [], [], None, [], None;
    }

    /** Rebuilds the fan window from the held sample alone. */
    method ReseedAfterCalibration(rpm: Option<Float>)
      modifies this
      ensures Abs() == Observed(old(Abs()), Reseeded(rpm))
    {
      fanWindow := [Seed(rpm)];
      steadyWindow, steadyKey, refinementWindow, refinementKey := [], None, [], None;
    }

    /** Takes one fan reading and returns the smoothed speed. */
    method SmoothFan(rpm: Option<Float>) returns (smoothed: Float)
      requires |fanWindow| <= FAN_SMOOTH_N
      modifies this`fanWindow
      ensures fanWindow == FanAfter(old(fanWindow), rpm) && smoothed == Smoothed(fanWindow)
    {
      hide Sum;
      match FiniteOf(rpm) {
        case Some(v) =>
          fanWindow := fanWindow + [Finite(v)];
          if |fanWindow| > FAN_SMOOTH_N {
            fanWindow := fanWindow[1..];
          }
        case None =>
          fanWindow := [];
      }
      var sum := SumOf(fanWindow);
      return Over(sum, if fanWindow == [] then 1 else |fanWindow|);
    }

    method ObserveSteady(c: Call) returns (refined: Option<Float>, saved: bool)
      requires |fanWindow| <= FAN_SMOOTH_N && |steadyWindow| <= STEADY_WINDOW_N && |refinementWindow| <= STEADY_WINDOW_N
      modifies this
      ensures Abs() == Observed(old(Abs()), Called(c))
      ensures refined == Refines(old(Abs()), c)
      ensures saved <==> refined.Some? || Stores(old(Abs()), c)
    {
      hide Full, Mean, Sum, Variance;
      var smoothed := SmoothFan(c.rpm);
      hide LastN, FanAfter, Smoothed, Qualifies;
      refined := None;
      if refinementKey != Some(c.key) || !Qualifies(c) {
        refinementKey, refinementWindow := Some(c.key), [];
      } else {
        refinementWindow, refined := PushSmoothed(refinementWindow, smoothed);
      }
      var warm: Option<Float> := None;
      if steadyKey != Some(c.key) || !WarmQualifies(c, smoothed) {
        steadyKey, steadyWindow := Some(c.key), [];
      } else {
        steadyWindow, warm := PushSmoothed(steadyWindow, smoothed);
      }
      if warm.Some? {
        WarmNeedsCaps(c, smoothed);
        warmStarts := warmStarts[c.key := Entry(c.cpuLimit.value, c.gpuMax.value)];
      }
      saved := refined.Some? || warm.Some?;
    }
  }

  lemma {:induction false} WarmNeedsCaps(c: Call, smoothed: Float)
    ensures WarmQualifies(c, smoothed) ==> c.cpuLimit.Some? && c.gpuMax.Some?
  {
  }

  // ---- The windows as functions of everything observed ----

  function After(d0: Detector, events: seq<Event>): Detector {
    if events == [] then d0 else Observed(After(d0, events[..|events| - 1]), events[|events| - 1])
  }

  /** What one event offers a window: nothing when it clears, else the key,
      whether the gate passed and the smoothed speed. */
  datatype Mark = Cleared | Mark(key: Key, gate: bool, x: Float)

  /** The steady window's gate also asks for the speed; the refinement's not. */
  function MarkOf(d: Detector, e: Event, warm: bool): Mark {
    match e
    case Called(c) =>
      var x := Smoothed(FanAfter(d.fan, c.rpm));
      Mark(c.key, if warm then WarmQualifies(c, x) else Qualifies(c), x)
    case _ => Cleared
  }

  function Marks(d0: Detector, events: seq<Event>, warm: bool): (ms: seq<Mark>)
    ensures |ms| == |events|
  {
    if events == [] then []
    else
      var front := events[..|events| - 1];
      Marks(d0, front, warm) + [MarkOf(After(d0, front), events[|events| - 1], warm)]
  }

  function WindowAfter(ms: seq<Mark>): Window {
    if ms == [] then NOTHING
    else
      match ms[|ms| - 1]
      case Cleared => NOTHING
      case Mark(key, gate, x) => Advance(WindowAfter(ms[..|ms| - 1]), key, gate, x)
  }

  /** All qualifying speeds of the current stretch, never capped. */
  function Stretch(ms: seq<Mark>): seq<Float> {
    if ms == [] then []
    else
      match ms[|ms| - 1]
      case Cleared => []
      case Mark(key, gate, x) =>
        var front := ms[..|ms| - 1];
        if gate && front != [] && front[|front| - 1].Mark? && front[|front| - 1].key == key then Stretch(front) + [x] else []
  }

  lemma {:induction false} CapSnoc<T>(xs: seq<T>, x: T, n: nat)
    requires n > 0
    ensures LastN(LastN(xs, n) + [x], n) == LastN(xs + [x], n)
  {
    if |xs| > n {
      assert LastN(xs, n) + [x] == (xs + [x])[|xs| - n..];
    }
  }

  /** The window is the capped stretch, under the last key seen. */
  lemma {:induction false} WindowIsCappedStretch(ms: seq<Mark>)
    ensures WindowAfter(ms).values == LastN(Stretch(ms), STEADY_WINDOW_N)
    ensures WindowAfter(ms).key == if ms != [] && ms[|ms| - 1].Mark? then Some(ms[|ms| - 1].key) else None
  {
    if ms != [] {
      var front := ms[..|ms| - 1];
      WindowIsCappedStretch(front);
      if ms[|ms| - 1].Mark? {
        CapSnoc(Stretch(front), ms[|ms| - 1].x, STEADY_WINDOW_N);
      }
    }
  }

  /** The last n marks all passed the gate under one key, which the mark
      before them already carried. */
  ghost predicate Run(ms: seq<Mark>, key: Key, n: nat) {
    && n < |ms|
    && (forall i :: |ms| - n - 1 <= i < |ms| ==> ms[i].Mark? && ms[i].key == key)
    && forall i :: |ms| - n <= i < |ms| ==> ms[i].gate
  }

  lemma {:induction false} StretchIsRun(ms: seq<Mark>)
    requires ms != [] && ms[|ms| - 1].Mark?
    ensures Run(ms, ms[|ms| - 1].key, |Stretch(ms)|)
    ensures forall i :: 0 <= i < |Stretch(ms)| ==> Stretch(ms)[i] == ms[|ms| - |Stretch(ms)| + i].x
  {
    var front := ms[..|ms| - 1];
    if Stretch(ms) != [] {
      StretchIsRun(front);
    }
  }

  lemma {:induction false} RunIsInStretch(ms: seq<Mark>, key: Key, n: nat)
    requires Run(ms, key, n)
    ensures |Stretch(ms)| >= n
  {
    if n > 0 {
      var front := ms[..|ms| - 1];
      assert ms[|ms| - 1].gate && ms[|ms| - 2].key == key;
      RunIsInStretch(front, key, n - 1);
    }
  }

  function Speeds(ms: seq<Mark>): (xs: seq<Float>)
    ensures |xs| == |ms|
    ensures forall i :: 0 <= i < |xs| ==> xs[i] == if ms[i].Mark? then ms[i].x else NonFinite
  {
    seq(|ms|, i requires 0 <= i < |ms| => if ms[i].Mark? then ms[i].x else NonFinite)
  }

  /** The last forty smoothed speeds, all gated in under one key that was
      already current before them. */
  ghost predicate FortyUnder(ms: seq<Mark>, key: Key) {
    Run(ms, key, STEADY_WINDOW_N)
  }

  function LastForty(ms: seq<Mark>): seq<Float> {
    if |ms| < STEADY_WINDOW_N then [] else Speeds(ms[|ms| - STEADY_WINDOW_N..])
  }

  /** Settled evidence: forty gated speeds with a small variance. */
  ghost predicate SettledEvidence(ms: seq<Mark>, key: Key) {
    FortyUnder(ms, key) && Variance(LastForty(ms)).Finite? && Variance(LastForty(ms)).v < VARIANCE_MAX
  }

  lemma {:induction false} FullWindowIsForty(ms: seq<Mark>)
    requires ms != [] && ms[|ms| - 1].Mark?
    ensures |WindowAfter(ms).values| == STEADY_WINDOW_N <==> FortyUnder(ms, ms[|ms| - 1].key)
    ensures FortyUnder(ms, ms[|ms| - 1].key) ==> WindowAfter(ms).values == LastForty(ms)
  {
    var key, n := ms[|ms| - 1].key, STEADY_WINDOW_N;
    WindowIsCappedStretch(ms);
    StretchIsRun(ms);
    if Run(ms, key, n) {
      RunIsInStretch(ms, key, n);
    }
    if |Stretch(ms)| >= n {
      assert LastN(Stretch(ms), n) == Speeds(ms[|ms| - n..]);
    }
  }

  lemma {:induction false} GatedSpeedsAreFinite(d0: Detector, events: seq<Event>)
    ensures var ms := Marks(d0, events, true);
            forall i :: 0 <= i < |ms| && ms[i].Mark? && ms[i].gate ==> ms[i].x.Finite?
  {
    hide Smoothed, FanAfter, Qualifies, After;
    if events != [] {
      GatedSpeedsAreFinite(d0, events[..|events| - 1]);
      LastMark(d0, events, true);
      var ms := Marks(d0, events, true);
      assert forall i :: 0 <= i < |ms| - 1 ==> ms[i] == ms[..|ms| - 1][i];
    }
  }

  /** Both windows are the windows of their marks. */
  lemma {:induction false} WindowsFollowMarks(d0: Detector, events: seq<Event>)
    requires d0.steady == NOTHING && d0.refinement == NOTHING
    ensures After(d0, events).steady == WindowAfter(Marks(d0, events, true))
    ensures After(d0, events).refinement == WindowAfter(Marks(d0, events, false))
  {
    hide WarmQualifies, Qualifies, Stores, Smoothed, FanAfter, Advance;
    if events != [] {
      var front, e := events[..|events| - 1], events[|events| - 1];
      WindowsFollowMarks(d0, front);
      LastMark(d0, events, true);
      LastMark(d0, events, false);
      match e {
        case Called(c) =>
        case Lost =>
        case Reseeded(_) =>
      }
    }
  }

  lemma {:induction false} LastMark(d0: Detector, events: seq<Event>, warm: bool)
    requires events != []
    ensures var front, ms := events[..|events| - 1], Marks(d0, events, warm);
            ms[..|ms| - 1] == Marks(d0, front, warm) && ms[|ms| - 1] == MarkOf(After(d0, front), events[|events| - 1], warm)
  {
    hide MarkOf, After;
  }

  /** The window that one more tick would be judged on. */
  lemma {:induction false} NextWindow(d0: Detector, events: seq<Event>, c: Call, warm: bool)
    requires d0.steady == NOTHING && d0.refinement == NOTHING
    ensures var d, ms := After(d0, events), Marks(d0, events + [Called(c)], warm);
            var x := Smoothed(FanAfter(d.fan, c.rpm));
            var gate := if warm then WarmQualifies(c, x) else Qualifies(c);
            && WindowAfter(ms) == Advance(if warm then d.steady else d.refinement, c.key, gate, x)
            && ms[|ms| - 1] == Mark(c.key, gate, x)
  {
    hide WarmQualifies, Qualifies, Smoothed, FanAfter, Advance, After;
    var all := events + [Called(c)];
    assert all[..|all| - 1] == events;
    WindowsFollowMarks(d0, events);
    LastMark(d0, all, warm);
  }

  /** A pair is stored on a tick exactly when that tick completes settled
      evidence for its key: forty gated ticks, each at the duty with settled
      groups, no guard, hold or episode, caps known and the smoothed speed
      within 60 rpm of the table at that tick, after one more tick under the
      same key, with variance below 3600. */
  lemma {:induction false} StoredFromSettledEvidence(d0: Detector, events: seq<Event>, c: Call)
    requires d0.steady == NOTHING && d0.refinement == NOTHING
    ensures Stores(After(d0, events), c) <==> SettledEvidence(Marks(d0, events + [Called(c)], true), c.key)
  {
    hide After, Variance, FortyUnder, LastForty, WarmQualifies, Qualifies, Smoothed, FanAfter, LastN;
    var ms := Marks(d0, events + [Called(c)], true);
    NextWindow(d0, events, c, true);
    FullWindowIsForty(ms);
    if FortyUnder(ms, c.key) {
      GatedSpeedsAreFinite(d0, events + [Called(c)]);
      FortyAreFinite(ms, c.key);
    }
  }

  lemma {:induction false} FortyAreFinite(ms: seq<Mark>, key: Key)
    requires FortyUnder(ms, key)
    requires forall i :: 0 <= i < |ms| && ms[i].Mark? && ms[i].gate ==> ms[i].x.Finite?
    ensures |LastForty(ms)| == STEADY_WINDOW_N && Variance(LastForty(ms)).Finite?
  {
    hide Variance;
    FiniteStatistics(LastForty(ms));
  }

  /** A tick changes no stored pair but its own key's, and that only by storing. */
  lemma {:induction false} OnlyStoringChangesThePairs(d0: Detector, events: seq<Event>, e: Event, k: Key)
    ensures var d, d' := After(d0, events), After(d0, events + [e]);
            (k in d'.stored && (k !in d.stored || d'.stored[k] != d.stored[k])) ==> e.Called? && k == e.c.key && Stores(d, e.c)
    ensures k in After(d0, events).stored ==> k in After(d0, events + [e]).stored
  {
    hide Stores, Smoothed, FanAfter, Advance, WarmQualifies, Qualifies;
    assert (events + [e])[..|events|] == events;
  }

  // ---- What a stored pair or a refinement says about its ticks ----

  /** Fan control active, fresh and at the duty; both groups within a degree of
      the target; nothing hot, held or in an episode; speed and caps known. */
  ghost predicate SettledTick(c: Call) {
    && c.active && c.upToDate && c.atDuty
    && c.tStar.Some? && c.cpuGroup.Some? && c.gpuGroup.Some?
    && -1.0 <= c.cpuGroup.value - c.tStar.value <= 1.0 && -1.0 <= c.gpuGroup.value - c.tStar.value <= 1.0
    && !(c.gpuGuarded || c.cpuHot || c.cpuHeld || c.gpuHeld || c.cpuEpisode || c.gpuEpisode)
    && c.rpm.Some? && c.rpm.value.Finite? && c.cpuLimit.Some? && c.gpuMax.Some?
  }

  /** The smoothed speed within 60 rpm of the table's for the duty. */
  ghost predicate NearTable(c: Call, x: Float) {
    x.Finite? && c.targetRpm.Finite? && -60.0 <= x.v - c.targetRpm.v <= 60.0
  }

  ghost predicate TickedUnder(events: seq<Event>, key: Key, n: nat) {
    n <= |events| && forall i :: |events| - n <= i < |events| ==> events[i].Called? && events[i].c.key == key
  }

  ghost predicate SettledTicks(events: seq<Event>, n: nat) {
    n <= |events| && forall i :: |events| - n <= i < |events| ==> events[i].Called? && SettledTick(events[i].c)
  }

  lemma {:induction false} GatesMeaning(c: Call, x: Float)
    ensures Qualifies(c) <==> SettledTick(c)
    ensures WarmQualifies(c, x) <==> SettledTick(c) && NearTable(c, x)
  {
  }

  lemma {:induction false} MarkAt(d0: Detector, events: seq<Event>, warm: bool, i: nat)
    requires i < |events|
    ensures var mark := Marks(d0, events, warm)[i];
            && (mark.Mark? <==> events[i].Called?)
            && (mark.Mark? ==>
                  && mark.key == events[i].c.key
                  && (mark.gate <==> SettledTick(events[i].c) && (warm ==> NearTable(events[i].c, mark.x)))
                  && mark.x == Smoothed(After(d0, events[..i + 1]).fan))
  {
    hide Smoothed, FanAfter, Qualifies, WarmQualifies, After, SettledTick, NearTable, Stores, Advance;
    LastMark(d0, events, warm);
    var n := |events| - 1;
    if i < n {
      MarkAt(d0, events[..n], warm, i);
      assert events[..n][..i + 1] == events[..i + 1];
      assert Marks(d0, events, warm)[i] == Marks(d0, events, warm)[..n][i];
    } else {
      assert events[..i + 1] == events;
      if events[n].Called? {
        GatesMeaning(events[n].c, Marks(d0, events, warm)[n].x);
        FanOfTick(d0, events);
      }
    }
  }

  lemma {:induction false} FanOfTick(d0: Detector, events: seq<Event>)
    requires events != [] && events[|events| - 1].Called?
    ensures After(d0, events).fan == FanAfter(After(d0, events[..|events| - 1]).fan, events[|events| - 1].c.rpm)
  {
    hide FanAfter, Stores, Advance, Smoothed, WarmQualifies, Qualifies;
  }

  /** The forty marks of a run, told by the events themselves. */
  lemma {:induction false} FortyMeans(d0: Detector, events: seq<Event>, key: Key, warm: bool)
    ensures FortyUnder(Marks(d0, events, warm), key) <==>
              && TickedUnder(events, key, STEADY_WINDOW_N + 1) && SettledTicks(events, STEADY_WINDOW_N)
              && (warm ==> forall i :: |events| - STEADY_WINDOW_N <= i < |events| ==>
                             NearTable(events[i].c, Smoothed(After(d0, events[..i + 1]).fan)))
  {
    hide Marks, SettledTick, NearTable, Smoothed, After;
    forall i: nat | i < |events|
      ensures var mark := Marks(d0, events, warm)[i];
              && (mark.Mark? <==> events[i].Called?)
              && (mark.Mark? ==>
                    && mark.key == events[i].c.key
                    && (mark.gate <==> SettledTick(events[i].c) && (warm ==> NearTable(events[i].c, mark.x)))
                    && mark.x == Smoothed(After(d0, events[..i + 1]).fan))
    {
      MarkAt(d0, events, warm, i);
    }
  }

  function Values(xs: seq<Float>): (vs: seq<real>)
    requires AllFinite(xs)
    ensures Numbers(vs) == xs
  {
    seq(|xs|, i requires 0 <= i < |xs| => xs[i].v)
  }

  /** Every speed of the window lies within bound of their mean. */
  ghost predicate Tight(xs: seq<Float>, bound: real) {
    xs != [] && AllFinite(xs) && Mean(xs).Finite? && forall i :: 0 <= i < |xs| ==> SquaredGap(xs[i].v, Mean(xs).v) < bound
  }

  lemma {:induction false} SmallVarianceIsTight(xs: seq<Float>)
    requires |xs| == STEADY_WINDOW_N && Variance(xs).Finite? && Variance(xs).v < VARIANCE_MAX
    ensures Tight(xs, 40.0 * 3600.0)
  {
    hide Variance, Mean, SquaredGap;
    FiniteStatistics(xs);
    VarianceBounds(Values(xs), VARIANCE_MAX);
  }

  /** A pair is stored on a tick exactly when the last forty-one were ticks
      under its key, the last forty settled with the speed near the table, and
      their variance is below 3600; each speed is then within 380 rpm of their
      mean, and what is stored is the pair in force. */
  lemma {:induction false} StoredPairMeaning(d0: Detector, events: seq<Event>, c: Call)
    requires d0.steady == NOTHING && d0.refinement == NOTHING
    ensures var all, ms := events + [Called(c)], Marks(d0, events + [Called(c)], true);
            && (Stores(After(d0, events), c) <==>
                  && TickedUnder(all, c.key, 41) && SettledTicks(all, 40)
                  && (forall i :: |all| - 40 <= i < |all| ==> NearTable(all[i].c, Smoothed(After(d0, all[..i + 1]).fan)))
                  && Variance(LastForty(ms)).Finite? && Variance(LastForty(ms)).v < 3600.0)
            && (Stores(After(d0, events), c) ==>
                  && Tight(LastForty(ms), 40.0 * 3600.0)
                  && After(d0, all).stored == After(d0, events).stored[c.key := Entry(c.cpuLimit.value, c.gpuMax.value)])
  {
    hide Marks, Stores, Variance, SettledTick, NearTable, Smoothed, FortyUnder, LastForty, Tight, TickedUnder, SettledTicks;
    StoredFromSettledEvidence(d0, events, c);
    var all := events + [Called(c)];
    assert all[..|all| - 1] == events;
    FortyMeans(d0, all, c.key, true);
    hide After;
    if Stores(After(d0, events), c) {
      FortyHasForty(Marks(d0, all, true), c.key);
      SmallVarianceIsTight(LastForty(Marks(d0, all, true)));
      StoredEntry(After(d0, events), c);
    }
  }

  lemma {:induction false} FortyHasForty(ms: seq<Mark>, key: Key)
    requires FortyUnder(ms, key)
    ensures |LastForty(ms)| == STEADY_WINDOW_N
  {
  }

  lemma {:induction false} StoredEntry(d: Detector, c: Call)
    requires Stores(d, c)
    ensures Observed(d, Called(c)).stored == d.stored[c.key := Entry(c.cpuLimit.value, c.gpuMax.value)]
  {
    hide Smoothed, FanAfter, Advance, Completes;
  }

  /** The duty table is refined with a number only by forty settled ticks after
      one more under the same key, all within 380 rpm of that number, which is
      their mean. */
  lemma {:induction false} RefinementMeaning(d0: Detector, events: seq<Event>, c: Call)
    requires d0.steady == NOTHING && d0.refinement == NOTHING
    requires Refines(After(d0, events), c).Some? && Refines(After(d0, events), c).value.Finite?
    ensures var all, forty := events + [Called(c)], LastForty(Marks(d0, events + [Called(c)], false));
            && TickedUnder(all, c.key, 41) && SettledTicks(all, 40)
            && |forty| == 40 && Tight(forty, 40.0 * 3600.0)
            && Refines(After(d0, events), c) == Some(Mean(forty)) && 40.0 * Mean(forty).v == Total(Values(forty))
  {
    hide Marks, Variance, Mean, SettledTick, NearTable, Smoothed, FortyUnder, LastForty, Tight, TickedUnder, SettledTicks, Refines, Total, After;
    RefinedFromForty(d0, events, c);
    FortyMeans(d0, events + [Called(c)], c.key, false);
    var ms := Marks(d0, events + [Called(c)], false);
    FortyHasForty(ms, c.key);
    FiniteStatistics(LastForty(ms));
    SmallVarianceIsTight(LastForty(ms));
    VarianceIdentity(Values(LastForty(ms)));
  }

  // ---- The smoothed speed ----

  /** The speeds the fan window has seen since it was last emptied; a held
      sample starts it with its reading, or with NaN. */
  function SpeedsSinceMissing(events: seq<Event>): seq<Float> {
    if events == [] then []
    else
      match events[|events| - 1]
      case Lost => []
      case Reseeded(rpm) => [Seed(rpm)]
      case Called(c) =>
        match FiniteOf(c.rpm)
        case None => []
        case Some(v) => SpeedsSinceMissing(events[..|events| - 1]) + [Finite(v)]
  }

  /** The fan window is the last five speeds since the last missing one, and
      none of them but a held sample's own can be non-finite. */
  lemma {:induction false} FanWindowIsRecentSpeeds(d0: Detector, events: seq<Event>)
    requires d0.fan == []
    ensures After(d0, events).fan == LastN(SpeedsSinceMissing(events), FAN_SMOOTH_N)
    ensures forall i :: 0 < i < |SpeedsSinceMissing(events)| ==> SpeedsSinceMissing(events)[i].Finite?
  {
    hide Stores, Advance, Smoothed, WarmQualifies, Qualifies;
    if events != [] {
      var front, e := events[..|events| - 1], events[|events| - 1];
      FanWindowIsRecentSpeeds(d0, front);
      if e.Called? && FiniteOf(e.c.rpm).Some? {
        CapSnoc(SpeedsSinceMissing(front), Finite(FiniteOf(e.c.rpm).value), FAN_SMOOTH_N);
      }
    }
  }

  /** The smoothed speed is not a number exactly while a held sample without a
      usable reading is among the last five. */
  lemma {:induction false} SmoothedLosesItsValue(d0: Detector, events: seq<Event>)
    requires d0.fan == []
    ensures var speeds := SpeedsSinceMissing(events);
            Smoothed(After(d0, events).fan).NonFinite? <==> 0 < |speeds| <= FAN_SMOOTH_N && speeds[0].NonFinite?
  {
    hide After, SpeedsSinceMissing, Sum;
    FanWindowIsRecentSpeeds(d0, events);
    var fan := After(d0, events).fan;
    FiniteSums(fan, Finite(0.0));
  }

  // ---- What the refinement can be handed ----

  /** The duty table is handed a mean exactly when forty qualifying ticks under
      one already current key end here without a variance of 3600 or more. */
  lemma {:induction false} RefinedFromForty(d0: Detector, events: seq<Event>, c: Call)
    requires d0.steady == NOTHING && d0.refinement == NOTHING
    ensures var ms := Marks(d0, events + [Called(c)], false);
            && (Refines(After(d0, events), c).Some? <==> FortyUnder(ms, c.key) && !TooWide(Variance(LastForty(ms))))
            && (FortyUnder(ms, c.key) ==> LastForty(ms) != [])
            && (Refines(After(d0, events), c).Some? ==> Refines(After(d0, events), c) == Some(Mean(LastForty(ms))))
  {
    hide After, Variance, Mean, FortyUnder, LastForty, Qualifies, Smoothed, FanAfter, LastN;
    var ms := Marks(d0, events + [Called(c)], false);
    NextWindow(d0, events, c, false);
    FullWindowIsForty(ms);
  }

  /** It is handed something other than a number exactly when one of those
      forty smoothed speeds is none: the deviation test lets a NaN pass. */
  lemma {:induction false} RefinedByNonFinite(d0: Detector, events: seq<Event>, c: Call)
    requires d0.steady == NOTHING && d0.refinement == NOTHING
    ensures var ms := Marks(d0, events + [Called(c)], false);
            Refines(After(d0, events), c) == Some(NonFinite) <==> FortyUnder(ms, c.key) && NonFinite in LastForty(ms)
  {
    hide After, Variance, Mean, FortyUnder, LastForty, Refines;
    var ms := Marks(d0, events + [Called(c)], false);
    RefinedFromForty(d0, events, c);
    if FortyUnder(ms, c.key) {
      FiniteStatistics(LastForty(ms));
    }
  }

  // ---- A held sample without a fan reading reaches the duty table ----

  const STEADY := Call(Key("quiet16", 24, true), true, true, true, Some(60.0), Some(60.0), Some(60.0),
                       false, false, Some(Finite(2400.0)), Some(20.0), Some(1500), false, false, false, false, Finite(2400.0))

  /** A held sample whose fan reading is missing, then n perfect ticks. */
  function HeldThenSteady(n: nat): (events: seq<Event>)
    ensures |events| == n + 1 && events[0] == Reseeded(None) && forall i :: 0 < i <= n ==> events[i] == Called(STEADY)
  {
    if n == 0 then [Reseeded(None)] else HeldThenSteady(n - 1) + [Called(STEADY)]
  }

  lemma {:induction false} SteadyMarks(d0: Detector, n: nat)
    ensures var ms := Marks(d0, HeldThenSteady(n), false);
            forall i :: 0 < i <= n ==> ms[i].Mark? && ms[i].key == STEADY.key && ms[i].gate
  {
    hide Smoothed, FanAfter, After;
    if n > 0 {
      SteadyMarks(d0, n - 1);
      LastMark(d0, HeldThenSteady(n), false);
      assert HeldThenSteady(n)[..n] == HeldThenSteady(n - 1);
      var ms := Marks(d0, HeldThenSteady(n), false);
      assert forall i :: 0 <= i < n ==> ms[i] == ms[..n][i];
    }
  }

  lemma {:induction false} SecondSpeedIsNaN(d0: Detector, n: nat)
    requires n >= 2
    ensures var second := Marks(d0, HeldThenSteady(n), false)[2]; second.Mark? && second.x == NonFinite
  {
    hide Qualifies, After, Smoothed, FanAfter, MarkOf, Marks;
    var ms := Marks(d0, HeldThenSteady(n), false);
    LastMark(d0, HeldThenSteady(n), false);
    assert HeldThenSteady(n)[..n] == HeldThenSteady(n - 1);
    if n > 2 {
      SecondSpeedIsNaN(d0, n - 1);
      assert ms[2] == ms[..n][2];
    } else {
      FirstSpeeds(d0);
    }
  }

  lemma {:induction false} FirstSpeeds(d0: Detector)
    ensures var mark := MarkOf(After(d0, HeldThenSteady(1)), Called(STEADY), false); mark.Mark? && mark.x == NonFinite
  {
    hide Stores, Advance, WarmQualifies, Qualifies;
    var a, b := HeldThenSteady(0), HeldThenSteady(1);
    assert a[..0] == [] && b[..1] == a;
    assert After(d0, a).fan == [NonFinite];
    assert After(d0, b).fan == [NonFinite, Finite(2400.0)];
    assert FanAfter(After(d0, b).fan, STEADY.rpm) == [NonFinite, Finite(2400.0), Finite(2400.0)];
    hide Sum;
    FiniteSums([NonFinite, Finite(2400.0), Finite(2400.0)], Finite(0.0));
  }

  /** A calibration that hands back to Auto while the fan reads nothing, then
      forty-one perfect ticks: the table is handed a NaN. */
  lemma {:induction false} HeldSampleReachesTheTable(d0: Detector)
    requires d0.steady == NOTHING && d0.refinement == NOTHING
    ensures Refines(After(d0, HeldThenSteady(40)), STEADY) == Some(NonFinite)
  {
    hide Marks, After, Refines;
    assert HeldThenSteady(40) + [Called(STEADY)] == HeldThenSteady(41);
    SteadyMarks(d0, 41);
    SecondSpeedIsNaN(d0, 41);
    var ms := Marks(d0, HeldThenSteady(41), false);
    assert LastForty(ms)[0] == ms[2].x;
    RefinedByNonFinite(d0, HeldThenSteady(40), STEADY);
  }
}
