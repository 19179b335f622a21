/** The coarse-to-fine grid search over (tau, theta), for any objective that
    may be unusable at some points. */
module GridSearch {
  import opened Prelude

  type Objective = (real, real) -> Option<real>

  datatype Window = Window(tauLo: real, tauHi: real, thetaLo: real, thetaHi: real)

  datatype Best = Best(tau: real, theta: real, sse: real)

  const GRID_N: nat := 25
  const GRID_POINTS: nat := 625
  const ROUNDS: nat := 9
  const SHRINK := 0.35
  const WIDTH_MIN := 0.000001
  const TAU_MIN := 0.01

  function GridValue(lo: real, hi: real, i: nat): real {
    lo + (hi - lo) * i as real / 24.0
  }

  /** The k-th point visited: theta varies fastest. */
  function GridPoint(w: Window, k: nat): (real, real) {
    (GridValue(w.tauLo, w.tauHi, k / GRID_N), GridValue(w.thetaLo, w.thetaHi, k % GRID_N))
  }

  /** One evaluation: only a strictly smaller residual replaces the best. */
  function Consider(best: Option<Best>, tau: real, theta: real, sse: Option<real>): Option<Best> {
    match sse
    case None => best
    case Some(s) => if best.None? || s < best.value.sse then Some(Best(tau, theta, s)) else best
  }

  /** The best of the first k points visited. */
  function GridBest(obj: Objective, w: Window, k: nat): Option<Best> {
    if k == 0 then None
    else
      var (tau, theta) := GridPoint(w, k - 1);
      Consider(GridBest(obj, w, k - 1), tau, theta, obj(tau, theta))
  }

  lemma {:induction false} GridBestOfNone(obj: Objective, w: Window)
    ensures GridBest(obj, w, 0) == None
  {
  }

  lemma {:induction false} GridBestStep(obj: Objective, w: Window, i: nat, j: nat)
    requires j < GRID_N
    ensures var tau, theta := GridValue(w.tauLo, w.tauHi, i), GridValue(w.thetaLo, w.thetaHi, j);
            GridBest(obj, w, i * GRID_N + j + 1) == Consider(GridBest(obj, w, i * GRID_N + j), tau, theta, obj(tau, theta))
  {
    assert (i * GRID_N + j) / GRID_N == i && (i * GRID_N + j) % GRID_N == j;
    assert GridPoint(w, i * GRID_N + j) == (GridValue(w.tauLo, w.tauHi, i), GridValue(w.thetaLo, w.thetaHi, j));
    hide GridPoint, GridValue, Consider;
  }

  function Shrunk(width: real): real {
    MaxR(width * SHRINK, WIDTH_MIN)
  }

  function NextWindow(w: Window, b: Best): Window {
    var tauSpan, thetaSpan := Shrunk(w.tauHi - w.tauLo), Shrunk(w.thetaHi - w.thetaLo);
    Window(MaxR(b.tau - tauSpan / 2.0, TAU_MIN), b.tau + tauSpan / 2.0,
           MaxR(b.theta - thetaSpan / 2.0, 0.0), b.theta + thetaSpan / 2.0)
  }

  function FirstWindow(span: real): Window {
    Window(0.1, 3.0 * span, 0.0, 0.5 * span)
  }

  /** The window of round n, unless an earlier round found no usable point. */
  function RoundWindow(obj: Objective, w0: Window, n: nat): Option<Window> {
    if n == 0 then Some(w0)
    else
      match RoundWindow(obj, w0, n - 1)
      case None => None
      case Some(w) =>
        match GridBest(obj, w, GRID_POINTS)
        case None => None
        case Some(b) => Some(NextWindow(w, b))
  }

  function RoundBest(obj: Objective, w0: Window, n: nat): Option<Best> {
    match RoundWindow(obj, w0, n)
    case None => None
    case Some(w) => GridBest(obj, w, GRID_POINTS)
  }

  function Search(obj: Objective, span: real): Option<Best> {
    if span <= 0.0 then None else RoundBest(obj, FirstWindow(span), ROUNDS - 1)
  }

  // ---- One round ----

  ghost predicate IsFirstMinimum(obj: Objective, w: Window, k: nat, i: nat, b: Best) {
    && i < k
    && (b.tau, b.theta) == GridPoint(w, i)
    && obj(b.tau, b.theta) == Some(b.sse)
    && forall j {:trigger GridPoint(w, j)} | 0 <= j < k ::
         var (tau, theta) := GridPoint(w, j);
         obj(tau, theta).Some? ==> b.sse <= obj(tau, theta).value && (j < i ==> b.sse < obj(tau, theta).value)
  }

  ghost predicate AllUnusable(obj: Objective, w: Window, k: nat) {
    forall j {:trigger GridPoint(w, j)} | 0 <= j < k :: obj(GridPoint(w, j).0, GridPoint(w, j).1).None?
  }

  /** A round returns the first of its minimal usable points, and nothing
      exactly when no point is usable. */
  lemma {:induction false} GridBestIsFirstMinimum(obj: Objective, w: Window, k: nat)
    ensures GridBest(obj, w, k).None? <==> AllUnusable(obj, w, k)
    ensures GridBest(obj, w, k).Some? ==> exists i :: IsFirstMinimum(obj, w, k, i, GridBest(obj, w, k).value)
  {
    if k > 0 {
      hide GridPoint;
      GridBestIsFirstMinimum(obj, w, k - 1);
      var (tau, theta) := GridPoint(w, k - 1);
      var prev, now := GridBest(obj, w, k - 1), GridBest(obj, w, k);
      if now.Some? {
        if prev.Some? && now == prev {
          var i: nat :| IsFirstMinimum(obj, w, k - 1, i, prev.value);
          assert IsFirstMinimum(obj, w, k, i, now.value);
        } else {
          assert now.value == Best(tau, theta, obj(tau, theta).value);
          if prev.Some? {
            var i: nat :| IsFirstMinimum(obj, w, k - 1, i, prev.value);
          }
          assert IsFirstMinimum(obj, w, k, k - 1, now.value);
        }
      }
    }
  }

  ghost predicate Sound(w: Window) {
    w.tauLo > 0.0 && w.tauHi > 0.0 && w.thetaLo >= 0.0 && w.thetaHi >= 0.0
  }

  lemma {:induction false} ScaleBetween(d: real, x: real, p: real)
    requires 0.0 <= x <= 24.0 && p == d * x
    ensures d >= 0.0 ==> 0.0 <= p <= 24.0 * d
    ensures d <= 0.0 ==> 24.0 * d <= p <= 0.0
  {
    assert d * (24.0 - x) == 24.0 * d - p;
  }

  /** Every grid value lies between the two ends, whichever is larger. */
  lemma {:induction false} GridValueBetween(lo: real, hi: real, i: nat)
    requires i < GRID_N
    ensures MinR(lo, hi) <= GridValue(lo, hi, i) <= MaxR(lo, hi)
  {
    var p := (hi - lo) * i as real;
    ScaleBetween(hi - lo, i as real, p);
    assert GridValue(lo, hi, i) == lo + p / 24.0;
  }

  /** The best of a sound window is a physical model: positive time constant,
      nonnegative dead time; and the next window is sound again. */
  lemma {:induction false} RoundStaysPhysical(obj: Objective, w: Window, b: Best)
    requires Sound(w) && GridBest(obj, w, GRID_POINTS) == Some(b)
    ensures MinR(w.tauLo, w.tauHi) <= b.tau <= MaxR(w.tauLo, w.tauHi)
    ensures MinR(w.thetaLo, w.thetaHi) <= b.theta <= MaxR(w.thetaLo, w.thetaHi)
    ensures b.tau > 0.0 && b.theta >= 0.0 && obj(b.tau, b.theta) == Some(b.sse)
    ensures Sound(NextWindow(w, b))
  {
    GridBestIsFirstMinimum(obj, w, GRID_POINTS);
    var i: nat :| IsFirstMinimum(obj, w, GRID_POINTS, i, b);
    GridValueBetween(w.tauLo, w.tauHi, i / GRID_N);
    GridValueBetween(w.thetaLo, w.thetaHi, i % GRID_N);
  }

  ghost predicate Inside(w: Window, b: Best) {
    w.tauLo <= b.tau <= w.tauHi && w.thetaLo <= b.theta <= w.thetaHi
  }

  /** Each window is at most 0.35 of the last, down to a floor, and it still
      holds the round's best exactly when that time constant is at least the
      lower clip. */
  lemma {:induction false} NextWindowShrinksAroundBest(w: Window, b: Best)
    requires b.theta >= 0.0
    ensures var w' := NextWindow(w, b);
            && w'.tauHi - w'.tauLo <= MaxR(SHRINK * (w.tauHi - w.tauLo), WIDTH_MIN)
            && w'.thetaHi - w'.thetaLo <= MaxR(SHRINK * (w.thetaHi - w.thetaLo), WIDTH_MIN)
            && (Inside(w', b) <==> b.tau >= TAU_MIN)
  {
  }

  /** Neither lower bound is clipped away from the round's best. */
  ghost predicate Centred(w: Window, b: Best) {
    && b.tau - Shrunk(w.tauHi - w.tauLo) / 2.0 >= TAU_MIN
    && (b.theta - Shrunk(w.thetaHi - w.thetaLo) / 2.0 >= 0.0 || b.theta == 0.0)
  }

  lemma {:induction false} MiddleOfGrid(x: real, s: real)
    ensures GridValue(x - s / 2.0, x + s / 2.0, 12) == x
    ensures GridValue(x, x + s / 2.0, 0) == x
  {
  }

  /** Without clipping the round's best is itself a point of the next grid,
      so the next round finds a point and it is no worse. */
  lemma {:induction false} CentredRoundKeepsBest(obj: Objective, w: Window, b: Best)
    requires obj(b.tau, b.theta) == Some(b.sse) && Centred(w, b)
    ensures GridBest(obj, NextWindow(w, b), GRID_POINTS).Some?
    ensures GridBest(obj, NextWindow(w, b), GRID_POINTS).value.sse <= b.sse
  {
    var w' := NextWindow(w, b);
    var j: nat := if b.theta == 0.0 then 0 else 12;
    MiddleOfGrid(b.tau, Shrunk(w.tauHi - w.tauLo));
    MiddleOfGrid(b.theta, Shrunk(w.thetaHi - w.thetaLo));
    var k := 12 * GRID_N + j;
    assert k / GRID_N == 12 && k % GRID_N == j;
    assert GridPoint(w', k) == (b.tau, b.theta);
    GridBestIsFirstMinimum(obj, w', GRID_POINTS);
  }

  /** The next round keeps the residual reached at b or improves on it. */
  ghost predicate NextRoundKeeps(obj: Objective, w: Window, b: Best) {
    var next := GridBest(obj, NextWindow(w, b), GRID_POINTS);
    next.Some? && next.value.sse <= b.sse
  }

  ghost predicate OnNextGrid(w: Window, b: Best) {
    exists k: nat :: k < GRID_POINTS && GridPoint(NextWindow(w, b), k) == (b.tau, b.theta)
  }

  /** The best value at b, one more everywhere else. */
  function SpikeAt(b: Best): Objective {
    (tau: real, theta: real) => if tau == b.tau && theta == b.theta then Some(b.sse) else Some(b.sse + 1.0)
  }

  lemma {:induction false} GridPointIsKept(obj: Objective, w: Window, b: Best)
    requires obj(b.tau, b.theta) == Some(b.sse) && OnNextGrid(w, b)
    ensures NextRoundKeeps(obj, w, b)
  {
    hide GridBest, NextWindow;
    GridBestIsFirstMinimum(obj, NextWindow(w, b), GRID_POINTS);
  }

  lemma {:induction false} SpikeIsLostOffGrid(w: Window, b: Best)
    requires NextRoundKeeps(SpikeAt(b), w, b)
    ensures OnNextGrid(w, b)
  {
    hide GridBest, NextWindow;
    var w' := NextWindow(w, b);
    GridBestIsFirstMinimum(SpikeAt(b), w', GRID_POINTS);
    var next := GridBest(SpikeAt(b), w', GRID_POINTS).value;
    var k: nat :| IsFirstMinimum(SpikeAt(b), w', GRID_POINTS, k, next);
    assert GridPoint(w', k) == (b.tau, b.theta);
  }

  /** The next round is no worse for every objective that agrees at b exactly
      when b is itself one of the next round's 625 points. */
  lemma {:induction false} KeptExactlyOnTheGrid(w: Window, b: Best)
    ensures (forall obj: Objective :: obj(b.tau, b.theta) == Some(b.sse) ==> NextRoundKeeps(obj, w, b)) <==> OnNextGrid(w, b)
  {
    hide NextRoundKeeps, OnNextGrid;
    if OnNextGrid(w, b) {
      forall obj: Objective | obj(b.tau, b.theta) == Some(b.sse)
        ensures NextRoundKeeps(obj, w, b)
      {
        GridPointIsKept(obj, w, b);
      }
    } else {
      assert SpikeAt(b)(b.tau, b.theta) == Some(b.sse);
      if NextRoundKeeps(SpikeAt(b), w, b) {
        SpikeIsLostOffGrid(w, b);
      }
    }
  }

  // ---- All rounds ----

  /** Every round that runs searches a sound window and its best is a usable
      physical model, minimal over the round's 625 points. */
  lemma {:induction false} EveryRoundIsPhysical(obj: Objective, w0: Window, n: nat)
    requires Sound(w0) && RoundWindow(obj, w0, n).Some?
    ensures Sound(RoundWindow(obj, w0, n).value)
    ensures RoundBest(obj, w0, n).Some? ==>
              var b := RoundBest(obj, w0, n).value;
              && b.tau > 0.0 && b.theta >= 0.0
              && exists i :: IsFirstMinimum(obj, RoundWindow(obj, w0, n).value, GRID_POINTS, i, b)
  {
    var w := RoundWindow(obj, w0, n).value;
    if n > 0 {
      EveryRoundIsPhysical(obj, w0, n - 1);
      var v := RoundWindow(obj, w0, n - 1).value;
      RoundStaysPhysical(obj, v, GridBest(obj, v, GRID_POINTS).value);
    }
    if RoundBest(obj, w0, n).Some? {
      RoundStaysPhysical(obj, w, RoundBest(obj, w0, n).value);
      GridBestIsFirstMinimum(obj, w, GRID_POINTS);
    }
  }

  lemma {:induction false} EarlierRoundsRan(obj: Objective, w0: Window, n: nat, m: nat)
    requires n <= m && RoundBest(obj, w0, m).Some?
    ensures RoundBest(obj, w0, n).Some?
    decreases m
  {
    if n < m {
      EarlierRoundsRan(obj, w0, n, m - 1);
    }
  }

  ghost predicate WideEnough(w: Window) {
    Sound(w) && w.tauLo >= TAU_MIN && w.tauHi >= TAU_MIN
  }

  /** From a first window above the lower clip, no round ever loses sight of
      the best of the round before it. A trace of at least 1/300 s starts so. */
  lemma {:induction false} BestNeverLeavesTheWindow(obj: Objective, w0: Window, n: nat)
    requires WideEnough(w0) && RoundBest(obj, w0, n).Some?
    ensures WideEnough(RoundWindow(obj, w0, n).value)
    ensures Inside(RoundWindow(obj, w0, n + 1).value, RoundBest(obj, w0, n).value)
  {
    if n > 0 {
      EarlierRoundsRan(obj, w0, n - 1, n);
      BestNeverLeavesTheWindow(obj, w0, n - 1);
    }
    var w, b := RoundWindow(obj, w0, n).value, RoundBest(obj, w0, n).value;
    RoundStaysPhysical(obj, w, b);
    NextWindowShrinksAroundBest(w, b);
  }

  /** No clipping in rounds n to m - 1. */
  ghost predicate CentredRounds(obj: Objective, w0: Window, n: nat, m: nat) {
    forall r | n <= r < m ::
      RoundBest(obj, w0, r).Some? ==> Centred(RoundWindow(obj, w0, r).value, RoundBest(obj, w0, r).value)
  }

  /** Without clipping the residual never rises from round to round, and no
      round comes back empty. */
  lemma {:induction false} RoundsNeverGetWorse(obj: Objective, w0: Window, n: nat, m: nat)
    requires Sound(w0) && n <= m && RoundBest(obj, w0, n).Some? && CentredRounds(obj, w0, n, m)
    ensures RoundBest(obj, w0, m).Some? && RoundBest(obj, w0, m).value.sse <= RoundBest(obj, w0, n).value.sse
    decreases m
  {
    if n < m {
      RoundsNeverGetWorse(obj, w0, n, m - 1);
      EveryRoundIsPhysical(obj, w0, m - 1);
      var w, b := RoundWindow(obj, w0, m - 1).value, RoundBest(obj, w0, m - 1).value;
      RoundStaysPhysical(obj, w, b);
      CentredRoundKeepsBest(obj, w, b);
    }
  }

  // ---- A clipped round can lose the best of an arbitrary objective ----

  /** Perfect at one point of the first grid of a one-second trace. */
  function Spike(): Objective {
    (tau: real, theta: real) => if tau == 0.1 && theta == 0.0 then Some(0.0) else Some(1.0)
  }

  /** The lower clip moves the best off the next grid: round 0 reaches a
      residual of 0 and round 1 returns 1. */
  lemma {:induction false} ClippedRoundCanLoseTheBest()
    ensures var w0 := FirstWindow(1.0);
            && RoundBest(Spike(), w0, 0) == Some(Best(0.1, 0.0, 0.0))
            && !Centred(w0, Best(0.1, 0.0, 0.0))
            && RoundBest(Spike(), w0, 1).Some? && RoundBest(Spike(), w0, 1).value.sse == 1.0
  {
    var w0, b := FirstWindow(1.0), Best(0.1, 0.0, 0.0);
    assert RoundWindow(Spike(), w0, 0) == Some(w0);
    GridBestIsFirstMinimum(Spike(), w0, GRID_POINTS);
    assert GridPoint(w0, 0) == (0.1, 0.0);
    var b0 := GridBest(Spike(), w0, GRID_POINTS).value;
    var i: nat :| IsFirstMinimum(Spike(), w0, GRID_POINTS, i, b0);
    assert b0 == b;
    var w1 := NextWindow(w0, b);
    assert w1.tauLo == 0.01 && w1.tauHi == 0.6075;
    assert RoundWindow(Spike(), w0, 1) == Some(w1);
    GridBestIsFirstMinimum(Spike(), w1, GRID_POINTS);
    assert GridPoint(w1, 0) == (0.01, w1.thetaLo);
    var b1 := GridBest(Spike(), w1, GRID_POINTS).value;
    var k: nat :| IsFirstMinimum(Spike(), w1, GRID_POINTS, k, b1);
    OffGrid(k / GRID_N);
  }

  lemma {:induction false} OffGrid(i: nat)
    ensures GridValue(0.01, 0.6075, i) != 0.1
  {
    if i <= 3 {
      assert 0.5975 * i as real <= 0.5975 * 3.0;
    } else {
      assert 0.5975 * i as real >= 0.5975 * 4.0;
    }
  }

  // ---- The search only compares residuals ----

  /** Two objectives that are usable at the same points and order them alike. */
  ghost predicate OrderAgree(f: Objective, g: Objective) {
    && (forall tau, theta :: f(tau, theta).Some? <==> g(tau, theta).Some?)
    && (forall tau, theta, tau', theta' ::
          f(tau, theta).Some? && f(tau', theta').Some? ==>
            (f(tau, theta).value < f(tau', theta').value <==> g(tau, theta).value < g(tau', theta').value))
  }

  ghost predicate SamePoint(f: Objective, g: Objective, x: Option<Best>, y: Option<Best>) {
    match (x, y)
    case (None, None) => true
    case (Some(b), Some(c)) =>
      b.tau == c.tau && b.theta == c.theta && f(b.tau, b.theta) == Some(b.sse) && g(c.tau, c.theta) == Some(c.sse)
    case _ => false
  }

  lemma {:induction false} GridBestAgrees(f: Objective, g: Objective, w: Window, k: nat)
    requires OrderAgree(f, g)
    ensures SamePoint(f, g, GridBest(f, w, k), GridBest(g, w, k))
  {
    if k > 0 {
      GridBestAgrees(f, g, w, k - 1);
    }
  }

  /** The same windows and the same best points, round by round. */
  lemma {:induction false} SearchAgrees(f: Objective, g: Objective, w0: Window, n: nat)
    requires OrderAgree(f, g)
    ensures RoundWindow(f, w0, n) == RoundWindow(g, w0, n)
    ensures SamePoint(f, g, RoundBest(f, w0, n), RoundBest(g, w0, n))
  {
    hide OrderAgree, GridBest;
    if n > 0 {
      SearchAgrees(f, g, w0, n - 1);
    }
    if RoundWindow(f, w0, n).Some? {
      GridBestAgrees(f, g, RoundWindow(f, w0, n).value, GRID_POINTS);
    }
  }
}
