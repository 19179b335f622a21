/** What an accepted FOPDT fit means, and what it does not depend on. */
module FopdtProofs {
  import opened Prelude
  import opened LeastSquares
  import opened Fopdt
  import G = GridSearch

  // ---- The accepted fit is the best model on the grid ----

  lemma {:induction false} SearchPointIsPhysical(exp: real -> real, data: seq<Point>)
    requires SearchTrace(exp, data).Some?
    ensures data != [] && Span(data) > 0.0
    ensures var best := SearchTrace(exp, data).value;
            && best.tau > 0.0 && best.theta >= 0.0
            && FitAt(exp, data, best.tau, best.theta).Some?
            && FitAt(exp, data, best.tau, best.theta).value.sse == best.sse
            && G.RoundBest(Residual(exp, data), G.FirstWindow(Span(data)), G.ROUNDS - 1) == Some(best)
  {
    hide G.GridBest, FitAt, G.IsFirstMinimum;
    var obj, w0 := Residual(exp, data), G.FirstWindow(Span(data));
    var w := G.RoundWindow(obj, w0, G.ROUNDS - 1).value;
    G.EveryRoundIsPhysical(obj, w0, G.ROUNDS - 1);
    G.RoundStaysPhysical(obj, w, SearchTrace(exp, data).value);
  }

  /** The search returns only usable points, so the second inner fit always
      succeeds and its error message can never be produced. */
  lemma {:induction false} VariationErrorUnreachable(exp: real -> real, data: seq<Point>, step: Float, minResponse: real)
    ensures Fit(exp, data, step, minResponse) != Err(NoVariation)
  {
    hide SearchTrace, FitAt;
    if SearchTrace(exp, data).Some? {
      SearchPointIsPhysical(exp, data);
    }
  }

  /** No line at any usable point of the window has a smaller residual. */
  ghost predicate BeatsGrid(exp: real -> real, data: seq<Point>, w: G.Window, sse: real) {
    forall j: nat, a, b {:trigger Competitor(exp, data, G.GridPoint(w, j), a, b)} |
        j < G.GRID_POINTS && G.GridPoint(w, j).0 > 0.0 ::
      FitAt(exp, data, G.GridPoint(w, j).0, G.GridPoint(w, j).1).Some? ==>
        sse <= Competitor(exp, data, G.GridPoint(w, j), a, b)
  }

  /** Residual of the response a + b * shape with shape (tau, theta). */
  ghost function Competitor(exp: real -> real, data: seq<Point>, point: (real, real), a: real, b: real): real {
    if point.0 > 0.0 then Sse(Shape(exp, point.0, point.1), a, b, data) else 0.0
  }

  lemma {:induction false} RoundBeatsItsGrid(exp: real -> real, data: seq<Point>, w: G.Window, best: G.Best)
    requires G.GridBest(Residual(exp, data), w, G.GRID_POINTS) == Some(best)
    ensures BeatsGrid(exp, data, w, best.sse)
  {
    var obj := Residual(exp, data);
    G.GridBestIsFirstMinimum(obj, w, G.GRID_POINTS);
    hide G.GridBest, G.GridPoint;
    var i: nat :| G.IsFirstMinimum(obj, w, G.GRID_POINTS, i, best);
    forall j: nat, a, b | j < G.GRID_POINTS && G.GridPoint(w, j).0 > 0.0
                          && FitAt(exp, data, G.GridPoint(w, j).0, G.GridPoint(w, j).1).Some?
      ensures best.sse <= Competitor(exp, data, G.GridPoint(w, j), a, b)
    {
      var (tau, theta) := G.GridPoint(w, j);
      assert obj(tau, theta) == Some(FitAt(exp, data, tau, theta).value.sse);
      hide FitLine;
      FittedLineIsTheUniqueMinimum(Shape(exp, tau, theta), data, a, b);
    }
  }

  /** An accepted fit is a physical model with an identifiable response, and
      no response curve at any usable point of the final grid fits the trace
      better. Where no round was clipped this holds on all nine grids. */
  lemma {:induction false} AcceptedFitIsBestOnTheGrid(exp: real -> real, data: seq<Point>, step: Float, minResponse: real)
    ensures Fit(exp, data, step, minResponse).Ok? ==> BestModel(exp, data, step, minResponse, Fit(exp, data, step, minResponse).value)
  {
    hide FitAt, SearchTrace, G.CentredRounds, BeatsGrid, G.RoundWindow, G.GridBest;
    if Fit(exp, data, step, minResponse).Ok? {
      var m := Fit(exp, data, step, minResponse).value;
      SearchPointIsPhysical(exp, data);
      var best := SearchTrace(exp, data).value;
      var b := FitAt(exp, data, m.tau, m.theta).value.b;
      DivideBack(b, step.v, m.k);
      var obj, w0 := Residual(exp, data), G.FirstWindow(Span(data));
      forall n: nat | n < G.ROUNDS && G.CentredRounds(obj, w0, n, G.ROUNDS - 1)
        ensures G.RoundWindow(obj, w0, n).Some? && BeatsGrid(exp, data, G.RoundWindow(obj, w0, n).value, best.sse)
      {
        G.EarlierRoundsRan(obj, w0, n, G.ROUNDS - 1);
        G.RoundsNeverGetWorse(obj, w0, n, G.ROUNDS - 1);
        RoundBeatsItsGrid(exp, data, G.RoundWindow(obj, w0, n).value, G.RoundBest(obj, w0, n).value);
        BeatsGridMonotone(exp, data, G.RoundWindow(obj, w0, n).value, G.RoundBest(obj, w0, n).value.sse, best.sse);
      }
    }
  }

  /** A physical model with enough response whose residual no curve on any
      final unclipped grid beats. */
  ghost predicate BestModel(exp: real -> real, data: seq<Point>, step: Float, minResponse: real, m: Model) {
    && m.k > 0.0 && m.tau >= MIN_TAU_S && m.theta >= 0.0 && step.Finite?
    && AbsR(m.k * step.v) >= minResponse
    && data != [] && FitAt(exp, data, m.tau, m.theta).Some?
    && FitAt(exp, data, m.tau, m.theta).value.b == m.k * step.v
    && var obj, w0, sse := Residual(exp, data), G.FirstWindow(Span(data)), FitAt(exp, data, m.tau, m.theta).value.sse;
       forall n: nat | n < G.ROUNDS && G.CentredRounds(obj, w0, n, G.ROUNDS - 1) ::
         G.RoundWindow(obj, w0, n).Some? && BeatsGrid(exp, data, G.RoundWindow(obj, w0, n).value, sse)
  }

  lemma {:induction false} BeatsGridMonotone(exp: real -> real, data: seq<Point>, w: G.Window, sse: real, sse': real)
    requires BeatsGrid(exp, data, w, sse) && sse' <= sse
    ensures BeatsGrid(exp, data, w, sse')
  {
    hide G.GridPoint, FitAt, Competitor;
  }

  // ---- A trace whose best model a clipped round loses ----

  /** Below zero the exponential is below one, and at most 3/4 from -0.4 on. */
  ghost predicate Decays(exp: real -> real) {
    (forall x :: x < 0.0 ==> exp(x) < 1.0) && forall x :: x <= -0.4 ==> exp(x) <= 0.75
  }

  /** The second time constant of the first grid of a six-minute trace. */
  const SLOW_TAU := 0.1 + 1079.9 / 24.0
  const LATE_THETA := 7.5
  const TRACE_N: nat := 361

  function ModelPoint(exp: real -> real, t: real): Point {
    Point(t, 50.0 + 10.0 * ShapeAt(exp, SLOW_TAU, LATE_THETA, t))
  }

  /** The exact response of a plant with a time constant of 45 s and a dead
      time of 7.5 s to a step of ten degrees, once a second for six minutes. */
  function ClippedTrace(exp: real -> real): (data: seq<Point>)
    ensures |data| == TRACE_N && forall i :: 0 <= i < TRACE_N ==> data[i] == ModelPoint(exp, i as real)
  {
    seq(TRACE_N, i => ModelPoint(exp, i as real))
  }

  lemma {:induction false} SumAtLeast(f: Point -> real, data: seq<Point>)
    requires data != [] && forall i :: 0 <= i < |data| ==> f(data[i]) >= 0.0
    ensures Sum(f, data) >= f(data[0])
    ensures |data| > 1 ==> Sum(f, data) >= f(data[0]) + f(data[|data| - 1])
  {
    var front := data[..|data| - 1];
    if front == [] {
      assert Sum(f, front) == 0.0;
    } else {
      SumAtLeast(f, front);
    }
  }

  lemma {:induction false} SquareOfEighth(x: real, q: real)
    requires x >= 0.125 && q == x * x
    ensures q >= 0.015625
  {
    var p := (x - 0.125) * (x + 0.125);
    assert p >= 0.0;
    assert p == q - 0.015625;
  }

  lemma {:induction false} SpreadSquares(x: real, v: real, q: real, r: real)
    requires v >= 0.25 && q == (0.0 - x) * (0.0 - x) && r == (v - x) * (v - x)
    ensures q + r >= 0.001
  {
    SquareSign(0.0 - x, q);
    SquareSign(v - x, r);
    if x >= 0.125 {
      assert q == x * x;
      SquareOfEighth(x, q);
    } else {
      SquareOfEighth(v - x, r);
    }
  }

  /** A shape that is zero at the first sample and at least a quarter at the
      last varies enough to be fitted. */
  lemma {:induction false} ClippedTraceIsUsable(exp: real -> real, tau: real, theta: real)
    requires tau > 0.0 && theta >= 0.0 && ShapeAt(exp, tau, theta, 360.0) >= 0.25
    ensures FitAt(exp, ClippedTrace(exp), tau, theta).Some?
  {
    hide Sum, Mean, Num, Sse, Slope, Intercept, Product, SquaredResidual, ClippedTrace;
    var data, g := ClippedTrace(exp), Shape(exp, tau, theta);
    var gBar := Mean(g, data);
    var sq := Square(g, gBar);
    forall i | 0 <= i < |data| ensures sq(data[i]) >= 0.0 {
      SquareSign(g(data[i]) - gBar, sq(data[i]));
    }
    SumAtLeast(sq, data);
    assert g(data[0]) == 0.0;
    SpreadSquares(gBar, g(data[360]), sq(data[0]), sq(data[360]));
    assert Den(g, data) == Sum(sq, data);
  }

  predicate Exact(g: Point -> real, a: real, b: real, p: Point) {
    p.y == a + b * g(p)
  }

  lemma {:induction false} ResidualSign(g: Point -> real, a: real, b: real, p: Point)
    ensures SquaredResidual(g, a, b)(p) >= 0.0
    ensures SquaredResidual(g, a, b)(p) == 0.0 <==> Exact(g, a, b, p)
  {
    var d := p.y - (a + b * g(p));
    assert SquaredResidual(g, a, b)(p) == d * d;
    SquareSign(d, SquaredResidual(g, a, b)(p));
  }

  /** A line leaves no residual exactly when it passes through every sample. */
  lemma {:induction false} NoResidualIsExact(g: Point -> real, a: real, b: real, data: seq<Point>)
    ensures Sse(g, a, b, data) >= 0.0
    ensures Sse(g, a, b, data) == 0.0 <==> forall i :: 0 <= i < |data| ==> Exact(g, a, b, data[i])
  {
    hide SquaredResidual, Exact;
    if data != [] {
      var front, p := data[..|data| - 1], data[|data| - 1];
      NoResidualIsExact(g, a, b, front);
      ResidualSign(g, a, b, p);
      assert Sse(g, a, b, data) == Sse(g, a, b, front) + SquaredResidual(g, a, b)(p);
      assert forall i :: 0 <= i < |front| ==> front[i] == data[i];
    }
  }

  lemma {:induction false} ZeroFactor(b: real, g: real)
    requires g > 0.0 && b * g == 0.0
    ensures b == 0.0
  {
  }

  /** Only dead times from seven to eight seconds fit the trace exactly. */
  lemma {:induction false} ExactFitPinsDeadTime(exp: real -> real, tau: real, theta: real)
    requires Decays(exp) && tau > 0.0 && theta >= 0.0
    ensures var fit := FitAt(exp, ClippedTrace(exp), tau, theta);
            fit.Some? ==> fit.value.sse >= 0.0 && (fit.value.sse == 0.0 ==> 7.0 <= theta < 8.0)
  {
    hide ClippedTrace;
    var data, g := ClippedTrace(exp), Shape(exp, tau, theta);
    var fit := FitAt(exp, data, tau, theta);
    if fit.Some? {
      FitLineFacts(g, data);
      hide FitAt, FitLine, Sse, Sum, Decays, Exact;
      var a, b := fit.value.a, fit.value.b;
      NoResidualIsExact(g, a, b, data);
      if fit.value.sse == 0.0 {
        assert Exact(g, a, b, data[0]) && Exact(g, a, b, data[7]) && Exact(g, a, b, data[8]);
        ExactLinePinsDeadTime(exp, tau, theta, a, b);
      }
    }
  }

  lemma {:induction false} ExactLinePinsDeadTime(exp: real -> real, tau: real, theta: real, a: real, b: real)
    requires Decays(exp) && tau > 0.0 && theta >= 0.0
    requires var g := Shape(exp, tau, theta);
             Exact(g, a, b, ModelPoint(exp, 0.0)) && Exact(g, a, b, ModelPoint(exp, 7.0)) && Exact(g, a, b, ModelPoint(exp, 8.0))
    ensures 7.0 <= theta < 8.0
  {
    hide Decays;
    assert a == 50.0;
    RampIsPositive(exp, SLOW_TAU, 0.5);
    assert ModelPoint(exp, 8.0).y > 50.0;
    if theta < 7.0 {
      RampIsPositive(exp, tau, 7.0 - theta);
      ZeroFactor(b, 1.0 - exp(-(7.0 - theta) / tau));
    }
  }

  lemma {:induction false} RampIsPositive(exp: real -> real, tau: real, d: real)
    requires Decays(exp) && tau > 0.0 && d > 0.0
    ensures 1.0 - exp(-d / tau) > 0.0
  {
    QuotientPositive(d, tau, d / tau);
    assert -d / tau == -(d / tau);
  }

  lemma {:induction false} RampIsHigh(exp: real -> real, tau: real, d: real)
    requires Decays(exp) && tau > 0.0 && d >= 0.4 * tau
    ensures 1.0 - exp(-d / tau) >= 0.25
  {
    QuotientOrder(d, tau, 0.4);
    assert -d / tau == -(d / tau);
  }

  /** Round 0 fits the trace exactly, at the true dead time. */
  lemma {:induction false} ExactModelIsFound(exp: real -> real) returns (best: G.Best)
    requires Decays(exp)
    ensures G.GridBest(Residual(exp, ClippedTrace(exp)), G.FirstWindow(360.0), G.GRID_POINTS) == Some(best)
    ensures 0.0 < best.tau <= 1080.0 && best.theta == LATE_THETA && best.sse == 0.0
  {
    hide G.GridBest, G.GridPoint, FitAt, Decays, ClippedTrace;
    var w0 := G.FirstWindow(360.0);
    var obj := Residual(exp, ClippedTrace(exp));
    TrueModelOnGrid();
    ExactModelFits(exp);
    G.GridBestIsFirstMinimum(obj, w0, G.GRID_POINTS);
    assert obj(G.GridPoint(w0, 26).0, G.GridPoint(w0, 26).1) == Some(0.0);
    best := G.GridBest(obj, w0, G.GRID_POINTS).value;
    var k: nat :| G.IsFirstMinimum(obj, w0, G.GRID_POINTS, k, best);
    FirstGridPoint(k);
    ExactFitPinsDeadTime(exp, best.tau, best.theta);
  }

  lemma {:induction false} TrueModelOnGrid()
    ensures G.GridPoint(G.FirstWindow(360.0), 26) == (SLOW_TAU, LATE_THETA)
  {
  }

  /** The first grid's dead times are multiples of seven and a half seconds. */
  lemma {:induction false} FirstGridPoint(k: nat)
    requires k < G.GRID_POINTS
    ensures var (tau, theta) := G.GridPoint(G.FirstWindow(360.0), k);
            0.0 < tau <= 1080.0 && theta >= 0.0 && (7.0 <= theta < 8.0 ==> theta == LATE_THETA)
  {
    G.GridValueBetween(0.1, 1080.0, k / G.GRID_N);
    var j := k % G.GRID_N;
    assert G.GridValue(0.0, 180.0, j) == 7.5 * j as real;
    if j >= 2 {
      assert 7.5 * j as real >= 15.0;
    }
  }

  lemma {:induction false} GridPointIsPhysical(w: G.Window, k: nat)
    requires G.Sound(w) && k < G.GRID_POINTS
    ensures G.GridPoint(w, k).0 > 0.0 && G.GridPoint(w, k).1 >= 0.0
  {
    G.GridValueBetween(w.tauLo, w.tauHi, k / G.GRID_N);
    G.GridValueBetween(w.thetaLo, w.thetaHi, k % G.GRID_N);
  }

  lemma {:induction false} ExactModelFits(exp: real -> real)
    requires Decays(exp)
    ensures var fit := FitAt(exp, ClippedTrace(exp), SLOW_TAU, LATE_THETA); fit.Some? && fit.value.sse == 0.0
  {
    hide ClippedTrace;
    var data, g := ClippedTrace(exp), Shape(exp, SLOW_TAU, LATE_THETA);
    RampIsHigh(exp, SLOW_TAU, 352.5);
    ClippedTraceIsUsable(exp, SLOW_TAU, LATE_THETA);
    NoResidualIsExact(g, 50.0, 10.0, data);
    ExactFitPinsDeadTime(exp, SLOW_TAU, LATE_THETA);
    hide FitLine, Sse, Sum;
    FittedLineIsTheUniqueMinimum(g, data, 50.0, 10.0);
  }

  /** The second grid's dead times are multiples of 1.625 seconds. */
  lemma {:induction false} NoSecondGridDeadTime(j: nat)
    ensures !(7.0 <= G.GridValue(0.0, 39.0, j) < 8.0)
  {
    if j <= 4 {
      assert 39.0 * j as real <= 39.0 * 4.0;
    } else {
      assert 39.0 * j as real >= 39.0 * 5.0;
    }
  }

  /** The window around the exact model: dead times from 0 to 39. */
  lemma {:induction false} SecondWindow(best: G.Best)
    requires 0.0 < best.tau <= 1080.0 && best.theta == LATE_THETA
    ensures var w1 := G.NextWindow(G.FirstWindow(360.0), best);
            && 0.0 < w1.tauLo <= 900.0 && w1.tauHi > 0.0 && w1.thetaLo == 0.0 && w1.thetaHi == 39.0
            && G.GridPoint(w1, 0) == (w1.tauLo, 0.0)
  {
    var w1 := G.NextWindow(G.FirstWindow(360.0), best);
    GridStartsAt(w1.tauLo, w1.tauHi);
    GridStartsAt(w1.thetaLo, w1.thetaHi);
    hide G.GridValue;
  }

  lemma {:induction false} GridStartsAt(lo: real, hi: real)
    ensures G.GridValue(lo, hi, 0) == lo
  {
    var width := hi - lo;
    assert width * 0.0 == 0.0;
  }

  lemma {:induction false} SecondRoundIsWorse(exp: real -> real, w1: G.Window)
    requires Decays(exp) && 0.0 < w1.tauLo <= 900.0 && w1.tauHi > 0.0 && w1.thetaLo == 0.0 && w1.thetaHi == 39.0
    requires G.GridPoint(w1, 0) == (w1.tauLo, 0.0)
    ensures var next := G.GridBest(Residual(exp, ClippedTrace(exp)), w1, G.GRID_POINTS); next.Some? && next.value.sse > 0.0
  {
    hide G.GridBest, FitAt, ClippedTrace, G.GridValue;
    RampIsHigh(exp, w1.tauLo, 360.0);
    ClippedTraceIsUsable(exp, w1.tauLo, 0.0);
    hide Decays;
    var obj := Residual(exp, ClippedTrace(exp));
    assert obj(G.GridPoint(w1, 0).0, G.GridPoint(w1, 0).1).Some?;
    G.GridBestIsFirstMinimum(obj, w1, G.GRID_POINTS);
    var next := G.GridBest(obj, w1, G.GRID_POINTS).value;
    var k: nat :| G.IsFirstMinimum(obj, w1, G.GRID_POINTS, k, next);
    GridPointIsPhysical(w1, k);
    NoSecondGridDeadTime(k % G.GRID_N);
    ExactFitPinsDeadTime(exp, next.tau, next.theta);
  }

  /** A clipped round loses the best model of a six-minute trace: with any
      decaying exponential, round 0 fits the trace perfectly at its true dead
      time, that point is off the next grid, and round 1 comes back worse. */
  lemma {:induction false} ClippedTraceLosesItsModel(exp: real -> real)
    requires Decays(exp)
    ensures var data := ClippedTrace(exp);
            var obj, w0 := Residual(exp, data), G.FirstWindow(Span(data));
            && G.RoundBest(obj, w0, 0).Some? && G.RoundBest(obj, w0, 1).Some?
            && var best, next := G.RoundBest(obj, w0, 0).value, G.RoundBest(obj, w0, 1).value;
               best.theta == LATE_THETA && best.sse == 0.0 && !G.OnNextGrid(w0, best) && next.sse > 0.0
  {
    hide G.GridBest, FitAt, Decays, G.FirstWindow, G.NextWindow, Residual, Earliest, Latest, ClippedTrace;
    var obj, w0 := Residual(exp, ClippedTrace(exp)), G.FirstWindow(360.0);
    SpanOfTrace(exp);
    var best := ExactModelIsFound(exp);
    var w1 := G.NextWindow(w0, best);
    SecondWindow(best);
    SecondRoundIsWorse(exp, w1);
    assert G.RoundWindow(obj, w0, 0) == Some(w0) && G.RoundWindow(obj, w0, 1) == Some(w1);
    if G.OnNextGrid(w0, best) {
      var i: nat :| i < G.GRID_POINTS && G.GridPoint(w1, i) == (best.tau, best.theta);
      NoSecondGridDeadTime(i % G.GRID_N);
    }
  }

  lemma {:induction false} SpanOfTrace(exp: real -> real)
    ensures Span(ClippedTrace(exp)) == 360.0
  {
    hide ClippedTrace, Earliest, Latest;
    var data := ClippedTrace(exp);
    EarliestIsLeast(data);
    assert data[0] in data && data[360] in data;
    forall p | p in data ensures 0.0 <= p.t <= 360.0 {
      var i :| 0 <= i < |data| && data[i] == p;
    }
  }

  lemma {:induction false} DivideBack(b: real, s: real, k: real)
    requires s != 0.0 && k == b / s
    ensures k * s == b
  {
  }

  lemma {:induction false} QuotientSign(b: real, s: real)
    requires s != 0.0
    ensures b / s > 0.0 <==> b * s > 0.0
    ensures b / s * s == b
  {
    var k := b / s;
    assert k * s == b;
    SameSign(k, s, b);
  }

  lemma {:induction false} SameSign(k: real, s: real, b: real)
    requires s != 0.0 && k * s == b
    ensures k > 0.0 <==> b * s > 0.0
  {
    if k == 0.0 {
      assert b == 0.0;
    } else if k > 0.0 {
      ProductSign(k, s, b);
    } else {
      ProductSign(-k, s, -b);
      assert (-b) * s == -(b * s);
    }
  }

  lemma {:induction false} ProductSign(k: real, s: real, b: real)
    requires k > 0.0 && s != 0.0 && k * s == b
    ensures b * s > 0.0
  {
    if s > 0.0 {
      ProductPositive(k, s, b);
      ProductPositive(b, s, b * s);
    } else {
      ProductPositive(k, -s, -b);
      ProductPositive(-b, -s, b * s);
    }
  }

  /** Which traces are refused, and why, exactly: too few samples, a step that
      is no number or none at all, no model anywhere on the grids; then, of the
      best model, a response against the step, a time constant under five
      seconds, or less response than asked for. Nothing else is refused, and the
      accepted gain is the fitted response divided by the step. */
  lemma {:induction false} FitRefusesExactly(exp: real -> real, data: seq<Point>, step: Float, minResponse: real)
    ensures var r := Fit(exp, data, step, minResponse);
            var usable := |data| >= 4 && step.Finite? && step.v != 0.0;
            && (r == Err(TooFewSamples) <==> |data| < 4)
            && (r == Err(InvalidStep) <==> |data| >= 4 && !usable)
            && (r == Err(NoModel) <==> usable && SearchTrace(exp, data).None?)
            && (usable && SearchTrace(exp, data).Some? ==>
                  Decided(FitOf(exp, data), SearchTrace(exp, data).value.tau, SearchTrace(exp, data).value.theta, step.v, minResponse, r))
  {
    hide SearchTrace, FitAt, Decided, Judge;
    if |data| >= 4 && step.Finite? && step.v != 0.0 && SearchTrace(exp, data).Some? {
      SearchPointIsPhysical(exp, data);
      var best := SearchTrace(exp, data).value;
      JudgeDecides(best.tau, best.theta, FitOf(exp, data), step.v, minResponse);
    }
  }

  /** The response fitted at the search's point. */
  ghost function FitOf(exp: real -> real, data: seq<Point>): real {
    match SearchTrace(exp, data)
    case None => 0.0
    case Some(best) => (match FitAt(exp, data, best.tau, best.theta) case None => 0.0 case Some(line) => line.b)
  }

  predicate Decided(b: real, tau: real, theta: real, step: real, minResponse: real, r: Result<Model>) {
    var enough := b >= minResponse || -b >= minResponse;
    && (r == Err(GainNotPositive) <==> b * step <= 0.0)
    && (r == Err(TooFast) <==> b * step > 0.0 && tau < 5.0)
    && (r == Err(ResponseTooSmall) <==> b * step > 0.0 && tau >= 5.0 && !enough)
    && (r.Ok? <==> b * step > 0.0 && tau >= 5.0 && enough)
    && (r.Ok? ==> r.value.k * step == b && r.value.tau == tau && r.value.theta == theta)
  }

  lemma {:induction false} JudgeDecides(tau: real, theta: real, b: real, step: real, minResponse: real)
    requires step != 0.0
    ensures Decided(b, tau, theta, step, minResponse, Judge(tau, theta, b, step, minResponse))
  {
    QuotientSign(b, step);
  }

  // ---- Order of the samples ----

  lemma {:induction false} EarliestIsLeast(data: seq<Point>)
    requires data != []
    ensures exists p :: p in data && p.t == Earliest(data)
    ensures exists p :: p in data && p.t == Latest(data)
    ensures forall p :: p in data ==> Earliest(data) <= p.t <= Latest(data)
  {
    if |data| == 1 {
      assert data[0] in data;
    } else {
      var front, last := data[..|data| - 1], data[|data| - 1];
      EarliestIsLeast(front);
      assert last in data;
      assert forall p :: p in data ==> p in front || p == last;
    }
  }

  lemma {:induction false} SpanPermutes(s: seq<Point>, t: seq<Point>)
    requires multiset(s) == multiset(t) && s != [] && t != []
    ensures Span(s) == Span(t)
  {
    EarliestIsLeast(s);
    EarliestIsLeast(t);
    assert forall p :: p in s <==> p in multiset(s);
    assert forall p :: p in t <==> p in multiset(t);
    hide Earliest, Latest;
  }

  lemma {:induction false} ResidualPermutes(exp: real -> real, s: seq<Point>, t: seq<Point>, tau: real, theta: real)
    requires multiset(s) == multiset(t)
    ensures FitAt(exp, s, tau, theta) == FitAt(exp, t, tau, theta)
  {
    hide FitLine;
    if tau > 0.0 {
      FitPermutes(Shape(exp, tau, theta), s, t);
    }
  }

  lemma {:induction false} SearchPermutes(exp: real -> real, s: seq<Point>, t: seq<Point>)
    requires multiset(s) == multiset(t) && s != [] && t != []
    ensures SearchTrace(exp, s) == SearchTrace(exp, t)
  {
    hide FitAt, G.RoundBest;
    SpanPermutes(s, t);
    hide Span;
    var f, g := Residual(exp, s), Residual(exp, t);
    forall tau, theta ensures f(tau, theta) == g(tau, theta) {
      ResidualPermutes(exp, s, t, tau, theta);
    }
    assert G.OrderAgree(f, g);
    G.SearchAgrees(f, g, G.FirstWindow(Span(s)), G.ROUNDS - 1);
  }

  /** The fit does not depend on the order of the samples. */
  lemma {:induction false} FitIgnoresOrder(exp: real -> real, s: seq<Point>, t: seq<Point>, step: Float, minResponse: real)
    requires multiset(s) == multiset(t)
    ensures Fit(exp, s, step, minResponse) == Fit(exp, t, step, minResponse)
  {
    assert |s| == |multiset(s)| == |multiset(t)| == |t|;
    hide SearchTrace, FitAt;
    if |s| >= 4 {
      SearchPermutes(exp, s, t);
      if SearchTrace(exp, s).Some? {
        var best := SearchTrace(exp, s).value;
        ResidualPermutes(exp, s, t, best.tau, best.theta);
      }
    }
  }

  // ---- Units and offset of the temperatures ----

  lemma {:induction false} SpanRescales(data: seq<Point>, scale: real, shift: real)
    requires data != []
    ensures Earliest(Rescale(data, scale, shift)) == Earliest(data)
    ensures Latest(Rescale(data, scale, shift)) == Latest(data)
  {
    if |data| > 1 {
      var n := |data| - 1;
      SpanRescales(data[..n], scale, shift);
      assert Rescale(data, scale, shift)[..n] == Rescale(data[..n], scale, shift);
    }
  }

  lemma {:induction false} ScaledOrder(q: real, x: real, y: real)
    requires q > 0.0
    ensures q * x < q * y <==> x < y
  {
    if x < y {
      ProductPositive(q, y - x, q * (y - x));
    } else if y < x {
      ProductPositive(q, x - y, q * (x - y));
    }
  }

  lemma {:induction false} RescaledObjectiveAgrees(exp: real -> real, data: seq<Point>, scale: real, shift: real)
    requires scale > 0.0
    ensures G.OrderAgree(Residual(exp, data), Residual(exp, Rescale(data, scale, shift)))
  {
    hide FitAt;
    var f, g := Residual(exp, data), Residual(exp, Rescale(data, scale, shift));
    var q := scale * scale;
    ProductPositive(scale, scale, q);
    forall tau, theta
      ensures f(tau, theta).Some? <==> g(tau, theta).Some?
      ensures f(tau, theta).Some? ==> g(tau, theta).value == q * f(tau, theta).value
    {
      FitRescales(exp, data, tau, theta, scale, shift);
    }
    hide Residual, Rescale;
    forall tau, theta, tau', theta' | f(tau, theta).Some? && f(tau', theta').Some?
      ensures f(tau, theta).value < f(tau', theta').value <==> g(tau, theta).value < g(tau', theta').value
    {
      ScaledOrder(q, f(tau, theta).value, f(tau', theta').value);
    }
  }

  /** The fit of a rescaled trace, as predicted from the fit of the trace. */
  function RescaleModel(r: Result<Model>, scale: real): Result<Model> {
    match r
    case Ok(m) => Ok(ScaleModel(m, scale))
    case Err(why) => Err(why)
  }

  function ScaleModel(m: Model, scale: real): Model {
    Model(scale * m.k, m.tau, m.theta)
  }

  lemma {:induction false} SearchRescales(exp: real -> real, data: seq<Point>, scale: real, shift: real)
    requires scale > 0.0 && data != []
    ensures var r, r' := SearchTrace(exp, data), SearchTrace(exp, Rescale(data, scale, shift));
            && (r.Some? <==> r'.Some?)
            && (r.Some? ==> r'.value.tau == r.value.tau && r'.value.theta == r.value.theta)
  {
    hide FitAt, G.RoundBest, G.OrderAgree;
    SpanRescales(data, scale, shift);
    RescaledObjectiveAgrees(exp, data, scale, shift);
    hide Earliest, Latest, Rescale;
    G.SearchAgrees(Residual(exp, data), Residual(exp, Rescale(data, scale, shift)), G.FirstWindow(Span(data)), G.ROUNDS - 1);
  }

  lemma {:induction false} GainRescales(b: real, s: real, scale: real)
    requires s != 0.0 && scale > 0.0
    ensures (scale * b) / s == scale * (b / s)
    ensures scale * (b / s) <= 0.0 <==> b / s <= 0.0
    ensures AbsR(scale * b) == scale * AbsR(b)
  {
    var k := b / s;
    DivideBack(b, s, k);
    assert scale * b == (scale * k) * s;
    DivideProduct(scale * k, s);
    ScaledOrder(scale, 0.0, k);
    ScaledOrder(scale, 0.0, b);
    ScaledOrder(scale, b, 0.0);
  }

  lemma {:induction false} DivideProduct(x: real, s: real)
    requires s != 0.0
    ensures (x * s) / s == x
  {
  }

  lemma {:induction false} JudgeRescales(tau: real, theta: real, b: real, b': real, step: real, minResponse: real, minResponse': real, scale: real)
    requires step != 0.0 && scale > 0.0 && b' == scale * b && minResponse' == scale * minResponse
    ensures Judge(tau, theta, b', step, minResponse')
         == RescaleModel(Judge(tau, theta, b, step, minResponse), scale)
  {
    GainRescales(b, step, scale);
    ScaledOrder(scale, AbsR(b), minResponse);
    hide AbsR;
    var m := ScaleModel(Model(b / step, tau, theta), scale);
    assert m.k == b' / step;
  }

  /** Equivariance of the whole identification: reading every temperature as
      scale * y + shift (scale positive) finds the same time constant and dead
      time, a gain scaled alike, and rejects for the same reason. */
  lemma {:induction false} FitFollowsUnits(exp: real -> real, data: seq<Point>, step: Float,
                                           minResponse: real, minResponse': real, scale: real, shift: real)
    requires scale > 0.0 && minResponse' == scale * minResponse
    ensures Fit(exp, Rescale(data, scale, shift), step, minResponse')
         == RescaleModel(Fit(exp, data, step, minResponse), scale)
  {
    var data' := Rescale(data, scale, shift);
    if data != [] {
      SearchRescales(exp, data, scale, shift);
      if SearchTrace(exp, data).Some? {
        var best := SearchTrace(exp, data).value;
        FitRescales(exp, data, best.tau, best.theta, scale, shift);
      }
      hide SearchTrace, FitAt, Fit, Rescale;
      FitOfRelatedTraces(exp, data, data', step, minResponse, minResponse', scale);
    }
  }

  lemma {:induction false} FitOfRelatedTraces(exp: real -> real, data: seq<Point>, data': seq<Point>, step: Float,
                                              minResponse: real, minResponse': real, scale: real)
    requires scale > 0.0 && minResponse' == scale * minResponse && |data'| == |data|
    requires SearchTrace(exp, data).Some? <==> SearchTrace(exp, data').Some?
    requires SearchTrace(exp, data).Some? ==>
               var best, best' := SearchTrace(exp, data).value, SearchTrace(exp, data').value;
               var fit, fit' := FitAt(exp, data, best.tau, best.theta), FitAt(exp, data', best.tau, best.theta);
               && best'.tau == best.tau && best'.theta == best.theta
               && (fit.Some? <==> fit'.Some?)
               && (fit.Some? ==> fit'.value.b == scale * fit.value.b)
    ensures Fit(exp, data', step, minResponse') == RescaleModel(Fit(exp, data, step, minResponse), scale)
  {
    hide SearchTrace, FitAt;
    if SearchTrace(exp, data).Some? && step.Finite? && step.v != 0.0 {
      var best := SearchTrace(exp, data).value;
      var fit, fit' := FitAt(exp, data, best.tau, best.theta), FitAt(exp, data', best.tau, best.theta);
      if fit.Some? {
        JudgeRescales(best.tau, best.theta, fit.value.b, fit'.value.b, step.v, minResponse, minResponse', scale);
      }
    }
    hide Judge;
  }

  lemma {:induction false} RescaleByOne(r: Result<Model>)
    ensures RescaleModel(r, 1.0) == r
  {
    if r.Ok? {
      var m := ScaleModel(r.value, 1.0);
      assert m.k == r.value.k;
    }
  }

  /** Adding a constant to every temperature changes nothing. */
  lemma {:induction false} FitIgnoresOffset(exp: real -> real, data: seq<Point>, step: Float, minResponse: real, shift: real)
    ensures Fit(exp, Rescale(data, 1.0, shift), step, minResponse) == Fit(exp, data, step, minResponse)
  {
    FitFollowsUnits(exp, data, step, minResponse, minResponse, 1.0, shift);
    RescaleByOne(Fit(exp, data, step, minResponse));
    hide Fit, RescaleModel;
  }

  // ---- Derived gains ----

  lemma {:induction false} KcIsTuned(m: Model)
    requires m.k > 0.0 && m.theta >= 0.0 && m.tau > 0.0
    ensures Kc(m) > 0.0
    ensures Kc(m) * (m.k * (Lambda(m.theta) + m.theta)) == m.tau
  {
    var d := m.k * (Lambda(m.theta) + m.theta);
    ProductPositive(m.k, Lambda(m.theta) + m.theta, d);
    DivideBack(m.tau, d, Kc(m));
    QuotientPositive(m.tau, d, Kc(m));
  }

  /** The IMC rule kc * k * (lambda + theta) = tau, with a lambda of 90 s up to
      a dead time of 30 s and of three dead times from there. */
  predicate ImcTuned(kc: real, m: Model) {
    && (m.theta <= 30.0 ==> kc * (m.k * (90.0 + m.theta)) == m.tau)
    && (m.theta >= 30.0 ==> kc * (m.k * (3.0 * m.theta + m.theta)) == m.tau)
  }

  /** Gains are derived exactly from models with a positive gain and a slow
      enough time constant whose Kc lies between a quarter and four times the
      default; they then satisfy the IMC rule. */
  lemma {:induction false} DerivedGainsAreTuned(m: Model, defaults: Gains)
    requires defaults.kc > 0.0 && m.theta >= 0.0
    ensures var r := DeriveGains(m, defaults);
            && (r.Ok? <==> m.k > 0.0 && m.tau >= MIN_TAU_S
                           && KC_RATIO_LO * defaults.kc <= Kc(m) <= KC_RATIO_HI * defaults.kc)
            && (r.Ok? ==> r.value.ti == m.tau && r.value.kc > 0.0
                          && ImcTuned(r.value.kc, m))
  {
    if m.k > 0.0 && m.tau >= MIN_TAU_S {
      KcIsTuned(m);
      BandMeaning(Kc(m), defaults.kc);
    }
    hide Kc, InBand;
  }

  lemma {:induction false} QuotientPositive(x: real, d: real, q: real)
    requires x > 0.0 && d > 0.0 && q == x / d
    ensures q > 0.0
  {
  }

  lemma {:induction false} QuotientOrder(x: real, d: real, c: real)
    requires d > 0.0
    ensures c <= x / d <==> c * d <= x
    ensures x / d <= c <==> x <= c * d
  {
    var r := x / d;
    DivideBack(x, d, r);
    ScaledOrder(d, r, c);
    ScaledOrder(d, c, r);
  }

  lemma {:induction false} BandMeaning(kc: real, d: real)
    requires d > 0.0
    ensures InBand(kc, d) <==> KC_RATIO_LO * d <= kc <= KC_RATIO_HI * d
  {
    QuotientOrder(kc, d, KC_RATIO_LO);
    QuotientOrder(kc, d, KC_RATIO_HI);
  }
}
