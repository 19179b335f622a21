/** The inner fit of FOPDT identification: for a fixed time constant and dead
    time the step response is a line in the model's shape, and the two line
    coefficients are found by closed-form least squares. Arithmetic is over
    exact reals and the exponential is an arbitrary function. */
module LeastSquares {
  import opened Prelude

  datatype Point = Point(t: real, y: real)

  /** The fitted line y = a + b * g and its residual sum of squares. */
  datatype Line = Line(a: real, b: real, sse: real)

  function Sum(f: Point -> real, s: seq<Point>): real {
    if s == [] then 0.0 else Sum(f, s[..|s| - 1]) + f(s[|s| - 1])
  }

  function ShapeAt(exp: real -> real, tau: real, theta: real, t: real): real
    requires tau > 0.0
  {
    if t <= theta then 0.0 else 1.0 - exp(-(t - theta) / tau)
  }

  // Each summand is named once, so that equal summands are equal functions.

  function Shape(exp: real -> real, tau: real, theta: real): Point -> real
    requires tau > 0.0
  {
    (p: Point) => ShapeAt(exp, tau, theta, p.t)
  }

  function Value(): Point -> real {
    (p: Point) => p.y
  }

  function Product(g: Point -> real, gBar: real, yBar: real): Point -> real {
    (p: Point) => (g(p) - gBar) * (p.y - yBar)
  }

  function Square(g: Point -> real, gBar: real): Point -> real {
    (p: Point) => (g(p) - gBar) * (g(p) - gBar)
  }

  function SquaredResidual(g: Point -> real, a: real, b: real): Point -> real {
    (p: Point) => (p.y - (a + b * g(p))) * (p.y - (a + b * g(p)))
  }

  /** Residual sum of squares of the line a + b * g. */
  function Sse(g: Point -> real, a: real, b: real, data: seq<Point>): real {
    Sum(SquaredResidual(g, a, b), data)
  }

  function Mean(f: Point -> real, data: seq<Point>): real
    requires data != []
  {
    Sum(f, data) / |data| as real
  }

  const DEN_MIN := 0.000000001

  function Den(g: Point -> real, data: seq<Point>): real
    requires data != []
  {
    Sum(Square(g, Mean(g, data)), data)
  }

  function Num(g: Point -> real, data: seq<Point>): real
    requires data != []
  {
    Sum(Product(g, Mean(g, data), Mean(Value(), data)), data)
  }

  function Slope(num: real, den: real): real
    requires den != 0.0
  {
    num / den
  }

  function Intercept(yBar: real, b: real, gBar: real): real {
    yBar - b * gBar
  }

  function FitLine(g: Point -> real, data: seq<Point>): Option<Line> {
    if data == [] || Den(g, data) < DEN_MIN then None
    else
      var b := Slope(Num(g, data), Den(g, data));
      var a := Intercept(Mean(Value(), data), b, Mean(g, data));
      Some(Line(a, b, Sse(g, a, b, data)))
  }

  function FitAt(exp: real -> real, data: seq<Point>, tau: real, theta: real): Option<Line> {
    if tau <= 0.0 then None else FitLine(Shape(exp, tau, theta), data)
  }

  lemma {:induction false} SumSnoc(f: Point -> real, data: seq<Point>, i: nat)
    requires i < |data|
    ensures Sum(f, data[..i + 1]) == Sum(f, data[..i]) + f(data[i])
  {
    assert data[..i + 1][..i] == data[..i];
  }

  lemma {:induction false} SumLast(f: Point -> real, data: seq<Point>)
    requires data != []
    ensures Sum(f, data) == Sum(f, data[..|data| - 1]) + f(data[|data| - 1])
  {
  }

  lemma {:induction false} FitLineFromSums(g: Point -> real, data: seq<Point>, gBar: real, yBar: real, num: real, den: real)
    requires data != [] && gBar == Mean(g, data) && yBar == Mean(Value(), data)
    requires num == Sum(Product(g, gBar, yBar), data) && den == Sum(Square(g, gBar), data)
    ensures den < DEN_MIN ==> FitLine(g, data) == None
    ensures den >= DEN_MIN ==>
              var b := Slope(num, den);
              var a := Intercept(yBar, b, gBar);
              FitLine(g, data) == Some(Line(a, b, Sse(g, a, b, data)))
  {
    hide Sum, Sse, Mean, Slope, Intercept;
    assert Num(g, data) == num && Den(g, data) == den;
  }

  /** The shape at every sample, and the two means. */
  method ShapesAndMeans(exp: real -> real, data: seq<Point>, tau: real, theta: real)
    returns (g: seq<real>, gBar: real, yBar: real)
    requires tau > 0.0 && data != []
    ensures |g| == |data| && forall k :: 0 <= k < |g| ==> g[k] == ShapeAt(exp, tau, theta, data[k].t)
    ensures gBar == Mean(Shape(exp, tau, theta), data) && yBar == Mean(Value(), data)
  {
    hide Sum;
    ghost var shape := Shape(exp, tau, theta);
    SumOfNone(shape);
    SumOfNone(Value());
    g := [];
    var gSum, ySum := 0.0, 0.0;
    for i := 0 to |data|
      invariant |g| == i && forall k :: 0 <= k < i ==> g[k] == ShapeAt(exp, tau, theta, data[k].t)
      invariant gSum == Sum(shape, data[..i]) && ySum == Sum(Value(), data[..i])
    {
      SumSnoc(shape, data, i);
      SumSnoc(Value(), data, i);
      var gi := ShapeAt(exp, tau, theta, data[i].t);
      g := g + [gi];
      gSum, ySum := gSum + gi, ySum + data[i].y;
    }
    assert data[..|data|] == data;
    gBar, yBar := gSum / |data| as real, ySum / |data| as real;
  }

  /** The numerator and denominator of the slope. */
  method CentredSums(ghost shape: Point -> real, g: seq<real>, data: seq<Point>, gBar: real, yBar: real)
    returns (num: real, den: real)
    requires |g| == |data| && forall k :: 0 <= k < |g| ==> g[k] == shape(data[k])
    ensures num == Sum(Product(shape, gBar, yBar), data) && den == Sum(Square(shape, gBar), data)
  {
    hide Sum;
    num, den := 0.0, 0.0;
    SumOfNone(Product(shape, gBar, yBar));
    SumOfNone(Square(shape, gBar));
    for i := 0 to |data|
      invariant num == Sum(Product(shape, gBar, yBar), data[..i])
      invariant den == Sum(Square(shape, gBar), data[..i])
    {
      SumSnoc(Product(shape, gBar, yBar), data, i);
      SumSnoc(Square(shape, gBar), data, i);
      var gd := g[i] - gBar;
      num, den := num + gd * (data[i].y - yBar), den + gd * gd;
    }
    assert data[..|data|] == data;
  }

  method ResidualSum(ghost shape: Point -> real, g: seq<real>, data: seq<Point>, a: real, b: real)
    returns (sse: real)
    requires |g| == |data| && forall k :: 0 <= k < |g| ==> g[k] == shape(data[k])
    ensures sse == Sse(shape, a, b, data)
  {
    hide Sum;
    sse := 0.0;
    SumOfNone(SquaredResidual(shape, a, b));
    for i := 0 to |data|
      invariant sse == Sum(SquaredResidual(shape, a, b), data[..i])
    {
      SumSnoc(SquaredResidual(shape, a, b), data, i);
      var e := data[i].y - (a + b * g[i]);
      sse := sse + e * e;
    }
    assert data[..|data|] == data;
  }

  /** The closed-form fit with its loops. An empty trace has no variation. */
  method LinearFitAt(exp: real -> real, data: seq<Point>, tau: real, theta: real) returns (r: Option<Line>)
    ensures r == FitAt(exp, data, tau, theta)
  {
    if tau <= 0.0 || data == [] {
      return None;
    }
    ghost var shape := Shape(exp, tau, theta);
    hide Sum, Sse, Mean, FitLine, Slope, Intercept;
    var g, gBar, yBar := ShapesAndMeans(exp, data, tau, theta);
    var num, den := CentredSums(shape, g, data, gBar, yBar);
    FitLineFromSums(shape, data, gBar, yBar, num, den);
    if den < DEN_MIN {
      return None;
    }
    var b := Slope(num, den);
    var a := Intercept(yBar, b, gBar);
    var sse := ResidualSum(shape, g, data, a, b);
    return Some(Line(a, b, sse));
  }

  lemma {:induction false} SumOfNone(f: Point -> real)
    ensures Sum(f, []) == 0.0
  {
  }

  // ---- Optimality ----

  lemma {:induction false} SquareOfThree(u: real, w: real, e: real)
    ensures (u - w - e) * (u - w - e) == u * u - 2.0 * (u * w) + w * w + e * e - 2.0 * (e * (u - w))
  {
    assert (u - w - e) * (u - w - e) == (u - w) * (u - w) - 2.0 * (e * (u - w)) + e * e;
    assert (u - w) * (u - w) == u * u - 2.0 * (u * w) + w * w;
  }

  /** One summand of the residual, centred at any (gBar, yBar). */
  lemma {:induction false} ResidualExpands(y: real, g: real, a: real, b: real, gBar: real, yBar: real,
                                           r: real, u: real, v: real, e: real, uu: real, vu: real, vv: real)
    requires r == (y - (a + b * g)) * (y - (a + b * g))
    requires u == y - yBar && v == g - gBar && e == a - yBar + b * gBar
    requires uu == u * u && vu == v * u && vv == v * v
    ensures r == ExpansionTerm(b, e, u, v, uu, vu, vv)
  {
    assert b * v == b * g - b * gBar;
    assert y - (a + b * g) == u - b * v - e;
    SquareOfThree(u, b * v, e);
    assert u * (b * v) == b * vu;
    assert (b * v) * (b * v) == b * b * vv;
  }

  lemma {:induction false} SummandExpands(g: Point -> real, p: Point, a: real, b: real, gBar: real, yBar: real, e: real)
    requires e == a - yBar + b * gBar
    ensures SquaredResidual(g, a, b)(p)
         == ExpansionTerm(b, e, p.y - yBar, g(p) - gBar, Square(Value(), yBar)(p), Product(g, gBar, yBar)(p), Square(g, gBar)(p))
  {
    hide ExpansionTerm;
    var y, x, u, v := p.y, g(p), p.y - yBar, g(p) - gBar;
    assert SquaredResidual(g, a, b)(p) == (y - (a + b * x)) * (y - (a + b * x));
    assert Square(Value(), yBar)(p) == u * u && Product(g, gBar, yBar)(p) == v * u && Square(g, gBar)(p) == v * v;
    hide SquaredResidual, Square, Product, Value;
    ResidualExpands(y, x, a, b, gBar, yBar, (y - (a + b * x)) * (y - (a + b * x)), u, v, e, u * u, v * u, v * v);
  }

  lemma {:induction false} SseExpands(g: Point -> real, data: seq<Point>, a: real, b: real, gBar: real, yBar: real, e: real)
    requires e == a - yBar + b * gBar
    ensures Sse(g, a, b, data)
         == Expansion(b, e, |data| as real, Sum(Square(Value(), yBar), data),
                      Sum(Product(g, gBar, yBar), data), Sum(Square(g, gBar), data),
                      Centred(Sum(Value(), data), |data|, yBar), Centred(Sum(g, data), |data|, gBar))
  {
    if data == [] {
      CentredSumsVanish(e, b, Centred(0.0, 0, yBar), Centred(0.0, 0, gBar));
    } else {
      var front, p := data[..|data| - 1], data[|data| - 1];
      SseExpands(g, front, a, b, gBar, yBar, e);
      SumLast(SquaredResidual(g, a, b), data);
      SumLast(Square(Value(), yBar), data);
      SumLast(Product(g, gBar, yBar), data);
      SumLast(Square(g, gBar), data);
      SumLast(Value(), data);
      SumLast(g, data);
      SummandExpands(g, p, a, b, gBar, yBar, e);
      CentredStep(Sum(Value(), front), p.y, |front|, yBar);
      CentredStep(Sum(g, front), g(p), |front|, gBar);
      hide Expansion, ExpansionTerm, Sum, Square, Product, SquaredResidual, Centred;
      ExpansionStep(b, e, |front| as real,
                    Sum(Square(Value(), yBar), front), Sum(Product(g, gBar, yBar), front), Sum(Square(g, gBar), front),
                    Centred(Sum(Value(), front), |front|, yBar), Centred(Sum(g, front), |front|, gBar),
                    p.y - yBar, g(p) - gBar, Square(Value(), yBar)(p), Product(g, gBar, yBar)(p), Square(g, gBar)(p));
      assert |data| as real == |front| as real + 1.0;
    }
  }

  /** A sum of n values, each taken relative to `bar`. */
  function Centred(sum: real, n: nat, bar: real): real {
    sum - n as real * bar
  }

  /** The residual of the line with slope b and offset e from the means, from
      the centred sums of squares and products and the centred linear sums. */
  function Expansion(b: real, e: real, n: real, yy: real, gy: real, gg: real, y: real, g: real): real {
    yy - 2.0 * (b * gy) + b * b * gg + n * (e * e) - 2.0 * (e * (y - b * g))
  }

  /** One sample's part of the expansion. */
  function ExpansionTerm(b: real, e: real, u: real, v: real, uu: real, vu: real, vv: real): real {
    uu - 2.0 * (b * vu) + b * b * vv + e * e - 2.0 * (e * (u - b * v))
  }

  lemma {:induction false} CentredStep(sum: real, x: real, n: nat, bar: real)
    ensures Centred(sum + x, n + 1, bar) == Centred(sum, n, bar) + (x - bar)
  {
    assert (n as real + 1.0) * bar == n as real * bar + bar;
  }

  lemma {:induction false} ExpansionStep(b: real, e: real, m: real, yy: real, gy: real, gg: real, y: real, g: real,
                                         u: real, v: real, uu: real, vu: real, vv: real)
    ensures Expansion(b, e, m + 1.0, yy + uu, gy + vu, gg + vv, y + u, g + v)
         == Expansion(b, e, m, yy, gy, gg, y, g) + ExpansionTerm(b, e, u, v, uu, vu, vv)
  {
    assert b * (gy + vu) == b * gy + b * vu;
    assert b * b * (gg + vv) == b * b * gg + b * b * vv;
    assert (m + 1.0) * (e * e) == m * (e * e) + e * e;
    var s, t := y - b * g, u - b * v;
    assert b * (g + v) == b * g + b * v;
    assert (y + u) - b * (g + v) == s + t;
    assert e * (s + t) == e * s + e * t;
  }

  lemma {:induction false} CentredSumsVanish(e: real, b: real, x: real, y: real)
    requires x == 0.0 && y == 0.0
    ensures e * (x - b * y) == 0.0
  {
    assert b * y == 0.0;
  }

  /** With the true means the linear terms vanish, and the residual of any
      line is a quadratic in its slope and its offset from the means. */
  lemma {:induction false} SseQuadratic(g: Point -> real, data: seq<Point>, a: real, b: real, gBar: real, yBar: real, e: real)
    requires e == a - yBar + b * gBar
    requires Centred(Sum(g, data), |data|, gBar) == 0.0 && Centred(Sum(Value(), data), |data|, yBar) == 0.0
    ensures Sse(g, a, b, data)
         == Sum(Square(Value(), yBar), data) - 2.0 * (b * Sum(Product(g, gBar, yBar), data))
            + b * b * Sum(Square(g, gBar), data) + |data| as real * (e * e)
  {
    hide Sse, Sum, Centred;
    SseExpands(g, data, a, b, gBar, yBar, e);
    CentredSumsVanish(e, b, Centred(Sum(Value(), data), |data|, yBar), Centred(Sum(g, data), |data|, gBar));
  }

  lemma {:induction false} ProductPositive(u: real, w: real, p: real)
    requires u > 0.0 && w > 0.0 && p == u * w
    ensures p > 0.0
  {
  }

  lemma {:induction false} SquareSign(x: real, q: real)
    requires q == x * x
    ensures q >= 0.0 && (q == 0.0 <==> x == 0.0)
  {
    if x > 0.0 {
      ProductPositive(x, x, q);
    } else if x < 0.0 {
      ProductPositive(-x, -x, q);
    } else {
      assert x == 0.0;
      assert q == 0.0;
    }
  }

  lemma {:induction false} WeightedSquare(x: real, w: real, p: real)
    requires w > 0.0 && p == x * x * w
    ensures p >= 0.0 && (p == 0.0 <==> x == 0.0)
  {
    var q := x * x;
    SquareSign(x, q);
    if q > 0.0 {
      ProductPositive(q, w, p);
    } else {
      assert p == 0.0;
    }
  }

  lemma {:induction false} TwoPenalties(d: real, e: real, p: real, q: real, sse: real, sse': real)
    requires sse' == sse + p + q && p >= 0.0 && q >= 0.0
    requires (p == 0.0 <==> d == 0.0) && (q == 0.0 <==> e == 0.0)
    ensures sse' >= sse && (sse' == sse <==> d == 0.0 && e == 0.0)
  {
  }

  lemma {:induction false} CompleteTheSquare(b: real, b': real, num: real, den: real)
    requires num == b * den
    ensures -2.0 * (b' * num) + b' * b' * den == -2.0 * (b * num) + b * b * den + (b' - b) * (b' - b) * den
  {
    assert b' * num == b' * b * den && b * num == b * b * den;
    assert (b' - b) * (b' - b) == b' * b' - 2.0 * (b' * b) + b * b;
    assert (b' * b' - 2.0 * (b' * b) + b * b) * den == b' * b' * den - 2.0 * (b' * b * den) + b * b * den;
  }

  /** Two values of the quadratic, the first at its vertex. */
  lemma {:induction false} AboveTheVertex(c: real, b: real, b': real, num: real, den: real, e: real, n: real, sse: real, sse': real)
    requires num == b * den
    requires sse == c - 2.0 * (b * num) + b * b * den + n * (0.0 * 0.0)
    requires sse' == c - 2.0 * (b' * num) + b' * b' * den + n * (e * e)
    ensures sse' == sse + (b' - b) * (b' - b) * den + e * e * n
  {
    CompleteTheSquare(b, b', num, den);
    assert n * (e * e) == e * e * n;
    assert n * (0.0 * 0.0) == 0.0;
  }

  lemma {:induction false} OffsetFromOptimum(a: real, b: real, a': real, b': real, gBar: real, yBar: real)
    requires a == yBar - b * gBar
    ensures a - yBar + b * gBar == 0.0
    ensures a' - yBar + b' * gBar == (a' - a) + (b' - b) * gBar
    ensures b' == b ==> (b' - b) * gBar == 0.0
  {
    assert (b' - b) * gBar == b' * gBar - b * gBar;
  }

  lemma {:induction false} QuotientTimes(x: real, n: real, q: real)
    requires n > 0.0 && q == x / n
    ensures n * q == x && q * n == x
  {
  }

  /** Least-squares optimality: over data of any length and any shape, every
      other line has a residual exactly this much larger, so the fitted line
      is the unique minimiser. */
  lemma {:induction false} FittedLineIsTheUniqueMinimum(g: Point -> real, data: seq<Point>, a': real, b': real)
    requires FitLine(g, data).Some?
    ensures var Line(a, b, sse) := FitLine(g, data).value;
            var e := (a' - a) + (b' - b) * Mean(g, data);
            && Sse(g, a', b', data) == sse + (b' - b) * (b' - b) * Den(g, data) + e * e * |data| as real
            && Sse(g, a', b', data) >= sse
            && (Sse(g, a', b', data) == sse <==> a' == a && b' == b)
  {
    hide FitLine, Sse, Sum, Mean, Centred;
    FitLineFacts(g, data);
    var line := FitLine(g, data).value;
    MeanTimesCount(g, data);
    MeanTimesCount(Value(), data);
    VertexIsMinimum(g, data, Mean(g, data), Mean(Value(), data), Num(g, data), Den(g, data), line.a, line.b, a', b');
  }

  lemma {:induction false} FitLineFacts(g: Point -> real, data: seq<Point>)
    requires FitLine(g, data).Some?
    ensures data != [] && Den(g, data) > 0.0
    ensures var line := FitLine(g, data).value;
            && line.b * Den(g, data) == Num(g, data)
            && line.a == Mean(Value(), data) - line.b * Mean(g, data)
            && line.sse == Sse(g, line.a, line.b, data)
  {
    hide Sse, Sum, Mean, Num, Den;
    QuotientTimes(Num(g, data), Den(g, data), FitLine(g, data).value.b);
  }

  lemma {:induction false} MeanTimesCount(f: Point -> real, data: seq<Point>)
    requires data != []
    ensures Centred(Sum(f, data), |data|, Mean(f, data)) == 0.0
  {
    QuotientTimes(Sum(f, data), |data| as real, Mean(f, data));
  }

  lemma {:induction false} VertexIsMinimum(g: Point -> real, data: seq<Point>, gBar: real, yBar: real,
                                           num: real, den: real, a: real, b: real, a': real, b': real)
    requires data != [] && den > 0.0
    requires Centred(Sum(g, data), |data|, gBar) == 0.0 && Centred(Sum(Value(), data), |data|, yBar) == 0.0
    requires num == Sum(Product(g, gBar, yBar), data) && den == Sum(Square(g, gBar), data)
    requires b * den == num && a == yBar - b * gBar
    ensures var e := (a' - a) + (b' - b) * gBar;
            && Sse(g, a', b', data) == Sse(g, a, b, data) + (b' - b) * (b' - b) * den + e * e * |data| as real
            && Sse(g, a', b', data) >= Sse(g, a, b, data)
            && (Sse(g, a', b', data) == Sse(g, a, b, data) <==> a' == a && b' == b)
  {
    hide Sse, Sum, Centred;
    OffsetFromOptimum(a, b, a', b', gBar, yBar);
    SseQuadratic(g, data, a', b', gBar, yBar, (a' - a) + (b' - b) * gBar);
    SseQuadratic(g, data, a, b, gBar, yBar, 0.0);
    var n, e, sse, sse' := |data| as real, (a' - a) + (b' - b) * gBar, Sse(g, a, b, data), Sse(g, a', b', data);
    AboveTheVertex(Sum(Square(Value(), yBar), data), b, b', num, den, e, n, sse, sse');
    var p, q := (b' - b) * (b' - b) * den, e * e * n;
    WeightedSquare(b' - b, den, p);
    WeightedSquare(e, n, q);
    TwoPenalties(b' - b, e, p, q, sse, sse');
  }

  // ---- How the fit responds to reordering and to changing units ----

  lemma {:induction false} SumAppend(f: Point -> real, s: seq<Point>, t: seq<Point>)
    ensures Sum(f, s + t) == Sum(f, s) + Sum(f, t)
  {
    if t == [] {
      assert s + t == s;
    } else {
      assert (s + t)[..|s + t| - 1] == s + t[..|t| - 1];
      SumAppend(f, s, t[..|t| - 1]);
    }
  }

  lemma {:induction false} SumRemove(f: Point -> real, t: seq<Point>, j: nat)
    requires j < |t|
    ensures Sum(f, t) == Sum(f, t[..j] + t[j + 1..]) + f(t[j])
  {
    var l, r := t[..j], t[j + 1..];
    assert t == l + [t[j]] + r;
    SumAppend(f, l, r);
    SumAppend(f, l + [t[j]], r);
    assert (l + [t[j]])[..j] == l;
  }

  lemma {:induction false} RemoveKeepsMultiset(s: seq<Point>, t: seq<Point>, j: nat)
    requires s != [] && multiset(s) == multiset(t) && j < |t| && t[j] == s[|s| - 1]
    ensures multiset(s[..|s| - 1]) == multiset(t[..j] + t[j + 1..])
  {
    var front, l, r := s[..|s| - 1], t[..j], t[j + 1..];
    assert s == front + [t[j]];
    assert t == l + [t[j]] + r;
    assert multiset(s) == multiset(front) + multiset{t[j]};
    assert multiset(t) == multiset(l + r) + multiset{t[j]};
    assert multiset(front) == multiset(s) - multiset{t[j]};
    assert multiset(l + r) == multiset(t) - multiset{t[j]};
  }

  lemma {:induction false} SumPermutes(f: Point -> real, s: seq<Point>, t: seq<Point>)
    requires multiset(s) == multiset(t)
    ensures Sum(f, s) == Sum(f, t)
  {
    assert |s| == |multiset(s)| == |multiset(t)| == |t|;
    if s != [] {
      assert s[|s| - 1] in multiset(t);
      var j :| 0 <= j < |t| && t[j] == s[|s| - 1];
      RemoveKeepsMultiset(s, t, j);
      SumPermutes(f, s[..|s| - 1], t[..j] + t[j + 1..]);
      SumRemove(f, t, j);
    }
  }

  lemma {:induction false} SumScales(f: Point -> real, s: seq<Point>, f': Point -> real, s': seq<Point>, c: real)
    requires |s| == |s'| && forall i :: 0 <= i < |s| ==> f'(s'[i]) == c * f(s[i])
    ensures Sum(f', s') == c * Sum(f, s)
  {
    if s != [] {
      var n := |s| - 1;
      SumScales(f, s[..n], f', s'[..n], c);
      assert c * (Sum(f, s[..n]) + f(s[n])) == c * Sum(f, s[..n]) + c * f(s[n]);
    }
  }

  /** The same trace with every temperature y read as scale * y + shift. */
  function Rescale(data: seq<Point>, scale: real, shift: real): (r: seq<Point>)
    ensures |r| == |data|
    ensures forall i :: 0 <= i < |data| ==> r[i] == Point(data[i].t, scale * data[i].y + shift)
  {
    if data == [] then []
    else
      var p := data[|data| - 1];
      Rescale(data[..|data| - 1], scale, shift) + [Point(p.t, scale * p.y + shift)]
  }

  function RescaleLine(line: Line, scale: real, shift: real): Line {
    Line(scale * line.a + shift, scale * line.b, scale * scale * line.sse)
  }

  function RescaleFit(fit: Option<Line>, scale: real, shift: real): Option<Line> {
    match fit
    case None => None
    case Some(line) => Some(RescaleLine(line, scale, shift))
  }

  lemma {:induction false} MeanPermutes(f: Point -> real, s: seq<Point>, t: seq<Point>)
    requires multiset(s) == multiset(t) && s != [] && t != []
    ensures Mean(f, s) == Mean(f, t)
  {
    SumPermutes(f, s, t);
    assert |s| == |multiset(s)| == |multiset(t)| == |t|;
  }

  /** The fit does not depend on the order of the samples. */
  lemma {:induction false} FitPermutes(g: Point -> real, s: seq<Point>, t: seq<Point>)
    requires multiset(s) == multiset(t)
    ensures FitLine(g, s) == FitLine(g, t)
  {
    hide Sum, Mean, Slope, Intercept, SquaredResidual, Product, Square;
    assert |s| == |multiset(s)| == |multiset(t)| == |t|;
    if s != [] {
      MeanPermutes(g, s, t);
      MeanPermutes(Value(), s, t);
      var gBar, yBar := Mean(g, s), Mean(Value(), s);
      SumPermutes(Square(g, gBar), s, t);
      SumPermutes(Product(g, gBar, yBar), s, t);
      if Den(g, s) >= DEN_MIN {
        var b := Slope(Num(g, s), Den(g, s));
        SumPermutes(SquaredResidual(g, Intercept(yBar, b, gBar), b), s, t);
        assert Num(g, t) == Num(g, s) && Den(g, t) == Den(g, s);
        assert Sse(g, Intercept(yBar, b, gBar), b, s) == Sse(g, Intercept(yBar, b, gBar), b, t);
      }
    }
  }

  function Affine(scale: real, s: real, n: real, shift: real): real {
    scale * s + n * shift
  }

  lemma {:induction false} SumRescales(data: seq<Point>, scale: real, shift: real)
    ensures Sum(Value(), Rescale(data, scale, shift)) == Affine(scale, Sum(Value(), data), |data| as real, shift)
  {
    if data != [] {
      var n, data' := |data| - 1, Rescale(data, scale, shift);
      SumRescales(data[..n], scale, shift);
      assert data'[..n] == Rescale(data[..n], scale, shift);
      SumLast(Value(), data);
      SumLast(Value(), data');
      var y, y' := data[n].y, data'[n].y;
      hide Sum, Rescale;
      assert |data| as real == n as real + 1.0;
      AffineStep(n as real, Sum(Value(), data[..n]), y, y', scale, shift);
    }
  }

  lemma {:induction false} AffineStep(n: real, s: real, y: real, y': real, scale: real, shift: real)
    requires y' == scale * y + shift
    ensures Affine(scale, s, n, shift) + y' == Affine(scale, s + y, n + 1.0, shift)
  {
    assert scale * (s + y) == scale * s + scale * y;
    assert (n + 1.0) * shift == n * shift + shift;
  }

  lemma {:induction false} AffineMean(n: real, s: real, q: real, scale: real, shift: real)
    requires n > 0.0 && q == s / n
    ensures Affine(scale, s, n, shift) / n == scale * q + shift
  {
    QuotientTimes(s, n, q);
    assert scale * s == scale * q * n;
    assert scale * s + n * shift == (scale * q + shift) * n;
    TimesOver(scale * q + shift, n);
  }

  lemma {:induction false} TimesOver(x: real, n: real)
    requires n > 0.0
    ensures (x * n) / n == x
  {
  }

  lemma {:induction false} MeanRescales(data: seq<Point>, scale: real, shift: real)
    requires data != []
    ensures Mean(Value(), Rescale(data, scale, shift)) == scale * Mean(Value(), data) + shift
  {
    hide Sum;
    SumRescales(data, scale, shift);
    AffineMean(|data| as real, Sum(Value(), data), Mean(Value(), data), scale, shift);
  }

  lemma {:induction false} ShapeSumsUnmoved(exp: real -> real, data: seq<Point>, tau: real, theta: real, scale: real, shift: real)
    requires tau > 0.0 && data != []
    ensures var g, data' := Shape(exp, tau, theta), Rescale(data, scale, shift);
            Mean(g, data') == Mean(g, data) && Den(g, data') == Den(g, data)
  {
    hide Sum;
    var g, data' := Shape(exp, tau, theta), Rescale(data, scale, shift);
    SumScales(g, data, g, data', 1.0);
    var gBar := Mean(g, data);
    hide Mean;
    SumScales(Square(g, gBar), data, Square(g, gBar), data', 1.0);
  }

  lemma {:induction false} NumRescales(exp: real -> real, data: seq<Point>, tau: real, theta: real, scale: real, shift: real)
    requires tau > 0.0 && data != []
    ensures Num(Shape(exp, tau, theta), Rescale(data, scale, shift)) == scale * Num(Shape(exp, tau, theta), data)
  {
    ShapeSumsUnmoved(exp, data, tau, theta, scale, shift);
    MeanRescales(data, scale, shift);
    var g, data' := Shape(exp, tau, theta), Rescale(data, scale, shift);
    hide Sum, Mean, Den, Rescale, Value;
    assert forall i :: 0 <= i < |data| ==> g(data'[i]) == g(data[i]);
    ProductSumRescales(g, data, data', Mean(g, data), Mean(Value(), data), Mean(Value(), data'), scale, shift);
  }

  lemma {:induction false} ProductSumRescales(g: Point -> real, data: seq<Point>, data': seq<Point>,
                                              gBar: real, yBar: real, yBar': real, scale: real, shift: real)
    requires |data'| == |data| && yBar' == scale * yBar + shift
    requires forall i :: 0 <= i < |data| ==> data'[i].y == scale * data[i].y + shift && g(data'[i]) == g(data[i])
    ensures Sum(Product(g, gBar, yBar'), data') == scale * Sum(Product(g, gBar, yBar), data)
  {
    hide Sum;
    forall i | 0 <= i < |data|
      ensures Product(g, gBar, yBar')(data'[i]) == scale * Product(g, gBar, yBar)(data[i])
    {
      CentredValueScales(g(data[i]) - gBar, data[i].y, yBar, data'[i].y, yBar', scale, shift);
    }
    hide Product;
    SumScales(Product(g, gBar, yBar), data, Product(g, gBar, yBar'), data', scale);
  }

  lemma {:induction false} CentredValueScales(v: real, y: real, yBar: real, y': real, yBar': real, scale: real, shift: real)
    requires y' == scale * y + shift && yBar' == scale * yBar + shift
    ensures v * (y' - yBar') == scale * (v * (y - yBar))
  {
    assert y' - yBar' == scale * (y - yBar);
    assert v * (scale * (y - yBar)) == scale * (v * (y - yBar));
  }

  lemma {:induction false} ResidualScales(y: real, y': real, g: real, a: real, b: real, a': real, b': real, scale: real, shift: real)
    requires y' == scale * y + shift && a' == scale * a + shift && b' == scale * b
    ensures (y' - (a' + b' * g)) * (y' - (a' + b' * g)) == scale * scale * ((y - (a + b * g)) * (y - (a + b * g)))
  {
    var r, r' := y - (a + b * g), y' - (a' + b' * g);
    assert b' * g == scale * (b * g);
    assert scale * r == scale * y - scale * (a + b * g);
    assert scale * (a + b * g) == scale * a + scale * (b * g);
    assert r' == scale * r;
    SquareOfProduct(scale, r, r');
  }

  lemma {:induction false} SquareOfProduct(s: real, r: real, r': real)
    requires r' == s * r
    ensures r' * r' == s * s * (r * r)
  {
  }

  lemma {:induction false} ResidualSummandScales(g: Point -> real, p: Point, p': Point, a: real, b: real, a': real, b': real, scale: real, shift: real)
    requires p'.y == scale * p.y + shift && a' == scale * a + shift && b' == scale * b && g(p') == g(p)
    ensures SquaredResidual(g, a', b')(p') == scale * scale * SquaredResidual(g, a, b)(p)
  {
    ResidualScales(p.y, p'.y, g(p), a, b, a', b', scale, shift);
  }

  lemma {:induction false} SseRescales(g: Point -> real, data: seq<Point>, a: real, b: real, a': real, b': real, scale: real, shift: real, sse: real)
    requires sse == Sse(g, a, b, data)
    requires a' == scale * a + shift && b' == scale * b
    requires forall i :: 0 <= i < |data| ==> g(Rescale(data, scale, shift)[i]) == g(data[i])
    ensures Sse(g, a', b', Rescale(data, scale, shift)) == scale * scale * sse
  {
    hide Sum, SquaredResidual;
    var data' := Rescale(data, scale, shift);
    forall i | 0 <= i < |data|
      ensures SquaredResidual(g, a', b')(data'[i]) == scale * scale * SquaredResidual(g, a, b)(data[i])
    {
      ResidualSummandScales(g, data[i], data'[i], a, b, a', b', scale, shift);
    }
    SumScales(SquaredResidual(g, a, b), data, SquaredResidual(g, a', b'), data', scale * scale);
  }

  lemma {:induction false} CoefficientsRescale(num: real, num': real, den: real, gBar: real, yBar: real, yBar': real, scale: real, shift: real)
    requires den > 0.0 && num' == scale * num && yBar' == scale * yBar + shift
    ensures Slope(num', den) == scale * Slope(num, den)
    ensures Intercept(yBar', Slope(num', den), gBar) == scale * Intercept(yBar, Slope(num, den), gBar) + shift
  {
    var b, b' := Slope(num, den), Slope(num', den);
    QuotientTimes(num, den, b);
    assert num' == (scale * b) * den;
    TimesOver(scale * b, den);
    assert b' * gBar == scale * (b * gBar);
    assert scale * (yBar - b * gBar) == scale * yBar - scale * (b * gBar);
  }

  lemma {:induction false} LineRescales(g: Point -> real, data: seq<Point>, scale: real, shift: real)
    requires data != [] && Den(g, data) >= DEN_MIN
    requires forall i :: 0 <= i < |data| ==> g(Rescale(data, scale, shift)[i]) == g(data[i])
    requires var data' := Rescale(data, scale, shift);
             && Mean(g, data') == Mean(g, data) && Den(g, data') == Den(g, data)
             && Num(g, data') == scale * Num(g, data)
             && Mean(Value(), data') == scale * Mean(Value(), data) + shift
    ensures FitLine(g, Rescale(data, scale, shift)) == RescaleFit(FitLine(g, data), scale, shift)
  {
    hide Sum, Mean, Num, Den, Slope, Intercept, Sse;
    var data' := Rescale(data, scale, shift);
    var line, line' := FitLine(g, data).value, FitLine(g, data').value;
    CoefficientsRescale(Num(g, data), Num(g, data'), Den(g, data), Mean(g, data), Mean(Value(), data), Mean(Value(), data'), scale, shift);
    assert line'.b == scale * line.b && line'.a == scale * line.a + shift;
    assert FitLine(g, data) == Some(line) && FitLine(g, data') == Some(line');
    hide FitLine, Rescale;
    FitLineFacts(g, data);
    FitLineFacts(g, data');
    SseRescales(g, data, line.a, line.b, line'.a, line'.b, scale, shift, line.sse);
    var line'' := RescaleLine(line, scale, shift);
    assert line''.a == line'.a && line''.b == line'.b && line''.sse == line'.sse;
  }

  /** Equivariance: reading the temperatures in other units moves the line
      accordingly and scales the residual by the square of the scale. */
  lemma {:induction false} FitRescales(exp: real -> real, data: seq<Point>, tau: real, theta: real, scale: real, shift: real)
    ensures FitAt(exp, Rescale(data, scale, shift), tau, theta) == RescaleFit(FitAt(exp, data, tau, theta), scale, shift)
  {
    if tau > 0.0 && data != [] {
      var g := Shape(exp, tau, theta);
      ShapeSumsUnmoved(exp, data, tau, theta, scale, shift);
      MeanRescales(data, scale, shift);
      NumRescales(exp, data, tau, theta, scale, shift);
      hide Sum, Mean, Num, Den, Slope, Intercept, Sse;
      if Den(g, data) >= DEN_MIN {
        LineRescales(g, data, scale, shift);
      }
    }
  }
}
