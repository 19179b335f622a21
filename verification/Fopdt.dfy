/** FOPDT identification of a device's step response, and the control gains
    derived from it. */
module Fopdt {
  import opened Prelude
  import opened LeastSquares
  import G = GridSearch

  const MIN_EC_RESPONSE_C := 3.0
  const MIN_TAU_S := 5.0
  const LAMBDA_FLOOR_S := 90.0
  const LAMBDA_THETA_MULT := 3.0
  const KC_RATIO_LO := 0.25
  const KC_RATIO_HI := 4.0

  datatype Model = Model(k: real, tau: real, theta: real)

  datatype Rejection =
    | TooFewSamples
    | InvalidStep
    | NoModel
    | NoVariation
    | GainNotPositive
    | TooFast
    | ResponseTooSmall
    | GainOutsideBand

  datatype Result<+T> = Ok(value: T) | Err(why: Rejection)

  function Earliest(data: seq<Point>): real
    requires data != []
  {
    if |data| == 1 then data[0].t else MinR(Earliest(data[..|data| - 1]), data[|data| - 1].t)
  }

  function Latest(data: seq<Point>): real
    requires data != []
  {
    if |data| == 1 then data[0].t else MaxR(Latest(data[..|data| - 1]), data[|data| - 1].t)
  }

  function Span(data: seq<Point>): real
    requires data != []
  {
    Latest(data) - Earliest(data)
  }

  /** The grid's objective: the least-squares residual at (tau, theta). */
  function Residual(exp: real -> real, data: seq<Point>): G.Objective {
    (tau: real, theta: real) =>
      match FitAt(exp, data, tau, theta)
      case None => None
      case Some(line) => Some(line.sse)
  }

  function SearchTrace(exp: real -> real, data: seq<Point>): Option<G.Best> {
    if data == [] then None else G.Search(Residual(exp, data), Span(data))
  }

  function Fit(exp: real -> real, data: seq<Point>, step: Float, minResponse: real): Result<Model> {
    if |data| < 4 then Err(TooFewSamples)
    else if step.NonFinite? || step.v == 0.0 then Err(InvalidStep)
    else
      match SearchTrace(exp, data)
      case None => Err(NoModel)
      case Some(best) =>
        match FitAt(exp, data, best.tau, best.theta)
        case None => Err(NoVariation)
        case Some(line) => Judge(best.tau, best.theta, line.b, step.v, minResponse)
  }

  /** The rejection rules, in the order they are applied. */
  function Judge(tau: real, theta: real, b: real, step: real, minResponse: real): Result<Model>
    requires step != 0.0
  {
    var k := b / step;
    if k <= 0.0 then Err(GainNotPositive)
    else if tau < MIN_TAU_S then Err(TooFast)
    else if AbsR(b) < minResponse then Err(ResponseTooSmall)
    else Ok(Model(k, tau, theta))
  }

  datatype Gains = Gains(kc: real, ti: real)

  /** The IMC filter constant, from the dead time exactly as fitted. */
  function Lambda(theta: real): real {
    MaxR(LAMBDA_THETA_MULT * theta, LAMBDA_FLOOR_S)
  }

  function Kc(model: Model): real
    requires model.k > 0.0 && model.theta >= 0.0
  {
    NonZeroProduct(model.k, Lambda(model.theta) + model.theta);
    model.tau / (model.k * (Lambda(model.theta) + model.theta))
  }

  predicate InBand(kc: real, default: real)
    requires default > 0.0
  {
    KC_RATIO_LO <= kc / default <= KC_RATIO_HI
  }

  function DeriveGains(model: Model, defaults: Gains): Result<Gains>
    requires defaults.kc > 0.0 && model.theta >= 0.0
  {
    if model.k <= 0.0 then Err(GainNotPositive)
    else if model.tau < MIN_TAU_S then Err(TooFast)
    else if InBand(Kc(model), defaults.kc) then Ok(Gains(Kc(model), model.tau))
    else Err(GainOutsideBand)
  }

  lemma {:induction false} NonZeroProduct(x: real, y: real)
    requires x > 0.0 && y > 0.0
    ensures x * y > 0.0
  {
  }

  /** The search, with its folds and its three nested loops. */
  method SearchTauTheta(exp: real -> real, data: seq<Point>) returns (r: Option<G.Best>)
    ensures r == SearchTrace(exp, data)
  {
    if data == [] {
      return None;
    }
    var tMin, tMax := data[0].t, data[0].t;
    for i := 1 to |data|
      invariant tMin == Earliest(data[..i]) && tMax == Latest(data[..i])
    {
      assert data[..i + 1][..i] == data[..i];
      tMin, tMax := MinR(tMin, data[i].t), MaxR(tMax, data[i].t);
    }
    assert data[..|data|] == data;
    var span := tMax - tMin;
    if span <= 0.0 {
      return None;
    }
    ghost var obj, w0 := Residual(exp, data), G.FirstWindow(span);
    var w := G.FirstWindow(span);
    assert SearchTrace(exp, data) == G.RoundBest(obj, w0, G.ROUNDS - 1);
    hide Residual, G.GridBest, G.NextWindow, G.FirstWindow, SearchTrace, Earliest, Latest;
    r := None;
    for round := 0 to G.ROUNDS
      invariant G.RoundWindow(obj, w0, round) == Some(w)
      invariant round > 0 ==> r == G.RoundBest(obj, w0, round - 1) && r.Some?
    {
      r := SearchRound(exp, data, w);
      if r.None? {
        LaterRoundsEmpty(obj, w0, round, G.ROUNDS - 1);
        return;
      }
      w := G.NextWindow(w, r.value);
    }
  }

  /** One round: 25 time constants by 25 dead times. */
  method SearchRound(exp: real -> real, data: seq<Point>, w: G.Window) returns (best: Option<G.Best>)
    ensures best == G.GridBest(Residual(exp, data), w, G.GRID_POINTS)
  {
    ghost var obj := Residual(exp, data);
    G.GridBestOfNone(obj, w);
    hide FitAt, G.GridBest, G.GridValue, G.Consider;
    best := None;
    for i := 0 to G.GRID_N
      invariant best == G.GridBest(obj, w, i * G.GRID_N)
    {
      var tau := G.GridValue(w.tauLo, w.tauHi, i);
      for j := 0 to G.GRID_N
        invariant best == G.GridBest(obj, w, i * G.GRID_N + j)
      {
        var theta := G.GridValue(w.thetaLo, w.thetaHi, j);
        var line := LinearFitAt(exp, data, tau, theta);
        var sse := match line case None => None case Some(l) => Some(l.sse);
        G.GridBestStep(obj, w, i, j);
        best := G.Consider(best, tau, theta, sse);
      }
    }
  }

  lemma {:induction false} LaterRoundsEmpty(obj: G.Objective, w0: G.Window, n: nat, m: nat)
    requires n <= m && G.RoundBest(obj, w0, n) == None
    ensures G.RoundBest(obj, w0, m) == None
    decreases m
  {
    hide G.GridBest, G.NextWindow;
    if n < m {
      LaterRoundsEmpty(obj, w0, n, m - 1);
    }
  }

  method FitFopdt(exp: real -> real, data: seq<Point>, step: Float, minResponse: real) returns (r: Result<Model>)
    ensures r == Fit(exp, data, step, minResponse)
  {
    hide SearchTrace, FitAt;
    if |data| < 4 {
      return Err(TooFewSamples);
    }
    if step.NonFinite? || step.v == 0.0 {
      return Err(InvalidStep);
    }
    var best := SearchTauTheta(exp, data);
    if best.None? {
      return Err(NoModel);
    }
    var line := LinearFitAt(exp, data, best.value.tau, best.value.theta);
    if line.None? {
      return Err(NoVariation);
    }
    var k := line.value.b / step.v;
    if k <= 0.0 {
      return Err(GainNotPositive);
    }
    if best.value.tau < MIN_TAU_S {
      return Err(TooFast);
    }
    if AbsR(line.value.b) < minResponse {
      return Err(ResponseTooSmall);
    }
    return Ok(Model(k, best.value.tau, best.value.theta));
  }
}
