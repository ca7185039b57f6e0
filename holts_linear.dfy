/** Holt's linear (double) exponential smoothing (src/lib/holtsLinear.js):
    a level and a trend updated at every observation, with the time step
    guarded against zero. */
module HoltsLinear {
  import opened Wrappers
  import opened TsUtils

  /** `beta = 0.1`, the default the orchestrator always relies on. */
  const DefaultBeta: real := 0.1

  /** `dt || 1`: a zero time step is replaced by 1. */
  function NonZero(d: real): (r: real)
    ensures r != 0.0
    ensures d != 0.0 ==> r == d
    ensures d == 0.0 ==> r == 1.0
  {
    if d == 0.0 then 1.0 else d
  }

  datatype Smoothed = Smoothed(level: real, trend: real)

  /** `level = ys[0]`, `trend = (ys[1] − ys[0]) / (Δx₀ || 1)`. */
  function Init(xs: seq<real>, ys: seq<real>): Smoothed
    requires 2 <= |xs| == |ys|
  {
    Smoothed(ys[0], (ys[1] - ys[0]) / NonZero(xs[1] - xs[0]))
  }

  /** One observation y after a time step dt. */
  function Step(s: Smoothed, alpha: real, beta: real, y: real, dt: real): Smoothed {
    var level := alpha * y + (1.0 - alpha) * (s.level + s.trend * dt);
    Smoothed(level, beta * ((level - s.level) / NonZero(dt)) + (1.0 - beta) * s.trend)
  }

  /** The state once observation i has been taken in. */
  function StateAt(xs: seq<real>, ys: seq<real>, alpha: real, beta: real, i: nat): Smoothed
    requires 2 <= |xs| == |ys| && i < |ys|
  {
    if i == 0 then Init(xs, ys)
    else Step(StateAt(xs, ys, alpha, beta, i - 1), alpha, beta, ys[i], xs[i] - xs[i - 1])
  }

  function FittedOf(xs: seq<real>, ys: seq<real>, alpha: real, beta: real): (r: seq<real>)
    requires 2 <= |xs| == |ys|
    ensures |r| == |ys|
    ensures forall i :: 0 <= i < |ys| ==> r[i] == StateAt(xs, ys, alpha, beta, i).level
  {
    seq(|ys|, i requires 0 <= i < |ys| => StateAt(xs, ys, alpha, beta, i).level)
  }

  /** The smoothing loop: `level` and `trend` are reassigned at every
      observation and `fitted[i]` records the level. */
  method Smooth(xs: seq<real>, ys: seq<real>, alpha: real, beta: real)
    returns (fitted: seq<real>, level: real, trend: real)
    requires 2 <= |xs| == |ys|
    ensures fitted == FittedOf(xs, ys, alpha, beta)
    ensures Smoothed(level, trend) == StateAt(xs, ys, alpha, beta, |ys| - 1)
  {
    var n := |ys|;
    var init := Init(xs, ys);
    level, trend := init.level, init.trend;
    var a := new real[n];
    a[0] := level;
    for i := 1 to n
      invariant Smoothed(level, trend) == StateAt(xs, ys, alpha, beta, i - 1)
      invariant forall k :: 0 <= k < i ==> a[k] == StateAt(xs, ys, alpha, beta, k).level
    {
      var dt := xs[i] - xs[i - 1];
      var next := Step(Smoothed(level, trend), alpha, beta, ys[i], dt);
      assert next == StateAt(xs, ys, alpha, beta, i);
      level, trend := next.level, next.trend;
      a[i] := level;
    }
    fitted := a[..];
  }

  /** `holtsLinearFit(data, alpha, beta)`: `None` for missing data or fewer
      than two points; otherwise the fitted levels, their statistics, a
      predictor that interpolates in range and follows
      `level + trend·(x − lastX)` beyond it, and the fitted points. `show`
      prints the parameters as the template literal does. */
  function HoltsFitOf(data: Option<Series>, alpha: real, beta: real, show: real -> string)
    : Option<Forecast>
  {
    if data.None? || |data.value| < 2 then None
    else
      var xs, ys := Xs(data.value), Ys(data.value);
      var fitted := FittedOf(xs, ys, alpha, beta);
      var last := StateAt(xs, ys, alpha, beta, |ys| - 1);
      var stats := FitStatsOf(ys, fitted);
      Some(Forecast("Holt's(α=" + show(alpha) + ", β=" + show(beta) + ")", stats.r2, stats.mse,
                    Extrapolating(xs, fitted, last.trend), PointsOf(xs, fitted)))
  }

  method HoltsFit(data: Option<Series>, alpha: real, beta: real, show: real -> string)
    returns (r: Option<Forecast>)
    ensures r == HoltsFitOf(data, alpha, beta, show)
    ensures r.None? <==> data.None? || |data.value| < 2
  {
    if data.None? || |data.value| < 2 {
      return None;
    }
    var d := data.value;
    var xs, ys := Xs(d), Ys(d);
    var fitted, level, trend := Smooth(xs, ys, alpha, beta);
    var stats := CalcFitStats(ys, fitted);
    r := Some(Forecast("Holt's(α=" + show(alpha) + ", β=" + show(beta) + ")",
                       stats.r2, stats.mse,
                       Extrapolating(xs, fitted, trend), PointsOf(xs, fitted)));
  }

  /** Every observation lies on the line `y = m·x + c`. */
  predicate OnLine(xs: seq<real>, ys: seq<real>, m: real, c: real)
    requires |xs| == |ys|
  {
    forall k :: 0 <= k < |ys| ==> ys[k] == m * xs[k] + c
  }

  /** On exactly linear data with distinct timestamps, the level follows
      the data and the trend is m at every step, whatever α and β are. */
  lemma {:induction false} LinearDataTracked(xs: seq<real>, ys: seq<real>, alpha: real,
                                             beta: real, m: real, c: real, i: nat)
    requires 2 <= |xs| == |ys| && i < |ys| && StrictlyIncreasing(xs)
    requires OnLine(xs, ys, m, c)
    ensures StateAt(xs, ys, alpha, beta, i) == Smoothed(ys[i], m)
  {
    var j := if i == 0 then 1 else i;
    var x0, x1, y0, y1 := xs[j - 1], xs[j], ys[j - 1], ys[j];
    assert x0 < x1;
    assert y0 == m * x0 + c && y1 == m * x1 + c;
    if i == 0 {
      SlopeOnLine(m, c, x0, x1, y0, y1);
    } else {
      LinearDataTracked(xs, ys, alpha, beta, m, c, i - 1);
      StepOnLine(alpha, beta, m, c, x0, x1, y0, y1);
    }
  }

  /** The initial trend of two points on the line is its slope. */
  lemma SlopeOnLine(m: real, c: real, x0: real, x1: real, y0: real, y1: real)
    requires x0 < x1 && y0 == m * x0 + c && y1 == m * x1 + c
    ensures (y1 - y0) / NonZero(x1 - x0) == m
  {
    var d := x1 - x0;
    assert y1 - y0 == m * d;
    assert m * d / d == m;
  }

  /** A step from a point on the line, with the line's slope as trend, to
      the next point on the line lands on that point with the same trend. */
  lemma StepOnLine(alpha: real, beta: real, m: real, c: real,
                   x0: real, x1: real, y0: real, y1: real)
    requires x0 < x1 && y0 == m * x0 + c && y1 == m * x1 + c
    ensures Step(Smoothed(y0, m), alpha, beta, y1, x1 - x0) == Smoothed(y1, m)
  {
    var dt := x1 - x0;
    assert y0 + m * dt == y1;
    var level := alpha * y1 + (1.0 - alpha) * y1;
    assert level == y1;
    SlopeOnLine(m, c, x0, x1, y0, y1);
    assert beta * m + (1.0 - beta) * m == m;
  }

  /** Hence on linear data the fit is perfect: the fitted levels are the
      data, the residual is zero and the final trend is the line's slope. */
  lemma LinearDataFitsExactly(xs: seq<real>, ys: seq<real>, alpha: real, beta: real,
                              m: real, c: real)
    requires 2 <= |xs| == |ys| && StrictlyIncreasing(xs)
    requires OnLine(xs, ys, m, c)
    ensures FittedOf(xs, ys, alpha, beta) == ys
    ensures StateAt(xs, ys, alpha, beta, |ys| - 1).trend == m
    ensures FitStatsOf(ys, FittedOf(xs, ys, alpha, beta)).mse == 0.0
  {
    forall i | 0 <= i < |ys|
      ensures StateAt(xs, ys, alpha, beta, i) == Smoothed(ys[i], m)
    {
      LinearDataTracked(xs, ys, alpha, beta, m, c, i);
    }
    PerfectFit(ys);
  }
}
