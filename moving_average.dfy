/** Exponential moving average forecaster (src/lib/movingAverage.js). */
module MovingAverage {
  import opened Wrappers
  import opened TsUtils

  /** One smoothing step: `α·y + (1 − α)·prev`. */
  function Blend(alpha: real, y: real, prev: real): real {
    alpha * y + (1.0 - alpha) * prev
  }

  /** `ema[0] = ys[0]`, `ema[i] = α·ys[i] + (1 − α)·ema[i − 1]`. */
  function EmaAt(ys: seq<real>, alpha: real, i: nat): real
    requires i < |ys|
  {
    if i == 0 then ys[0]
    else Blend(alpha, ys[i], EmaAt(ys, alpha, i - 1))
  }

  function EmaOf(ys: seq<real>, alpha: real): (r: seq<real>)
    ensures |r| == |ys|
    ensures forall i :: 0 <= i < |ys| ==> r[i] == EmaAt(ys, alpha, i)
  {
    seq(|ys|, i requires 0 <= i < |ys| => EmaAt(ys, alpha, i))
  }

  /** The loop that fills the `ema` array index by index. */
  method Smooth(ys: seq<real>, alpha: real) returns (ema: seq<real>)
    requires |ys| > 0
    ensures ema == EmaOf(ys, alpha)
  {
    var n := |ys|;
    var a := new real[n];
    a[0] := ys[0];
    for i := 1 to n
      invariant forall k :: 0 <= k < i ==> a[k] == EmaAt(ys, alpha, k)
    {
      a[i] := Blend(alpha, ys[i], a[i - 1]);
    }
    ema := a[..];
  }

  /** `movingAverageFit(data, alpha)`: `None` for missing data or fewer
      than two points; otherwise the smoothed series, its fit statistics,
      the extrapolating predictor and the fitted points. `show` prints
      α in the equation as the template literal does; `avgSlope` is the
      slope helper the source imports. */
  function EmaFitOf(data: Option<Series>, alpha: real,
                   avgSlope: (seq<real>, seq<real>) -> real, show: real -> string)
    : Option<Forecast>
  {
    if data.None? || |data.value| < 2 then None
    else
      var xs, ys := Xs(data.value), Ys(data.value);
      var ema := EmaOf(ys, alpha);
      var stats := FitStatsOf(ys, ema);
      Some(Forecast("EMA(α=" + show(alpha) + ")", stats.r2, stats.mse,
                    Extrapolating(xs, ema, avgSlope(xs, ema)), PointsOf(xs, ema)))
  }

  method EmaFit(data: Option<Series>, alpha: real,
                avgSlope: (seq<real>, seq<real>) -> real, show: real -> string)
    returns (r: Option<Forecast>)
    ensures r == EmaFitOf(data, alpha, avgSlope, show)
    ensures r.None? <==> data.None? || |data.value| < 2
  {
    if data.None? || |data.value| < 2 {
      return None;
    }
    var d := data.value;
    var xs, ys := Xs(d), Ys(d);
    var ema := Smooth(ys, alpha);
    var slope := avgSlope(xs, ema);
    var stats := CalcFitStats(ys, ema);
    r := Some(Forecast("EMA(α=" + show(alpha) + ")", stats.r2, stats.mse,
                       Extrapolating(xs, ema, slope), PointsOf(xs, ema)));
  }

  /** With α = 1 the average follows the data exactly. */
  lemma EmaAlphaOne(ys: seq<real>)
    ensures EmaOf(ys, 1.0) == ys
  {
  }

  /** With α = 0 the average never leaves the first value. */
  lemma {:induction false} EmaAlphaZero(ys: seq<real>, i: nat)
    requires i < |ys|
    ensures EmaAt(ys, 0.0, i) == ys[0]
  {
    if i > 0 {
      EmaAlphaZero(ys, i - 1);
    }
  }

  /** For 0 ≤ α ≤ 1 every entry is a convex combination of the values seen
      so far, so it stays within any bounds those values respect. */
  lemma {:induction false} EmaWithinBounds(ys: seq<real>, alpha: real, i: nat, lo: real, hi: real)
    requires 0.0 <= alpha <= 1.0 && i < |ys|
    requires forall k :: 0 <= k <= i ==> lo <= ys[k] <= hi
    ensures lo <= EmaAt(ys, alpha, i) <= hi
  {
    if i > 0 {
      EmaWithinBounds(ys, alpha, i - 1, lo, hi);
      BlendWithin(alpha, ys[i], EmaAt(ys, alpha, i - 1), lo, hi);
    }
  }

  lemma BlendWithin(alpha: real, y: real, prev: real, lo: real, hi: real)
    requires 0.0 <= alpha <= 1.0 && lo <= y <= hi && lo <= prev <= hi
    ensures lo <= Blend(alpha, y, prev) <= hi
  {
    ConvexStep(prev, y, alpha);
    assert Blend(alpha, y, prev) == prev + alpha * (y - prev);
  }
}
