/** The orchestrator (src/lib/trendEngine.js): dispatch over the nine trend
    families, the transforms applied before a regression fit and the
    predictor that undoes them, the recomputed statistics, the sampler of
    future points and the display labels. */
module TrendEngine {
  import opened Wrappers
  import opened TsUtils
  import Sma
  import MovingAverage
  import HoltsLinear
  import SinusoidalFit

  /** `TREND_TYPES`, in the source's order. */
  const TrendTypes: seq<string> :=
    ["linear", "polynomial", "exponential", "logarithmic", "power", "sinusoidal",
     "sma", "ema", "holts"]

  /** `config`: every field may be absent. */
  datatype Config = Config(typ: Option<string>, order: Option<real>,
                           windowSize: Option<int>, alpha: Option<real>)

  /** A fit returned by the `regression` library (or adapted from the
      sinusoidal fitter): `predict` yields `None` where the library's value
      is not a finite number. */
  datatype Inner = Inner(equation: string, predict: real -> Option<real>, points: seq<Point>)

  /** The code this module calls but does not define: the slope helper and
      number printing of the forecasters, `Math.sin` and π, and the
      `regression` library (`None` when it throws or returns nothing). */
  datatype Hosts = Hosts(avgSlope: (seq<real>, seq<real>) -> real, show: real -> string,
                         maths: SinusoidalFit.Maths,
                         polynomial: (real, Series) -> Option<Inner>,
                         regression: (string, Series) -> Option<Inner>)

  /** `{ equation, r2, rmse, predict, t0, points }`, with the RMSE carried
      as its square. */
  datatype Trend = Trend(equation: string, r2: real, mse: real,
                         predict: real -> Option<real>, t0: real, points: seq<Point>)

  function OrElse<T>(o: Option<T>, default: T): T {
    if o.Some? then o.value else default
  }

  /** `config.type || 'linear'`. */
  function TypeName(typ: Option<string>): string {
    if typ.None? || typ.value == "" then "linear" else typ.value
  }

  /** `config.order || 2`: an absent or zero order means 2. */
  function OrderOf(order: Option<real>): real {
    if order.None? || order.value == 0.0 then 2.0 else order.value
  }

  predicate TimeSeriesType(t: string) {
    t == "sma" || t == "ema" || t == "holts"
  }

  // ---------------------------------------------------------------------
  // The time-series branch (src/lib/trendEngine.js:31-56)
  // ---------------------------------------------------------------------

  /** `smaFit(data, windowSize ?? 10)`, `movingAverageFit(data, alpha ?? 0.3)`
      or `holtsLinearFit(data, alpha ?? 0.3)` with Holt's default β. */
  function TimeSeriesFit(data: Series, t: string, config: Config, h: Hosts): Option<Forecast>
    requires TimeSeriesType(t)
  {
    if t == "sma" then Sma.SmaFitOf(Some(data), OrElse(config.windowSize, 10), h.avgSlope)
    else if t == "ema" then
      MovingAverage.EmaFitOf(Some(data), OrElse(config.alpha, 0.3), h.avgSlope, h.show)
    else
      HoltsLinear.HoltsFitOf(Some(data), OrElse(config.alpha, 0.3), HoltsLinear.DefaultBeta, h.show)
  }

  /** A forecaster's predictor, whose values are always numbers. */
  function Finite(f: real -> real): real -> Option<real> {
    x => Some(f(x))
  }

  function FromForecast(f: Forecast, t0: real): Trend {
    Trend(f.equation, f.r2, f.mse, Finite(f.predict), t0, f.points)
  }

  // ---------------------------------------------------------------------
  // Transforms (src/lib/trendEngine.js:58-79)
  // ---------------------------------------------------------------------

  /** `t0`, `xOffset` and `yShift`. */
  datatype Transform = Transform(t0: real, xOffset: real, yShift: real)

  /** `xOffset`: 1 for the families that need positive x. */
  function XOffset(t: string): real {
    if t == "logarithmic" || t == "power" then 1.0 else 0.0
  }

  function Abs(v: real): real {
    if v < 0.0 then -v else v
  }

  /** `yShift`: `|minY| + 1` for the families that need positive y, when
      some y is not positive. */
  function YShift(ys: seq<real>, t: string): real
    requires |ys| > 0
  {
    if (t == "exponential" || t == "power") && SinusoidalFit.MinOf(ys) <= 0.0 then
      Abs(SinusoidalFit.MinOf(ys)) + 1.0
    else 0.0
  }

  function TransformOf(data: Series, t: string): Transform
    requires |data| > 0
  {
    Transform(data[0].x, XOffset(t), YShift(Ys(data), t))
  }

  /** Every point moved to `(x − t0 + xOffset, y + yShift)`. */
  function Transformed(data: Series, tr: Transform): (r: Series)
    ensures |r| == |data|
    ensures forall i :: 0 <= i < |data| ==>
      r[i] == Point(data[i].x - tr.t0 + tr.xOffset, data[i].y + tr.yShift)
  {
    seq(|data|, i requires 0 <= i < |data| =>
      Point(data[i].x - tr.t0 + tr.xOffset, data[i].y + tr.yShift))
  }

  /** `data.map(([x, y]) => [x − t0, y])`. */
  function Normalized(data: Series, t0: real): (r: Series)
    ensures |r| == |data|
    ensures forall i :: 0 <= i < |data| ==> r[i] == Point(data[i].x - t0, data[i].y)
  {
    seq(|data|, i requires 0 <= i < |data| => Point(data[i].x - t0, data[i].y))
  }

  /** `normalized.map(([x, y]) => [x + dx, y])`. */
  function OffsetX(data: Series, dx: real): (r: Series)
    ensures |r| == |data|
    ensures forall i :: 0 <= i < |data| ==> r[i] == Point(data[i].x + dx, data[i].y)
  {
    seq(|data|, i requires 0 <= i < |data| => Point(data[i].x + dx, data[i].y))
  }

  /** `normalized.map(([x, y]) => [x, y + dy])`. */
  function ShiftY(data: Series, dy: real): (r: Series)
    ensures |r| == |data|
    ensures forall i :: 0 <= i < |data| ==> r[i] == Point(data[i].x, data[i].y + dy)
  {
    seq(|data|, i requires 0 <= i < |data| => Point(data[i].x, data[i].y + dy))
  }

  /** `rawY − yShift`, where a non-number stays a non-number. */
  function Unshift(v: Option<real>, dy: real): Option<real> {
    if v.Some? then Some(v.value - dy) else None
  }

  /** The composed `predict`: `inner(x − t0 + xOffset) − yShift`. */
  function Restored(inner: real -> Option<real>, tr: Transform): real -> Option<real> {
    x => Unshift(inner(x - tr.t0 + tr.xOffset), tr.yShift)
  }

  // ---------------------------------------------------------------------
  // Inner fits (src/lib/trendEngine.js:81-97)
  // ---------------------------------------------------------------------

  /** The sinusoidal fitter's `predict` returns `[x, y]`; the caller takes
      `y`. */
  function SineValue(f: real -> Point): real -> Option<real> {
    x => Some(f(x).y)
  }

  function FromSine(f: SinusoidalFit.SineFit): Inner {
    Inner(f.equation, SineValue(f.predict), f.points)
  }

  /** The fit on the transformed data: the sinusoidal fitter, the
      polynomial regression with its order, one of the other regression
      families, or `None` for a name outside the table. */
  function InnerFit(normalized: Series, t: string, config: Config, h: Hosts): Option<Inner>
    requires t == "sinusoidal" ==> SinusoidalFit.SpanNonZero(Some(normalized))
  {
    if t == "sinusoidal" then Some(FromSine(SinusoidalFit.SineFitOf(Some(normalized), h.maths)))
    else if t == "polynomial" then h.polynomial(OrderOf(config.order), normalized)
    else if t in TrendTypes then h.regression(t, normalized)
    else None
  }

  // ---------------------------------------------------------------------
  // calcRMSE and calcR2 (src/lib/trendEngine.js:146-174)
  // ---------------------------------------------------------------------

  /** The squared error at one point, counted only where the prediction is
      a number. */
  function ErrAt(p: Point, predict: real -> Option<real>): real {
    var v := predict(p.x);
    if v.Some? then Sq(p.y - v.value) else 0.0
  }

  /** Σ (y − predict(x))² over the points with a finite prediction. */
  function ErrSum(data: Series, predict: real -> Option<real>): real {
    if data == [] then 0.0
    else ErrSum(data[..|data| - 1], predict) + ErrAt(data[|data| - 1], predict)
  }

  /** How many points have a finite prediction. */
  function FiniteCount(data: Series, predict: real -> Option<real>): nat {
    if data == [] then 0
    else FiniteCount(data[..|data| - 1], predict) + (if predict(data[|data| - 1].x).Some? then 1 else 0)
  }

  /** `calcRMSE`, squared: the mean squared error over the finite
      predictions, 0 when there are none. */
  function MseOf(data: Series, predict: real -> Option<real>): real {
    if |data| == 0 || FiniteCount(data, predict) == 0 then 0.0
    else ErrSum(data, predict) / FiniteCount(data, predict) as real
  }

  /** `calcR2`: the total variation is taken over every point, the residual
      only over the finite predictions. */
  function R2Of(data: Series, predict: real -> Option<real>): real {
    if |data| == 0 then 0.0
    else
      var ys := Ys(data);
      R2(SsTot(ys, Mean(ys)), ErrSum(data, predict))
  }

  method CalcRmse(data: Series, predict: real -> Option<real>) returns (mse: real)
    ensures mse == MseOf(data, predict)
  {
    if |data| == 0 {
      return 0.0;
    }
    var sumSqErr, count := 0.0, 0;
    for i := 0 to |data|
      invariant sumSqErr == ErrSum(data[..i], predict)
      invariant count == FiniteCount(data[..i], predict)
    {
      assert data[..i + 1][..i] == data[..i];
      var predicted := predict(data[i].x);
      if predicted.Some? {
        sumSqErr := sumSqErr + Sq(data[i].y - predicted.value);
        count := count + 1;
      }
    }
    assert data[..|data|] == data;
    mse := if count > 0 then sumSqErr / count as real else 0.0;
  }

  method CalcR2(data: Series, predict: real -> Option<real>) returns (r2: real)
    ensures r2 == R2Of(data, predict)
  {
    if |data| == 0 {
      return 0.0;
    }
    ghost var ys := Ys(data);
    var mean := Mean(Ys(data));
    var ssTot, ssRes := 0.0, 0.0;
    for i := 0 to |data|
      invariant ssTot == SsTot(ys[..i], mean)
      invariant ssRes == ErrSum(data[..i], predict)
    {
      assert data[..i + 1][..i] == data[..i];
      assert ys[..i + 1][..i] == ys[..i];
      ssTot := ssTot + Sq(data[i].y - mean);
      var py := predict(data[i].x);
      if py.Some? {
        ssRes := ssRes + Sq(data[i].y - py.value);
      }
    }
    assert data[..|data|] == data && ys[..|data|] == ys;
    r2 := if ssTot == 0.0 then 0.0 else 1.0 - ssRes / ssTot;
  }

  // ---------------------------------------------------------------------
  // fitTrend (src/lib/trendEngine.js:23-121)
  // ---------------------------------------------------------------------

  /** The sinusoidal fitter is modelled on flat data of any span, and on
      non-flat data whose first and last timestamps differ. */
  predicate SineReady(data: Option<Series>, config: Config) {
    TypeName(config.typ) == "sinusoidal" ==> SinusoidalFit.SpanNonZero(data)
  }

  /** Flat data are fitted by the sinusoidal family whatever their span. */
  lemma FlatSineReady(d: Series, config: Config)
    requires Constant(Ys(d))
    ensures SineReady(Some(d), config)
  {
    if |d| >= 4 {
      SinusoidalFit.SpreadZero(Ys(d));
    }
  }

  /** `fitTrend(data, config)`. */
  function FitTrendOf(data: Option<Series>, config: Config, h: Hosts): Option<Trend>
    requires SineReady(data, config)
  {
    if data.None? || |data.value| < 2 then None
    else if TimeSeriesType(TypeName(config.typ)) then
      TimeSeriesTrend(data.value, TypeName(config.typ), config, h)
    else TransformedTrend(data.value, TypeName(config.typ), config, h)
  }

  /** The time-series families work on the raw data; their result is
      passed on with `t0` added, or `null` passed on. */
  function TimeSeriesTrend(d: Series, t: string, config: Config, h: Hosts): Option<Trend>
    requires |d| >= 2 && TimeSeriesType(t)
  {
    var f := TimeSeriesFit(d, t, config, h);
    if f.None? then None else Some(FromForecast(f.value, d[0].x))
  }

  /** The other families fit the transformed data; the RMSE is taken there,
      r² on the raw data through the composed predictor. */
  function TransformedTrend(d: Series, t: string, config: Config, h: Hosts): Option<Trend>
    requires |d| >= 2
    requires t == "sinusoidal" ==> SinusoidalFit.SpanNonZero(Some(d))
  {
    var tr := TransformOf(d, t);
    var normalized := Transformed(d, tr);
    SpanSurvives(d, tr, t);
    var inner := InnerFit(normalized, t, config, h);
    if inner.None? then None
    else
      var predict := Restored(inner.value.predict, tr);
      Some(Trend(inner.value.equation, R2Of(d, predict), MseOf(normalized, inner.value.predict),
                 predict, tr.t0, inner.value.points))
  }

  /** For the sinusoidal family the transform only moves the timestamps,
      so first and last stay distinct. */
  lemma SpanSurvives(d: Series, tr: Transform, t: string)
    requires |d| >= 2 && tr == TransformOf(d, t)
    requires t == "sinusoidal" ==> SinusoidalFit.SpanNonZero(Some(d))
    ensures t == "sinusoidal" ==> SinusoidalFit.SpanNonZero(Some(Transformed(d, tr)))
  {
  }

  lemma NormalizedIsTransformed(d: Series, t0: real)
    ensures Normalized(d, t0) == Transformed(d, Transform(t0, 0.0, 0.0))
  {
  }

  lemma OffsetIsTransformed(d: Series, t0: real, dx: real)
    ensures OffsetX(Transformed(d, Transform(t0, 0.0, 0.0)), dx) == Transformed(d, Transform(t0, dx, 0.0))
  {
  }

  lemma ShiftIsTransformed(d: Series, t0: real, dx: real, dy: real)
    ensures ShiftY(Transformed(d, Transform(t0, dx, 0.0)), dy) == Transformed(d, Transform(t0, dx, dy))
  {
  }

  method FitTrend(data: Option<Series>, config: Config, h: Hosts) returns (r: Option<Trend>)
    requires SineReady(data, config)
    ensures r == FitTrendOf(data, config, h)
  {
    if data.None? || |data.value| < 2 {
      return None;
    }
    var d := data.value;
    var t := TypeName(config.typ);
    if TimeSeriesType(t) {
      assert FitTrendOf(data, config, h) == TimeSeriesTrend(d, t, config, h);
      var result;
      if t == "sma" {
        result := Sma.SmaFit(data, OrElse(config.windowSize, 10), h.avgSlope);
      } else if t == "ema" {
        result := MovingAverage.EmaFit(data, OrElse(config.alpha, 0.3), h.avgSlope, h.show);
      } else {
        result := HoltsLinear.HoltsFit(data, OrElse(config.alpha, 0.3), HoltsLinear.DefaultBeta,
                                       h.show);
      }
      if result.None? {
        return None;
      }
      return Some(FromForecast(result.value, d[0].x));
    }
    assert FitTrendOf(data, config, h) == TransformedTrend(d, t, config, h);
    var t0 := d[0].x;
    var normalized := Normalized(d, t0);
    NormalizedIsTransformed(d, t0);
    var xOffset := 0.0;
    if t == "logarithmic" || t == "power" {
      xOffset := 1.0;
      normalized := OffsetX(normalized, xOffset);
      OffsetIsTransformed(d, t0, xOffset);
    }
    assert Ys(normalized) == Ys(d);
    var yShift := 0.0;
    if t == "exponential" || t == "power" {
      var minY := SinusoidalFit.MinOf(Ys(normalized));
      if minY <= 0.0 {
        yShift := Abs(minY) + 1.0;
        normalized := ShiftY(normalized, yShift);
        ShiftIsTransformed(d, t0, xOffset, yShift);
      }
    }
    ghost var tr := Transform(t0, xOffset, yShift);
    assert tr == TransformOf(d, t);
    SpanSurvives(d, tr, t);
    var inner: Option<Inner>;
    if t == "sinusoidal" {
      var fit := SinusoidalFit.SinusoidalFit(Some(normalized), h.maths);
      inner := Some(FromSine(fit));
    } else if t == "polynomial" {
      inner := h.polynomial(OrderOf(config.order), normalized);
    } else if t in TrendTypes {
      inner := h.regression(t, normalized);
    } else {
      return None;
    }
    if inner.None? {
      return None;
    }
    var rmse := CalcRmse(normalized, inner.value.predict);
    var predict := Restored(inner.value.predict, Transform(t0, xOffset, yShift));
    var r2 := CalcR2(d, predict);
    r := Some(Trend(inner.value.equation, r2, rmse, predict, t0, inner.value.points));
  }

  // ---------------------------------------------------------------------
  // Properties of fitTrend
  // ---------------------------------------------------------------------

  /** `null` for missing data, fewer than two points or a name outside the
      table; the forecasters and the sinusoidal fitter always answer on two
      points or more, so only the regression library can fail otherwise. */
  lemma FitTrendNull(data: Option<Series>, config: Config, h: Hosts)
    requires SineReady(data, config)
    ensures var t := TypeName(config.typ);
      data.None? || |data.value| < 2 || t !in TrendTypes ==> FitTrendOf(data, config, h).None?
    ensures var t := TypeName(config.typ);
      data.Some? && |data.value| >= 2 && (TimeSeriesType(t) || t == "sinusoidal") ==>
        FitTrendOf(data, config, h).Some?
  {
  }

  /** A missing or empty type name fits exactly as `'linear'` does. */
  lemma DefaultTypeIsLinear(data: Option<Series>, config: Config, h: Hosts)
    ensures FitTrendOf(data, config.(typ := None), h) == FitTrendOf(data, config.(typ := Some("linear")), h)
    ensures FitTrendOf(data, config.(typ := Some("")), h) == FitTrendOf(data, config.(typ := Some("linear")), h)
  {
  }

  /** The time-series families see the raw data; their statistics,
      predictor and points are passed on unchanged, with `t0` the first
      timestamp, and Holt's always runs with its default β. */
  lemma TimeSeriesPassThrough(d: Series, config: Config, h: Hosts, x: real)
    requires |d| >= 2 && TimeSeriesType(TypeName(config.typ))
    ensures var t := TypeName(config.typ);
      var f := TimeSeriesFit(d, t, config, h);
      var r := FitTrendOf(Some(d), config, h);
      && f.Some? && r.Some?
      && r.value.equation == f.value.equation && r.value.r2 == f.value.r2
      && r.value.mse == f.value.mse && r.value.points == f.value.points
      && r.value.t0 == d[0].x && r.value.predict(x) == Some(f.value.predict(x))
    ensures TypeName(config.typ) == "holts" ==>
      TimeSeriesFit(d, "holts", config, h) ==
        HoltsLinear.HoltsFitOf(Some(d), OrElse(config.alpha, 0.3), HoltsLinear.DefaultBeta, h.show)
  {
  }

  /** The transform: `xOffset` is 1 exactly for the logarithmic and power
      families; `yShift` is non-zero only for the exponential and power
      families with a non-positive value, and then every shifted value is
      at least 1; for those two families every transformed value is
      positive. The first timestamp lands on `xOffset`. */
  lemma TransformRules(d: Series, t: string)
    requires |d| > 0
    ensures var tr := TransformOf(d, t);
      && (tr.xOffset == 1.0 <==> t == "logarithmic" || t == "power")
      && (tr.xOffset != 1.0 ==> tr.xOffset == 0.0)
      && (tr.yShift != 0.0 ==> t == "exponential" || t == "power")
      && Transformed(d, tr)[0].x == tr.xOffset
    ensures var tr := TransformOf(d, t);
      tr.yShift != 0.0 ==> forall i :: 0 <= i < |d| ==> Transformed(d, tr)[i].y >= 1.0
    ensures var tr := TransformOf(d, t);
      t == "exponential" || t == "power" ==> forall i :: 0 <= i < |d| ==> Transformed(d, tr)[i].y > 0.0
  {
    var ys := Ys(d);
    var m := SinusoidalFit.MinOf(ys);
    var tr := TransformOf(d, t);
    forall i | 0 <= i < |d|
      ensures tr.yShift != 0.0 ==> Transformed(d, tr)[i].y >= 1.0
      ensures t == "exponential" || t == "power" ==> Transformed(d, tr)[i].y > 0.0
    {
      assert m <= ys[i];
    }
  }

  /** At every data point the composed predictor and the fit on the
      transformed data agree on whether there is a value, and leave the
      same residual. */
  lemma ResidualsPreserved(d: Series, tr: Transform, inner: real -> Option<real>, i: nat)
    requires i < |d|
    ensures var p, q := d[i], Transformed(d, tr)[i];
      && (Restored(inner, tr)(p.x).Some? <==> inner(q.x).Some?)
      && (inner(q.x).Some? ==> Restored(inner, tr)(p.x).value - p.y == inner(q.x).value - q.y)
  {
    var p, q := d[i], Transformed(d, tr)[i];
    assert q.x == p.x - tr.t0 + tr.xOffset && q.y == p.y + tr.yShift;
    assert Restored(inner, tr)(p.x) == Unshift(inner(q.x), tr.yShift);
  }

  /** Hence the error sums, the counts and the RMSE agree: the RMSE taken
      on the transformed data is the RMSE of the composed predictor on the
      raw data. */
  lemma {:induction false} ErrorsPreserved(d: Series, tr: Transform, inner: real -> Option<real>)
    ensures ErrSum(d, Restored(inner, tr)) == ErrSum(Transformed(d, tr), inner)
    ensures FiniteCount(d, Restored(inner, tr)) == FiniteCount(Transformed(d, tr), inner)
    ensures MseOf(d, Restored(inner, tr)) == MseOf(Transformed(d, tr), inner)
  {
    if d != [] {
      var k := |d| - 1;
      var q := Transformed(d, tr);
      ErrorsPreserved(d[..k], tr, inner);
      assert q[..k] == Transformed(d[..k], tr);
      ResidualsPreserved(d, tr, inner, k);
      var u, v := Restored(inner, tr)(d[k].x), inner(q[k].x);
      if v.Some? {
        assert ErrAt(d[k], Restored(inner, tr)) == Sq(d[k].y - u.value);
        assert d[k].y - u.value == q[k].y - v.value;
      }
      assert ErrAt(d[k], Restored(inner, tr)) == ErrAt(q[k], inner);
    }
  }

  lemma {:induction false} ErrSumNonNegative(data: Series, predict: real -> Option<real>)
    ensures ErrSum(data, predict) >= 0.0
  {
    if data != [] {
      ErrSumNonNegative(data[..|data| - 1], predict);
      var v := predict(data[|data| - 1].x);
      if v.Some? {
        SqNonNegative(data[|data| - 1].y - v.value);
      }
    }
  }

  lemma {:induction false} ErrSumExact(data: Series, predict: real -> Option<real>)
    requires forall i :: 0 <= i < |data| ==> predict(data[i].x) == Some(data[i].y)
    ensures ErrSum(data, predict) == 0.0
    ensures FiniteCount(data, predict) == |data|
  {
    if data != [] {
      ErrSumExact(data[..|data| - 1], predict);
    }
  }

  /** `calcRMSE` is 0 without data or without a finite prediction, never
      negative, and 0 for a predictor that hits every point. */
  lemma MseRules(data: Series, predict: real -> Option<real>)
    ensures |data| == 0 || FiniteCount(data, predict) == 0 ==> MseOf(data, predict) == 0.0
    ensures MseOf(data, predict) >= 0.0
    ensures (forall i :: 0 <= i < |data| ==> predict(data[i].x) == Some(data[i].y)) ==>
      MseOf(data, predict) == 0.0
  {
    ErrSumNonNegative(data, predict);
    if forall i :: 0 <= i < |data| ==> predict(data[i].x) == Some(data[i].y) {
      ErrSumExact(data, predict);
    }
  }

  /** `calcR2` is 0 on flat data and at most 1 otherwise. */
  lemma R2Rules(data: Series, predict: real -> Option<real>)
    requires |data| > 0
    ensures Constant(Ys(data)) ==> R2Of(data, predict) == 0.0
    ensures !Constant(Ys(data)) ==> R2Of(data, predict) <= 1.0
  {
    var ys := Ys(data);
    FlatSeriesGuard(ys, ys);
    SsTotNonNegative(ys, Mean(ys));
    ErrSumNonNegative(data, predict);
    var t, e := SsTot(ys, Mean(ys)), ErrSum(data, predict);
    if t > 0.0 {
      assert e / t >= 0.0;
    }
  }

  // ---------------------------------------------------------------------
  // generatePredictionPoints (src/lib/trendEngine.js:124-144)
  // ---------------------------------------------------------------------

  /** `totalStart + step · i`. */
  function SampleX(start: real, step: real, i: nat): real {
    start + Mul(step, i as real)
  }

  /** The kept samples among the first k: those whose prediction is a
      number. */
  function Samples(predict: real -> Option<real>, start: real, step: real, k: nat): (r: seq<Point>)
    ensures |r| <= k
  {
    if k == 0 then []
    else
      var x := SampleX(start, step, k - 1);
      var v := predict(x);
      Samples(predict, start, step, k - 1) + (if v.Some? then [Point(x, v.value)] else [])
  }

  /** `(totalEnd − totalStart) / (numPoints − 1)`. */
  function StepOf(start: real, end: real, numPoints: nat): real
    requires numPoints != 1
  {
    (end - start) / (numPoints as real - 1.0)
  }

  function PredictionPointsOf(predict: real -> Option<real>, start: real, last: real,
                              horizon: real, numPoints: nat): seq<Point>
    requires numPoints != 1
  {
    Samples(predict, start, StepOf(start, last + horizon, numPoints), numPoints)
  }

  /** `numPoints = 200`: the count used when the caller passes none. */
  const DefaultPointCount: nat := 200

  function PointCount(numPoints: Option<nat>): nat {
    OrElse(numPoints, DefaultPointCount)
  }

  /** The sampling loop: `numPoints` (200 unless given) evenly spaced
      timestamps from the start to `last + horizon`, keeping the finite
      predictions. */
  method GeneratePredictionPoints(predict: real -> Option<real>, start: real, last: real,
                                  horizon: real, numPoints: Option<nat>)
    returns (points: seq<Point>)
    requires PointCount(numPoints) != 1
    ensures points == PredictionPointsOf(predict, start, last, horizon, PointCount(numPoints))
  {
    points := [];
    var totalStart := start;
    var totalEnd := last + horizon;
    var count := PointCount(numPoints);
    var step := (totalEnd - totalStart) / (count as real - 1.0);
    for i := 0 to count
      invariant points == Samples(predict, start, step, i)
    {
      var x := totalStart + Mul(step, i as real);
      var y := predict(x);
      if y.Some? {
        points := points + [Point(x, y.value)];
      }
    }
  }

  /** Every kept point carries the prediction at its own timestamp, taken
      at one of the sample indexes. */
  lemma {:induction false} SamplesArePredictions(predict: real -> Option<real>, start: real,
                                                 step: real, k: nat)
    ensures forall p :: p in Samples(predict, start, step, k) ==>
      predict(p.x) == Some(p.y) && exists i :: 0 <= i < k && p.x == SampleX(start, step, i)
  {
    if k > 0 {
      SamplesArePredictions(predict, start, step, k - 1);
    }
  }

  /** All k samples are kept exactly when every prediction is a number. */
  lemma {:induction false} SamplesAllKept(predict: real -> Option<real>, start: real,
                                          step: real, k: nat)
    ensures |Samples(predict, start, step, k)| == k <==>
      forall i :: 0 <= i < k ==> predict(SampleX(start, step, i)).Some?
    ensures (forall i :: 0 <= i < k ==> predict(SampleX(start, step, i)).Some?) ==>
      forall i :: 0 <= i < k ==> Samples(predict, start, step, k)[i].x == SampleX(start, step, i)
  {
    if k > 0 {
      SamplesAllKept(predict, start, step, k - 1);
    }
  }

  lemma SampleStep(step: real, i: nat, j: nat)
    requires step > 0.0 && i < j
    ensures Mul(step, i as real) < Mul(step, j as real)
  {
    MulPositive(step, (j - i) as real);
    assert Mul(step, j as real) - Mul(step, i as real) == Mul(step, (j - i) as real);
  }

  /** With a positive step the kept timestamps are strictly increasing and
      lie before the next sample. */
  lemma {:induction false} SamplesIncreasing(predict: real -> Option<real>, start: real,
                                             step: real, k: nat)
    requires step > 0.0
    ensures StrictlyIncreasing(Xs(Samples(predict, start, step, k)))
    ensures forall p :: p in Samples(predict, start, step, k) ==> p.x < SampleX(start, step, k)
  {
    if k > 0 {
      var prev := Samples(predict, start, step, k - 1);
      SamplesIncreasing(predict, start, step, k - 1);
      SampleStep(step, k - 1, k);
      var x := SampleX(start, step, k - 1);
      var r := Samples(predict, start, step, k);
      assert r[..|prev|] == prev;
      forall i, j | 0 <= i < j < |r|
        ensures Xs(r)[i] < Xs(r)[j]
      {
        if j >= |prev| {
          assert r[i] in prev;
        } else {
          assert Xs(prev)[i] < Xs(prev)[j];
        }
      }
    }
  }

  /** `step · (numPoints − 1)` spans exactly from the start to the end. */
  lemma LastSample(start: real, end: real, numPoints: nat)
    requires numPoints >= 2
    ensures SampleX(start, StepOf(start, end, numPoints), numPoints - 1) == end
  {
    var d := numPoints as real - 1.0;
    assert (numPoints - 1) as real == d;
    assert (end - start) / d * d == end - start;
  }

  /** For at least two points: the output never has more than `numPoints`
      entries, exactly that many when every prediction is a number, and
      then it starts at the start timestamp and ends at `last + horizon`;
      every output point carries a finite prediction at its timestamp; the
      timestamps increase when the end lies after the start. */
  lemma PredictionPoints(predict: real -> Option<real>, start: real, last: real, horizon: real,
                         numPoints: nat)
    requires numPoints >= 2
    ensures var r := PredictionPointsOf(predict, start, last, horizon, numPoints);
      && |r| <= numPoints
      && (forall p :: p in r ==> predict(p.x) == Some(p.y))
      && (start < last + horizon ==> StrictlyIncreasing(Xs(r)))
    ensures var r := PredictionPointsOf(predict, start, last, horizon, numPoints);
      var step := StepOf(start, last + horizon, numPoints);
      (forall i :: 0 <= i < numPoints ==> predict(SampleX(start, step, i)).Some?) ==>
        |r| == numPoints && r[0].x == start && r[numPoints - 1].x == last + horizon
  {
    var step := StepOf(start, last + horizon, numPoints);
    SamplesArePredictions(predict, start, step, numPoints);
    SamplesAllKept(predict, start, step, numPoints);
    LastSample(start, last + horizon, numPoints);
    assert SampleX(start, step, 0) == start;
    if start < last + horizon {
      assert step > 0.0;
      SamplesIncreasing(predict, start, step, numPoints);
    }
  }

  // ---------------------------------------------------------------------
  // trendLabel (src/lib/trendEngine.js:176-184)
  // ---------------------------------------------------------------------

  /** `type.charAt(0)`. */
  function First(t: string): string {
    if |t| == 0 then "" else t[..1]
  }

  /** `type.slice(1)`. */
  function Rest(t: string): string {
    if |t| == 0 then "" else t[1..]
  }

  /** `TREND_LABELS[type] || type.charAt(0).toUpperCase() + type.slice(1)`;
      `upper` is `toUpperCase`. */
  function TrendLabel(t: string, upper: string -> string): string {
    if t == "sma" then "Simple Moving Avg"
    else if t == "ema" then "Exponential Moving Avg"
    else if t == "holts" then "Holt's Linear"
    else upper(First(t)) + Rest(t)
  }

  /** The three time-series families take their label from the table;
      every other name keeps everything after its first character, which
      alone is upper-cased. */
  lemma LabelRules(t: string, upper: string -> string)
    ensures TrendLabel("sma", upper) == "Simple Moving Avg"
    ensures TrendLabel("ema", upper) == "Exponential Moving Avg"
    ensures TrendLabel("holts", upper) == "Holt's Linear"
    ensures !TimeSeriesType(t) ==>
      (var head := upper(First(t));
       && TrendLabel(t, upper)[..|head|] == head
       && TrendLabel(t, upper)[|head|..] == Rest(t)
       && First(t) + Rest(t) == t)
  {
    if |t| > 0 {
      assert t[..1] + t[1..] == t;
    }
  }
}
