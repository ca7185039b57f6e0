/** Shared numeric utilities of the forecasters (src/lib/tsUtils.js):
    binary-search interpolation over a fitted curve and the R²/RMSE
    statistics, plus the series vocabulary every other module uses. */
module TsUtils {

  /** One observation of a time series: timestamp `x`, value `y`. */
  datatype Point = Point(x: real, y: real)

  type Series = seq<Point>

  function Xs(data: Series): (r: seq<real>)
    ensures |r| == |data|
    ensures forall i :: 0 <= i < |data| ==> r[i] == data[i].x
  {
    seq(|data|, i requires 0 <= i < |data| => data[i].x)
  }

  function Ys(data: Series): (r: seq<real>)
    ensures |r| == |data|
    ensures forall i :: 0 <= i < |data| ==> r[i] == data[i].y
  {
    seq(|data|, i requires 0 <= i < |data| => data[i].y)
  }

  /** The fitted curve as points: `data.map((d, i) => [d[0], fitted[i]])`. */
  function PointsOf(xs: seq<real>, fitted: seq<real>): (r: seq<Point>)
    requires |xs| == |fitted|
    ensures |r| == |xs|
    ensures forall i :: 0 <= i < |xs| ==> r[i] == Point(xs[i], fitted[i])
  {
    seq(|xs|, i requires 0 <= i < |xs| => Point(xs[i], fitted[i]))
  }

  predicate NonDecreasing(xs: seq<real>) {
    forall i, j :: 0 <= i <= j < |xs| ==> xs[i] <= xs[j]
  }

  predicate StrictlyIncreasing(xs: seq<real>) {
    forall i, j :: 0 <= i < j < |xs| ==> xs[i] < xs[j]
  }

  /** n copies of v: `col.map(() => v)` over a column of length n. */
  function Filled<T>(n: nat, v: T): (r: seq<T>)
    ensures |r| == n && forall i :: 0 <= i < n ==> r[i] == v
  {
    seq(n, _ => v)
  }

  /** Every element equals every other one (a flat series). */
  predicate Constant(ys: seq<real>) {
    forall i, j :: 0 <= i < |ys| && 0 <= j < |ys| ==> ys[i] == ys[j]
  }

  predicate Between(r: real, a: real, b: real) {
    (a <= r <= b) || (b <= r <= a)
  }

  /** Multiplication behind a name, so that facts about squares can be
      stated on a term the solver does not rewrite. */
  function Mul(a: real, b: real): real { a * b }

  function Sq(a: real): real { Mul(a, a) }

  /** `ys.reduce((a, b) => a + b, 0)`, folded from the left. */
  function Sum(s: seq<real>): real {
    if s == [] then 0.0 else Sum(s[..|s| - 1]) + s[|s| - 1]
  }

  function Mean(s: seq<real>): real
    requires |s| > 0
  {
    Sum(s) / |s| as real
  }

  lemma SumSnoc(s: seq<real>, v: real)
    ensures Sum(s + [v]) == Sum(s) + v
  {
    assert (s + [v])[..|s|] == s;
  }

  lemma {:induction false} SumCons(s: seq<real>)
    requires |s| > 0
    ensures Sum(s) == s[0] + Sum(s[1..])
  {
    if |s| > 1 {
      SumCons(s[..|s| - 1]);
      assert s[..|s| - 1][1..] == s[1..][..|s[1..]| - 1];
    }
  }

  /** The sum of `k` copies of `c` is `k·c`. */
  lemma {:induction false} SumConstant(s: seq<real>, c: real)
    requires forall i :: 0 <= i < |s| ==> s[i] == c
    ensures Sum(s) == |s| as real * c
  {
    if s != [] {
      SumConstant(s[..|s| - 1], c);
    }
  }

  /** Helper: dividing a product by one of its factors. */
  lemma CancelFactor(k: real, c: real)
    requires k != 0.0
    ensures k * c / k == c
  {
  }

  lemma MeanOfConstant(s: seq<real>)
    requires |s| > 0 && Constant(s)
    ensures Mean(s) == s[0]
  {
    SumConstant(s, s[0]);
  }

  // ---------------------------------------------------------------------
  // interpolate (src/lib/tsUtils.js:4-22)
  // ---------------------------------------------------------------------

  /** Straight line through (x0, v0) and (x1, v1), evaluated at x, written
      as the source writes it: `t = (x - x0) / dx; v0 + t * (v1 - v0)`. */
  function Lerp(x0: real, x1: real, v0: real, v1: real, x: real): real
    requires x0 != x1
  {
    v0 + (x - x0) / (x1 - x0) * (v1 - v0)
  }

  /** The last index `j <= k` with `xs[j] <= x`: a linear scan, independent
      of the binary search that `Interpolate` performs. */
  function LastAtMost(xs: seq<real>, x: real, k: nat): (j: nat)
    requires k < |xs| && xs[0] <= x
    ensures j <= k && xs[j] <= x
    ensures forall i :: j < i <= k ==> x < xs[i]
    decreases k
  {
    if xs[k] <= x then k else LastAtMost(xs, x, k - 1)
  }

  /** Reference definition of interpolation: clamp outside
      [xs[0], xs[n-1]], otherwise the line through the bracketing segment
      found by a linear scan. */
  function Interp(xs: seq<real>, vals: seq<real>, x: real): real
    requires 0 < |xs| == |vals|
  {
    var n := |xs|;
    if x <= xs[0] then vals[0]
    else if x >= xs[n - 1] then vals[n - 1]
    else
      var k := LastAtMost(xs, x, n - 2);
      Lerp(xs[k], xs[k + 1], vals[k], vals[k + 1], x)
  }

  /** The bracket the binary search settles on: `[lo, hi]` is halved,
      keeping `xs[lo] <= x < xs[hi]`, until its ends are neighbours. */
  function Search(xs: seq<real>, x: real, lo: nat, hi: nat): (k: nat)
    requires lo < hi < |xs| && xs[lo] <= x < xs[hi]
    ensures lo <= k < hi && xs[k] <= x < xs[k + 1]
    decreases hi - lo
  {
    if hi - lo <= 1 then lo
    else
      var mid := (lo + hi) / 2;
      if xs[mid] <= x then Search(xs, x, mid, hi) else Search(xs, x, lo, mid)
  }

  /** What `interpolate` returns: `vals[0]` up to `xs[0]`, `vals[n-1]` from
      `xs[n-1]` on, otherwise the line through the bracket the binary
      search finds. That bracket holds x for ANY `xs`, so its ends differ
      and the source's `dx === 0` branch is never taken. */
  function InterpolateOf(xs: seq<real>, vals: seq<real>, x: real): (r: real)
    requires 0 < |xs| == |vals|
    ensures x <= xs[0] ==> r == vals[0]
    ensures xs[0] < x && xs[|xs| - 1] <= x ==> r == vals[|xs| - 1]
    ensures xs[0] < x < xs[|xs| - 1] ==>
      exists k :: 0 <= k < |xs| - 1 && xs[k] <= x < xs[k + 1] &&
        r == Lerp(xs[k], xs[k + 1], vals[k], vals[k + 1], x)
  {
    var n := |xs|;
    if x <= xs[0] then vals[0]
    else if x >= xs[n - 1] then vals[n - 1]
    else
      var k := Search(xs, x, 0, n - 1);
      Lerp(xs[k], xs[k + 1], vals[k], vals[k + 1], x)
  }

  /** On non-decreasing timestamps the binary search and the linear scan
      interpolate alike. */
  lemma InterpolateIsInterp(xs: seq<real>, vals: seq<real>, x: real)
    requires 0 < |xs| == |vals| && NonDecreasing(xs)
    ensures InterpolateOf(xs, vals, x) == Interp(xs, vals, x)
  {
    var n := |xs|;
    if xs[0] < x < xs[n - 1] {
      BracketIsUnique(xs, x, Search(xs, x, 0, n - 1));
    }
  }

  /** The loop of `interpolate`. */
  method Interpolate(xs: seq<real>, vals: seq<real>, x: real) returns (r: real)
    requires 0 < |xs| == |vals|
    ensures r == InterpolateOf(xs, vals, x)
  {
    var n := |xs|;
    if x <= xs[0] {
      return vals[0];
    }
    if x >= xs[n - 1] {
      return vals[n - 1];
    }
    var lo, hi := 0, n - 1;
    while hi - lo > 1
      invariant 0 <= lo < hi < n
      invariant xs[lo] <= x < xs[hi]
      invariant Search(xs, x, lo, hi) == Search(xs, x, 0, n - 1)
      decreases hi - lo
    {
      var mid := (lo + hi) / 2;
      if xs[mid] <= x {
        lo := mid;
      } else {
        hi := mid;
      }
    }
    r := Lerp(xs[lo], xs[hi], vals[lo], vals[hi], x);
    assert r == InterpolateOf(xs, vals, x) by {
      assert hi == lo + 1 && Search(xs, x, lo, hi) == lo;
      InterpolateInterior(xs, vals, x);
    }
  }

  /** Helper: inside the range, `interpolate` is the line through the
      segment the search settles on. */
  lemma InterpolateInterior(xs: seq<real>, vals: seq<real>, x: real)
    requires 0 < |xs| == |vals| && xs[0] < x < xs[|xs| - 1]
    ensures var k := Search(xs, x, 0, |xs| - 1);
      InterpolateOf(xs, vals, x) == Lerp(xs[k], xs[k + 1], vals[k], vals[k + 1], x)
  {
  }

  /** On a non-decreasing sequence the bracketing segment of an interior
      x is unique: it is the one the linear scan finds. */
  lemma BracketIsUnique(xs: seq<real>, x: real, k: nat)
    requires NonDecreasing(xs) && k + 1 < |xs|
    requires xs[k] <= x < xs[k + 1] && x < xs[|xs| - 1]
    ensures LastAtMost(xs, x, |xs| - 2) == k
  {
    var j := LastAtMost(xs, x, |xs| - 2);
    assert k <= j;
  }

  /** For strictly increasing xs, interpolating at a stored abscissa gives
      back the stored value. */
  lemma InterpAtKnot(xs: seq<real>, vals: seq<real>, i: nat)
    requires 0 < |xs| == |vals| && i < |xs| && StrictlyIncreasing(xs)
    ensures Interp(xs, vals, xs[i]) == vals[i]
  {
    var n := |xs|;
    if 0 < i < n - 1 {
      assert xs[0] < xs[i] < xs[n - 1];
      BracketIsUnique(xs, xs[i], i);
      LerpAtStart(xs[i], xs[i + 1], vals[i], vals[i + 1]);
    }
  }

  /** An interior result lies on the bracketing segment, with parameter
      `0 <= t < 1`, so between the two stored values. */
  lemma InterpInterior(xs: seq<real>, vals: seq<real>, x: real)
    requires 0 < |xs| == |vals| && xs[0] < x < xs[|xs| - 1]
    ensures var k := LastAtMost(xs, x, |xs| - 2);
      && xs[k] <= x < xs[k + 1]
      && 0.0 <= (x - xs[k]) / (xs[k + 1] - xs[k]) < 1.0
      && Between(Interp(xs, vals, x), vals[k], vals[k + 1])
  {
    var k := LastAtMost(xs, x, |xs| - 2);
    var t := (x - xs[k]) / (xs[k + 1] - xs[k]);
    UnitFraction(x - xs[k], xs[k + 1] - xs[k]);
    ConvexStep(vals[k], vals[k + 1], t);
  }

  lemma UnitFraction(a: real, d: real)
    requires 0.0 <= a < d
    ensures 0.0 <= a / d < 1.0
  {
    assert a / d * d == a;
  }

  lemma ConvexStep(v0: real, v1: real, t: real)
    requires 0.0 <= t <= 1.0
    ensures Between(v0 + t * (v1 - v0), v0, v1)
  {
    if v0 <= v1 {
      ScaleWithin(t, v1 - v0);
    } else {
      ScaleWithinNegative(t, v1 - v0);
    }
  }

  // Nonlinear facts the solver proves alone but not inside larger goals.

  lemma Scale(t: real, d: real)
    requires 0.0 <= t <= 1.0 && 0.0 <= d
    ensures 0.0 <= t * d <= d
  {
  }

  lemma ScaleWithin(t: real, d: real)
    requires 0.0 <= t <= 1.0 && 0.0 <= d
    ensures 0.0 <= Mul(t, d) <= d
  {
    Scale(t, d);
  }

  lemma ScaleWithinNegative(t: real, d: real)
    requires 0.0 <= t <= 1.0 && d <= 0.0
    ensures d <= Mul(t, d) <= 0.0
  {
    Scale(t, -d);
    assert Mul(t, d) == -Mul(t, -d);
  }

  lemma LerpAtStart(x0: real, x1: real, v0: real, v1: real)
    requires x0 != x1
    ensures Lerp(x0, x1, v0, v1, x0) == v0
  {
    assert (x0 - x0) / (x1 - x0) == 0.0;
  }

  lemma MulPositive(a: real, b: real)
    requires 0.0 < a && 0.0 < b
    ensures 0.0 < Mul(a, b)
  {
  }

  lemma MulNegated(a: real, b: real)
    ensures Mul(-a, -b) == Mul(a, b)
  {
  }

  lemma SqPositive(a: real)
    requires a != 0.0
    ensures Sq(a) > 0.0
  {
    if a > 0.0 {
      MulPositive(a, a);
    } else {
      MulPositive(-a, -a);
      MulNegated(a, a);
    }
  }

  lemma SqNonNegative(a: real)
    ensures Sq(a) >= 0.0
  {
    if a != 0.0 {
      SqPositive(a);
    }
  }

  // ---------------------------------------------------------------------
  // calcFitStats (src/lib/tsUtils.js:25-37)
  // ---------------------------------------------------------------------

  /** R² and the mean squared residual; the source reports RMSE, the
      square root of `mse`. */
  datatype FitStats = FitStats(r2: real, mse: real)

  /** Σ (ys[i] - m)². */
  function SsTot(ys: seq<real>, m: real): real {
    if ys == [] then 0.0 else SsTot(ys[..|ys| - 1], m) + Sq(ys[|ys| - 1] - m)
  }

  /** Σ (ys[i] - fitted[i])². */
  function SsRes(ys: seq<real>, fitted: seq<real>): real
    requires |ys| == |fitted|
  {
    if ys == [] then 0.0
    else SsRes(ys[..|ys| - 1], fitted[..|ys| - 1]) + Sq(ys[|ys| - 1] - fitted[|ys| - 1])
  }

  /** `ssTot === 0 ? 0 : 1 - ssRes / ssTot`. */
  function R2(ssTot: real, ssRes: real): real {
    if ssTot == 0.0 then 0.0 else 1.0 - ssRes / ssTot
  }

  function FitStatsOf(ys: seq<real>, fitted: seq<real>): FitStats
    requires 0 < |ys| == |fitted|
  {
    FitStats(R2(SsTot(ys, Mean(ys)), SsRes(ys, fitted)), SsRes(ys, fitted) / |ys| as real)
  }

  method CalcFitStats(ys: seq<real>, fitted: seq<real>) returns (s: FitStats)
    requires 0 < |ys| == |fitted|
    ensures s == FitStatsOf(ys, fitted)
  {
    var n := |ys|;
    var mean := Sum(ys) / n as real;
    var ssTot, ssRes := 0.0, 0.0;
    for i := 0 to n
      invariant ssTot == SsTot(ys[..i], mean)
      invariant ssRes == SsRes(ys[..i], fitted[..i])
    {
      assert ys[..i + 1][..i] == ys[..i];
      assert fitted[..i + 1][..i] == fitted[..i];
      ssTot := ssTot + Sq(ys[i] - mean);
      ssRes := ssRes + Sq(ys[i] - fitted[i]);
    }
    assert ys[..n] == ys && fitted[..n] == fitted;
    var r2 := if ssTot == 0.0 then 0.0 else 1.0 - ssRes / ssTot;
    s := FitStats(r2, ssRes / n as real);
  }

  lemma {:induction false} SsTotNonNegative(ys: seq<real>, m: real)
    ensures SsTot(ys, m) >= 0.0
  {
    if ys != [] {
      SsTotNonNegative(ys[..|ys| - 1], m);
      SqNonNegative(ys[|ys| - 1] - m);
    }
  }

  lemma {:induction false} SsResNonNegative(ys: seq<real>, fitted: seq<real>)
    requires |ys| == |fitted|
    ensures SsRes(ys, fitted) >= 0.0
  {
    if ys != [] {
      SsResNonNegative(ys[..|ys| - 1], fitted[..|ys| - 1]);
      SqNonNegative(ys[|ys| - 1] - fitted[|ys| - 1]);
    }
  }

  lemma SqZero(a: real)
    requires Sq(a) == 0.0
    ensures a == 0.0
  {
    if a != 0.0 {
      SqPositive(a);
    }
  }

  /** A vanishing sum of squared deviations forces every value onto m. */
  lemma {:induction false} SsTotZero(ys: seq<real>, m: real)
    requires SsTot(ys, m) == 0.0
    ensures forall i :: 0 <= i < |ys| ==> ys[i] == m
  {
    if ys != [] {
      var init := ys[..|ys| - 1];
      SsTotNonNegative(init, m);
      SqZero(ys[|ys| - 1] - m);
      SsTotZero(init, m);
      forall i | 0 <= i < |ys| ensures ys[i] == m {
        if i < |ys| - 1 {
          assert ys[i] == init[i];
        }
      }
    }
  }

  lemma {:induction false} SsTotAtConstant(ys: seq<real>, m: real)
    requires forall i :: 0 <= i < |ys| ==> ys[i] == m
    ensures SsTot(ys, m) == 0.0
  {
    if ys != [] {
      SsTotAtConstant(ys[..|ys| - 1], m);
    }
  }

  /** The flat-series guard fires exactly for constant data:
      ssTot = 0 iff all values are equal, and then r2 = 0. */
  lemma FlatSeriesGuard(ys: seq<real>, fitted: seq<real>)
    requires 0 < |ys| == |fitted|
    ensures SsTot(ys, Mean(ys)) == 0.0 <==> Constant(ys)
    ensures Constant(ys) ==> FitStatsOf(ys, fitted).r2 == 0.0
  {
    if Constant(ys) {
      MeanOfConstant(ys);
      SsTotAtConstant(ys, Mean(ys));
    }
    if SsTot(ys, Mean(ys)) == 0.0 {
      SsTotZero(ys, Mean(ys));
    }
  }

  lemma {:induction false} SsResSelf(ys: seq<real>)
    ensures SsRes(ys, ys) == 0.0
  {
    if ys != [] {
      SsResSelf(ys[..|ys| - 1]);
    }
  }

  /** A perfect fit has zero residual, hence RMSE 0, and R² = 1 unless the
      data are flat. */
  lemma PerfectFit(ys: seq<real>)
    requires |ys| > 0
    ensures FitStatsOf(ys, ys).mse == 0.0
    ensures !Constant(ys) ==> FitStatsOf(ys, ys).r2 == 1.0
  {
    SsResSelf(ys);
    FlatSeriesGuard(ys, ys);
  }

  /** Whenever the data vary, R² is at most 1; the mean squared residual is
      never negative and is ssRes / n. */
  lemma FitStatsBounds(ys: seq<real>, fitted: seq<real>)
    requires 0 < |ys| == |fitted|
    ensures SsTot(ys, Mean(ys)) > 0.0 ==> FitStatsOf(ys, fitted).r2 <= 1.0
    ensures FitStatsOf(ys, fitted).mse >= 0.0
    ensures FitStatsOf(ys, fitted).mse * |ys| as real == SsRes(ys, fitted)
  {
    SsResNonNegative(ys, fitted);
    SsTotNonNegative(ys, Mean(ys));
    var t := SsTot(ys, Mean(ys));
    var res := SsRes(ys, fitted);
    if t > 0.0 {
      assert res / t >= 0.0;
    }
  }

  // ---------------------------------------------------------------------
  // The result shape shared by the three smoothing forecasters
  // (src/lib/sma.js:31-47, src/lib/movingAverage.js:25-41,
  //  src/lib/holtsLinear.js:30-46)
  // ---------------------------------------------------------------------

  /** `{ string, r2, rmse, predict, points }`, with RMSE kept squared. */
  datatype Forecast = Forecast(equation: string, r2: real, mse: real,
                               predict: real -> real, points: seq<Point>)

  /** In range: interpolate the fitted curve; beyond the last timestamp: a
      straight line from the last fitted value with the given slope. */
  function PiecewisePredict(xs: seq<real>, fitted: seq<real>, slope: real, x: real): real
    requires 0 < |xs| == |fitted|
  {
    var lastX := xs[|xs| - 1];
    if x <= lastX then InterpolateOf(xs, fitted, x)
    else fitted[|fitted| - 1] + slope * (x - lastX)
  }

  function Extrapolating(xs: seq<real>, fitted: seq<real>, slope: real): real -> real
    requires 0 < |xs| == |fitted|
  {
    x => PiecewisePredict(xs, fitted, slope, x)
  }

  /** The two pieces meet at the last timestamp: the interpolated value
      there is the last fitted value, which is where the line starts. */
  lemma PiecewiseContinuous(xs: seq<real>, fitted: seq<real>, slope: real)
    requires 0 < |xs| == |fitted| && xs[0] < xs[|xs| - 1]
    ensures PiecewisePredict(xs, fitted, slope, xs[|xs| - 1]) == fitted[|fitted| - 1]
    ensures forall x :: x > xs[|xs| - 1] ==>
      PiecewisePredict(xs, fitted, slope, x) - fitted[|fitted| - 1] == slope * (x - xs[|xs| - 1])
  {
  }

  /** At every observed timestamp the prediction is the fitted value. */
  lemma PiecewiseAtKnot(xs: seq<real>, fitted: seq<real>, slope: real, i: nat)
    requires 0 < |xs| == |fitted| && i < |xs| && StrictlyIncreasing(xs)
    ensures PiecewisePredict(xs, fitted, slope, xs[i]) == fitted[i]
  {
    InterpolateIsInterp(xs, fitted, xs[i]);
    InterpAtKnot(xs, fitted, i);
  }

  /** Beyond the last timestamp the forecast rises with x exactly when the
      slope is positive. */
  lemma BeyondLastRises(xs: seq<real>, fitted: seq<real>, slope: real, x1: real, x2: real)
    requires 0 < |xs| == |fitted| && xs[|xs| - 1] < x1 < x2
    ensures PiecewisePredict(xs, fitted, slope, x1) < PiecewisePredict(xs, fitted, slope, x2)
      <==> slope > 0.0
  {
    var lastX := xs[|xs| - 1];
    var last := fitted[|fitted| - 1];
    assert last + slope * (x2 - lastX) - (last + slope * (x1 - lastX)) == slope * (x2 - x1);
    SignOfProduct(slope, x2 - x1);
  }

  lemma SignOfProduct(a: real, d: real)
    requires d > 0.0
    ensures a * d > 0.0 <==> a > 0.0
  {
  }
}
