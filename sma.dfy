/** Simple moving average forecaster (src/lib/sma.js): a rolling window
    over the values, interpolated in range and extended by a straight
    line beyond the last timestamp. */
module Sma {
  import opened Wrappers
  import opened TsUtils

  /** `Math.max(2, Math.min(windowSize, n))`, with `windowSize` already
      rounded to an integer. */
  function Window(windowSize: int, n: nat): (w: int)
    ensures n >= 2 ==> 2 <= w <= n
    ensures 2 <= windowSize <= n ==> w == windowSize
    ensures windowSize < 2 ==> w == 2
    ensures 2 <= n < windowSize ==> w == n
  {
    var m := if windowSize < n then windowSize else n;
    if m < 2 then 2 else m
  }

  /** First index of the window that ends at index i. */
  function WindowStart(i: nat, w: nat): (s: nat)
    requires 1 <= w
    ensures s <= i && i + 1 - s == (if i + 1 < w then i + 1 else w)
  {
    if i + 1 < w then 0 else i + 1 - w
  }

  /** The average of the (at most w) values ending at index i. */
  function SmaAt(ys: seq<real>, w: nat, i: nat): real
    requires 1 <= w && i < |ys|
  {
    var s := WindowStart(i, w);
    Sum(ys[s..i + 1]) / (i + 1 - s) as real
  }

  function SmaOf(ys: seq<real>, w: nat): (r: seq<real>)
    requires 1 <= w
    ensures |r| == |ys|
    ensures forall i :: 0 <= i < |ys| ==> r[i] == SmaAt(ys, w, i)
  {
    seq(|ys|, i requires 0 <= i < |ys| => SmaAt(ys, w, i))
  }

  /** The rolling-sum loop: `sum` gains the new value and loses the one
      that leaves the window, and each entry is `sum / min(i + 1, w)`. */
  method RollingAverage(ys: seq<real>, w: nat) returns (sma: seq<real>)
    requires 1 <= w
    ensures sma == SmaOf(ys, w)
  {
    var n := |ys|;
    var a := new real[n];
    var sum := 0.0;
    for i := 0 to n
      invariant sum == Sum(ys[(if i < w then 0 else i - w)..i])
      invariant forall k :: 0 <= k < i ==> a[k] == SmaAt(ys, w, k)
    {
      WindowSumStep(ys, w, i);
      sum := sum + ys[i];
      if i >= w {
        sum := sum - ys[i - w];
      }
      var count := if i + 1 < w then i + 1 else w;
      a[i] := sum / count as real;
    }
    sma := a[..];
  }

  /** Sliding the window one step: add the entering value and, once the
      window is full, subtract the one that leaves. */
  lemma WindowSumStep(ys: seq<real>, w: nat, i: nat)
    requires 1 <= w && i < |ys|
    ensures Sum(ys[(if i + 1 < w then 0 else i + 1 - w)..i + 1])
         == Sum(ys[(if i < w then 0 else i - w)..i]) + ys[i]
            - (if i >= w then ys[i - w] else 0.0)
  {
    var lo := if i < w then 0 else i - w;
    SumSnoc(ys[lo..i], ys[i]);
    assert ys[lo..i] + [ys[i]] == ys[lo..i + 1];
    if i >= w {
      SumCons(ys[i - w..i + 1]);
      assert ys[i - w..i + 1][1..] == ys[i - w + 1..i + 1];
    }
  }

  /** Decimal digits of a natural number, as a template literal prints it. */
  function NatToString(n: nat): (s: string)
    ensures |s| > 0
    ensures forall k :: 0 <= k < |s| ==> '0' <= s[k] <= '9'
  {
    var d := ['0' + (n % 10) as char];
    if n < 10 then d else NatToString(n / 10) + d
  }

  /** The value of a string of decimal digits. */
  function DigitsValue(s: string): nat
    requires forall k :: 0 <= k < |s| ==> '0' <= s[k] <= '9'
  {
    if s == [] then 0
    else DigitsValue(s[..|s| - 1]) * 10 + (s[|s| - 1] - '0') as nat
  }

  /** Printing a window size and reading it back gives the same number. */
  lemma {:induction false} NatToStringRoundTrip(n: nat)
    ensures DigitsValue(NatToString(n)) == n
  {
    var d := ['0' + (n % 10) as char];
    if n >= 10 {
      var p := NatToString(n / 10);
      NatToStringRoundTrip(n / 10);
      assert (p + d)[..|p + d| - 1] == p;
    }
  }

  function Equation(w: nat): string {
    "SMA(window=" + NatToString(w) + ")"
  }

  /** `smaFit(data, windowSize)`: `None` for missing data or fewer than two
      points; otherwise the averages over the clamped window, their fit
      statistics, the extrapolating predictor and the fitted points.
      `avgSlope` is the slope helper the source imports. */
  function SmaFitOf(data: Option<Series>, windowSize: int,
                   avgSlope: (seq<real>, seq<real>) -> real): Option<Forecast>
  {
    if data.None? || |data.value| < 2 then None
    else
      var xs, ys := Xs(data.value), Ys(data.value);
      var w := Window(windowSize, |ys|);
      var sma := SmaOf(ys, w);
      var stats := FitStatsOf(ys, sma);
      Some(Forecast(Equation(w), stats.r2, stats.mse, Extrapolating(xs, sma, avgSlope(xs, sma)),
                    PointsOf(xs, sma)))
  }

  method SmaFit(data: Option<Series>, windowSize: int,
                avgSlope: (seq<real>, seq<real>) -> real)
    returns (r: Option<Forecast>)
    ensures r == SmaFitOf(data, windowSize, avgSlope)
    ensures r.None? <==> data.None? || |data.value| < 2
  {
    if data.None? || |data.value| < 2 {
      return None;
    }
    var d := data.value;
    var n := |d|;
    var w := Window(windowSize, n);
    var xs, ys := Xs(d), Ys(d);
    var sma := RollingAverage(ys, w);
    var slope := avgSlope(xs, sma);
    var stats := CalcFitStats(ys, sma);
    r := Some(Forecast(Equation(w), stats.r2, stats.mse,
                       Extrapolating(xs, sma, slope), PointsOf(xs, sma)));
  }

  /** A flat series is its own moving average. */
  lemma SmaOfConstant(ys: seq<real>, w: nat, c: real)
    requires 1 <= w
    requires forall i :: 0 <= i < |ys| ==> ys[i] == c
    ensures SmaOf(ys, w) == seq(|ys|, _ => c)
  {
    var r := SmaOf(ys, w);
    forall i | 0 <= i < |ys| ensures r[i] == c {
      var s := WindowStart(i, w);
      var k := (i + 1 - s) as real;
      SumConstant(ys[s..i + 1], c);
      assert Sum(ys[s..i + 1]) == k * c;
      CancelFactor(k, c);
    }
  }

  /** While the window is not yet full, the entry is the mean of every
      value so far; the first entry is the first value. */
  lemma SmaWarmUp(ys: seq<real>, w: nat, i: nat)
    requires 1 <= w && i < |ys| && i + 1 <= w
    ensures SmaAt(ys, w, i) == Mean(ys[..i + 1])
    ensures SmaAt(ys, w, 0) == ys[0]
  {
    assert ys[0..i + 1] == ys[..i + 1];
    assert ys[0..1] == [ys[0]];
    assert [ys[0]][..0] == [];
    assert Sum(ys[0..1]) == ys[0];
    assert WindowStart(0, w) == 0;
  }

  /** Once the window is full, the entry is the mean of the last w values. */
  lemma SmaFullWindow(ys: seq<real>, w: nat, i: nat)
    requires 1 <= w <= i + 1 && i < |ys|
    ensures SmaAt(ys, w, i) == Mean(ys[i + 1 - w..i + 1])
  {
  }
}
