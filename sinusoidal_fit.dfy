/** Sinusoidal curve fitting `y = A·sin(B·x + C) + D`
    (src/lib/sinusoidalFit.js): the frequency from an autocorrelation
    peak (or from zero crossings), the phase from a grid search, and the
    amplitude and offset from a 2×2 least-squares solve. The sine, π and
    number formatting are parameters. */
module SinusoidalFit {
  import opened Wrappers
  import opened TsUtils

  /** The host's `Math.sin`, `Math.PI` and `toFixed(4)`. */
  datatype Maths = Maths(sin: real -> real, pi: real, fixed4: real -> string)

  /** `{ string, r2, predict, points }`; `predict` returns an `[x, y]` pair. */
  datatype SineFit = SineFit(equation: string, r2: real, predict: real -> Point,
                             points: seq<Point>)

  // ---------------------------------------------------------------------
  // estimateFrequency (src/lib/sinusoidalFit.js:59-115)
  // ---------------------------------------------------------------------

  function Centered(ys: seq<real>, mean: real): (c: seq<real>)
    ensures |c| == |ys|
    ensures forall i :: 0 <= i < |ys| ==> c[i] == ys[i] - mean
  {
    seq(|ys|, i requires 0 <= i < |ys| => ys[i] - mean)
  }

  /** Σ_{i < k} c[i]·c[i + lag]. */
  function LagSum(c: seq<real>, lag: nat, k: nat): real
    requires k + lag <= |c|
  {
    if k == 0 then 0.0 else LagSum(c, lag, k - 1) + Mul(c[k - 1], c[k - 1 + lag])
  }

  /** The autocorrelation of the centred values at one lag. */
  function AutoCorr(c: seq<real>, lag: nat): real
    requires lag <= |c|
  {
    LagSum(c, lag, |c| - lag)
  }

  function AutoCorrs(c: seq<real>, maxLag: nat): (ac: seq<real>)
    requires maxLag <= |c|
    ensures |ac| == maxLag
    ensures forall l :: 0 <= l < maxLag ==> ac[l] == AutoCorr(c, l)
  {
    seq(maxLag, l requires 0 <= l < maxLag => AutoCorr(c, l))
  }

  /** The inner accumulation loop, for lag 0 (`ac0`) and every later lag. */
  method LagProducts(c: seq<real>, lag: nat) returns (sum: real)
    requires lag <= |c|
    ensures sum == AutoCorr(c, lag)
  {
    sum := 0.0;
    for i := 0 to |c| - lag
      invariant sum == LagSum(c, lag, i)
    {
      sum := sum + Mul(c[i], c[i + lag]);
    }
  }

  /** The scan's state: `bestLag` and `bestVal`, with `None` standing for
      the initial `-Infinity`. */
  datatype PeakScan = PeakScan(lag: nat, val: Option<real>)

  /** A lag the scan accepts as a peak: past lag 2, and not lower than the
      lag before it. */
  predicate Rising(ac: seq<real>, l: int) {
    2 < l < |ac| && ac[l - 1] <= ac[l]
  }

  /** The scan over lags `lag .. |ac| − 1`: a rising lag whose value beats
      the best so far becomes the best. */
  function PeakFrom(ac: seq<real>, lag: nat, best: PeakScan): PeakScan
    requires 1 <= lag
    decreases |ac| - lag
  {
    if lag >= |ac| then best
    else
      var better := lag > 2 && (best.val.None? || ac[lag] > best.val.value) &&
                    ac[lag - 1] <= ac[lag];
      PeakFrom(ac, lag + 1, if better then PeakScan(lag, Some(ac[lag])) else best)
  }

  function FirstPeak(ac: seq<real>): PeakScan {
    PeakFrom(ac, 1, PeakScan(1, None))
  }

  /** Number of adjacent pairs among `c[..k]` whose product is negative. */
  function CrossingsUpTo(c: seq<real>, k: nat): nat
    requires k <= |c|
  {
    if k <= 1 then 0
    else CrossingsUpTo(c, k - 1) + (if Mul(c[k - 2], c[k - 1]) < 0.0 then 1 else 0)
  }

  function Crossings(c: seq<real>): nat {
    CrossingsUpTo(c, |c|)
  }

  /** The angular frequency `estimateFrequency` returns: from the
      autocorrelation peak when one with a positive value was found,
      otherwise from the number of zero crossings, otherwise one cycle
      over the whole span. */
  function FrequencyOf(xs: seq<real>, ys: seq<real>, mean: real, pi: real): real
    requires 2 <= |xs| == |ys| && xs[0] != xs[|xs| - 1]
  {
    var n := |ys|;
    var c := Centered(ys, mean);
    var span := xs[n - 1] - xs[0];
    var peak := FirstPeak(AutoCorrs(c, n / 2));
    if peak.val.None? || peak.val.value <= 0.0 || peak.lag <= 2 then
      var k := Crossings(c);
      if k > 0 then (2.0 * pi) / CrossingPeriod(span, k) else (2.0 * pi) / span
    else
      (2.0 * pi) / LagPeriod(span, n, peak.lag)
  }

  /** `(2·span) / crossings`. */
  function CrossingPeriod(span: real, k: nat): (p: real)
    requires span != 0.0 && k > 0
    ensures p != 0.0
  {
    assert 2.0 * span != 0.0;
    (2.0 * span) / k as real
  }

  /** `bestLag · dt`, with `dt = span / (n − 1)` the average sample interval. */
  function LagPeriod(span: real, n: nat, lag: nat): (p: real)
    requires span != 0.0 && n >= 2 && lag > 0
    ensures p != 0.0
  {
    var dt := span / (n - 1) as real;
    NonZeroProduct(lag as real, dt);
    lag as real * dt
  }

  lemma NonZeroProduct(a: real, b: real)
    requires a != 0.0 && b != 0.0
    ensures a * b != 0.0
  {
  }

  /** The frequency loop: `ac0`, then for every lag below `maxLag` its
      autocorrelation and the peak test, then the fallbacks. */
  method EstimateFrequency(xs: seq<real>, ys: seq<real>, mean: real, pi: real)
    returns (b: real)
    requires 2 <= |xs| == |ys| && xs[0] != xs[|xs| - 1]
    ensures b == FrequencyOf(xs, ys, mean, pi)
  {
    var n := |ys|;
    var c := Centered(ys, mean);
    var span := xs[n - 1] - xs[0];
    var maxLag := n / 2;
    var peak := ScanPeaks(c, maxLag);
    if peak.val.None? || peak.val.value <= 0.0 || peak.lag <= 2 {
      var crossings := CountCrossings(c);
      if crossings > 0 {
        var period := CrossingPeriod(span, crossings);
        return (2.0 * pi) / period;
      }
      return (2.0 * pi) / span;
    }
    var period := LagPeriod(span, n, peak.lag);
    b := (2.0 * pi) / period;
  }

  /** The autocorrelation loop of `estimateFrequency`: fill `autocorr` lag
      by lag and keep the first highest rising lag past lag 2. */
  method ScanPeaks(c: seq<real>, maxLag: nat) returns (peak: PeakScan)
    requires 1 <= maxLag <= |c|
    ensures peak == FirstPeak(AutoCorrs(c, maxLag))
  {
    var autocorr := new real[maxLag];
    var ac0 := LagProducts(c, 0);
    autocorr[0] := ac0;
    var bestLag, bestVal := 1, None;
    ghost var ac := AutoCorrs(c, maxLag);
    for lag := 1 to maxLag
      invariant autocorr[..lag] == ac[..lag]
      invariant PeakFrom(ac, lag, PeakScan(bestLag, bestVal)) == FirstPeak(ac)
    {
      var sum := LagProducts(c, lag);
      autocorr[lag] := sum;
      if lag > 2 && (bestVal.None? || sum > bestVal.value) {
        if autocorr[lag - 1] <= sum {
          bestVal := Some(sum);
          bestLag := lag;
        }
      }
    }
    peak := PeakScan(bestLag, bestVal);
  }

  method CountCrossings(c: seq<real>) returns (k: nat)
    requires |c| >= 1
    ensures k == Crossings(c)
  {
    k := 0;
    for i := 1 to |c|
      invariant k == CrossingsUpTo(c, i)
    {
      if Mul(c[i - 1], c[i]) < 0.0 {
        k := k + 1;
      }
    }
  }

  /** What the scan keeps: `best` is the first highest rising lag below
      `lag`, or there is no rising lag below `lag` at all. */
  predicate BestBelow(ac: seq<real>, lag: nat, best: PeakScan) {
    if best.val.None? then
      best.lag == 1 && forall l :: 0 <= l < lag ==> !Rising(ac, l)
    else
      && best.lag < lag && Rising(ac, best.lag) && best.val.value == ac[best.lag]
      && forall l :: 0 <= l < lag && Rising(ac, l) ==>
           ac[l] <= best.val.value && (l < best.lag ==> ac[l] < best.val.value)
  }

  lemma {:induction false} PeakFromKeeps(ac: seq<real>, lag: nat, best: PeakScan)
    requires 1 <= lag <= |ac| && BestBelow(ac, lag, best)
    ensures BestBelow(ac, |ac|, PeakFrom(ac, lag, best))
    decreases |ac| - lag
  {
    if lag < |ac| {
      var better := lag > 2 && (best.val.None? || ac[lag] > best.val.value) &&
                    ac[lag - 1] <= ac[lag];
      var next := if better then PeakScan(lag, Some(ac[lag])) else best;
      if better {
        PeakTaken(ac, lag, best);
      } else {
        PeakSkipped(ac, lag, best);
      }
      PeakFromKeeps(ac, lag + 1, next);
    }
  }

  /** A rising lag that beats the best so far becomes the new best. */
  lemma PeakTaken(ac: seq<real>, lag: nat, best: PeakScan)
    requires 1 <= lag < |ac| && BestBelow(ac, lag, best)
    requires lag > 2 && (best.val.None? || ac[lag] > best.val.value) && ac[lag - 1] <= ac[lag]
    ensures BestBelow(ac, lag + 1, PeakScan(lag, Some(ac[lag])))
  {
    assert Rising(ac, lag);
    forall l | 0 <= l < lag + 1 && Rising(ac, l)
      ensures ac[l] <= ac[lag] && (l < lag ==> ac[l] < ac[lag])
    {
      if l < lag {
        assert best.val.Some? && ac[l] <= best.val.value < ac[lag];
      }
    }
  }

  /** A lag that is not rising, or does not beat the best, changes nothing. */
  lemma PeakSkipped(ac: seq<real>, lag: nat, best: PeakScan)
    requires 1 <= lag < |ac| && BestBelow(ac, lag, best)
    requires !(lag > 2 && (best.val.None? || ac[lag] > best.val.value) && ac[lag - 1] <= ac[lag])
    ensures BestBelow(ac, lag + 1, best)
  {
  }

  /** The scan finds the first lag of highest autocorrelation among the
      rising lags, and finds nothing exactly when no lag is rising. */
  lemma FirstPeakIsHighestRising(ac: seq<real>)
    ensures var p := FirstPeak(ac);
      && (p.val.None? <==> forall l :: !Rising(ac, l))
      && (p.val.None? ==> p.lag == 1)
      && (p.val.Some? ==>
            && Rising(ac, p.lag) && p.val.value == ac[p.lag]
            && forall l :: Rising(ac, l) ==>
                 ac[l] <= p.val.value && (l < p.lag ==> ac[l] < p.val.value))
  {
    if |ac| >= 1 {
      PeakFromKeeps(ac, 1, PeakScan(1, None));
    }
  }

  /** When the autocorrelation path is taken, the lag is rising and below
      `⌊n/2⌋` (so the source's extra `bestLag <= 2` test never fires), and
      B times the lag's period `bestLag · span / (n − 1)` is 2π. */
  lemma FrequencyFromPeak(xs: seq<real>, ys: seq<real>, mean: real, pi: real)
    requires 2 <= |xs| == |ys| && xs[0] != xs[|xs| - 1]
    requires var p := FirstPeak(AutoCorrs(Centered(ys, mean), |ys| / 2));
      p.val.Some? && p.val.value > 0.0
    ensures
      var n := |ys|;
      var ac := AutoCorrs(Centered(ys, mean), n / 2);
      var lag := FirstPeak(ac).lag;
      && 2 < lag < n / 2 && ac[lag - 1] <= ac[lag]
      && FrequencyOf(xs, ys, mean, pi) * (lag as real * ((xs[n - 1] - xs[0]) / (n - 1) as real))
         == 2.0 * pi
  {
    var n := |ys|;
    var ac := AutoCorrs(Centered(ys, mean), n / 2);
    FirstPeakRises(ac);
    var lag := FirstPeak(ac).lag;
    var span := xs[n - 1] - xs[0];
    var p := LagPeriod(span, n, lag);
    assert p == lag as real * (span / (n - 1) as real);
    var b := FrequencyOf(xs, ys, mean, pi);
    assert b == (2.0 * pi) / p;
    DivTimes(2.0 * pi, p);
  }

  /** Without a usable peak, B is `π·crossings / span`, or `2π / span`
      when the centred values never cross zero. */
  lemma FrequencyFallback(xs: seq<real>, ys: seq<real>, mean: real, pi: real)
    requires 2 <= |xs| == |ys| && xs[0] != xs[|xs| - 1]
    requires var p := FirstPeak(AutoCorrs(Centered(ys, mean), |ys| / 2));
      !(p.val.Some? && p.val.value > 0.0)
    ensures
      var span := xs[|xs| - 1] - xs[0];
      var k := Crossings(Centered(ys, mean));
      && (k > 0 ==> FrequencyOf(xs, ys, mean, pi) == pi * k as real / span)
      && (k == 0 ==> FrequencyOf(xs, ys, mean, pi) * span == 2.0 * pi)
  {
    var span := xs[|xs| - 1] - xs[0];
    var k := Crossings(Centered(ys, mean));
    if k > 0 {
      CrossingFrequency(pi, span, k as real);
    } else {
      DivTimes(2.0 * pi, span);
    }
  }

  /** Fewer than eight points leave no lag for the peak test, so the
      fallback is always used. */
  lemma ShortSeriesHasNoPeak(ys: seq<real>, mean: real)
    requires |ys| < 8
    ensures FirstPeak(AutoCorrs(Centered(ys, mean), |ys| / 2)).val.None?
  {
    var ac := AutoCorrs(Centered(ys, mean), |ys| / 2);
    FirstPeakIsHighestRising(ac);
    assert forall l :: !Rising(ac, l);
  }

  lemma FirstPeakRises(ac: seq<real>)
    ensures FirstPeak(ac).val.Some? ==> Rising(ac, FirstPeak(ac).lag)
  {
    FirstPeakIsHighestRising(ac);
  }

  lemma DivTimes(a: real, p: real)
    requires p != 0.0
    ensures a / p * p == a
  {
  }

  lemma CrossingFrequency(pi: real, span: real, k: real)
    requires span != 0.0 && k > 0.0
    ensures (2.0 * pi) / ((2.0 * span) / k) == pi * k / span
  {
    var p := (2.0 * span) / k;
    assert p * k == 2.0 * span;
    assert (2.0 * pi) / p * p == 2.0 * pi;
    assert pi * k / span * p == pi * k / span * (2.0 * span) / k;
  }

  /** Opposite strict signs: the pair straddles zero. */
  predicate Opposite(a: real, b: real) {
    (a < 0.0 && 0.0 < b) || (b < 0.0 && 0.0 < a)
  }

  lemma NegativeProduct(a: real, b: real)
    ensures Mul(a, b) < 0.0 <==> Opposite(a, b)
  {
    if a > 0.0 && b > 0.0 {
      MulPositive(a, b);
    } else if a < 0.0 && b < 0.0 {
      MulPositive(-a, -b);
      MulNegated(a, b);
    } else if a < 0.0 && 0.0 < b {
      MulPositive(-a, b);
      assert Mul(-a, b) == -Mul(a, b);
    } else if b < 0.0 && 0.0 < a {
      MulPositive(a, -b);
      assert Mul(a, -b) == -Mul(a, b);
    }
  }

  /** The fallback counts zero crossings: there are none exactly when no
      two neighbouring centred values have opposite signs; there are at
      most n − 1. */
  lemma {:induction false} CrossingsAreSignChanges(c: seq<real>, k: nat)
    requires 1 <= k <= |c|
    ensures CrossingsUpTo(c, k) == 0 <==>
      forall i :: 1 <= i < k ==> !Opposite(c[i - 1], c[i])
    ensures CrossingsUpTo(c, k) <= k - 1
  {
    if k > 1 {
      CrossingsAreSignChanges(c, k - 1);
      NegativeProduct(c[k - 2], c[k - 1]);
    }
  }

  // ---------------------------------------------------------------------
  // estimatePhase (src/lib/sinusoidalFit.js:117-152)
  // ---------------------------------------------------------------------

  /** `sin(B·x + C)`. */
  function Wave(sin: real -> real, b: real, c: real, x: real): real {
    sin(b * x + c)
  }

  /** `A·sin(B·x + C) + D`. */
  function SineAt(sin: real -> real, a: real, b: real, c: real, d: real, x: real): real {
    Mul(a, Wave(sin, b, c, x)) + d
  }

  /** The model curve at every timestamp. */
  function Curve(xs: seq<real>, sin: real -> real, a: real, b: real, c: real, d: real)
    : (r: seq<real>)
    ensures |r| == |xs|
    ensures forall j :: 0 <= j < |xs| ==> r[j] == SineAt(sin, a, b, c, d, xs[j])
  {
    seq(|xs|, j requires 0 <= j < |xs| => SineAt(sin, a, b, c, d, xs[j]))
  }

  /** Sum of squared errors of the curve with the given phase. */
  function Sse(xs: seq<real>, ys: seq<real>, sin: real -> real, a: real, b: real,
               phase: real, d: real): real
    requires |xs| == |ys|
  {
    SsRes(ys, Curve(xs, sin, a, b, phase, d))
  }

  /** The error as a function of the phase alone. */
  function PhaseCost(xs: seq<real>, ys: seq<real>, sin: real -> real, a: real, b: real,
                     d: real): real -> real
    requires |xs| == |ys|
  {
    phase => Sse(xs, ys, sin, a, b, phase, d)
  }

  /** The inner loop shared by both searches: accumulate the squared error
      of every point. */
  method SumSquaredErrors(xs: seq<real>, ys: seq<real>, sin: real -> real, a: real,
                          b: real, phase: real, d: real)
    returns (sse: real)
    requires |xs| == |ys|
    ensures sse == Sse(xs, ys, sin, a, b, phase, d)
  {
    ghost var curve := Curve(xs, sin, a, b, phase, d);
    sse := 0.0;
    for j := 0 to |xs|
      invariant sse == SsRes(ys[..j], curve[..j])
    {
      assert ys[..j + 1][..j] == ys[..j];
      assert curve[..j + 1][..j] == curve[..j];
      var predicted := SineAt(sin, a, b, phase, d, xs[j]);
      sse := sse + Sq(ys[j] - predicted);
    }
    assert ys[..|xs|] == ys && curve[..|xs|] == curve;
  }

  /** The search state: `bestPhase` and `bestSSE`, with `None` standing for
      the initial `Infinity`. */
  datatype Best = Best(phase: real, sse: Option<real>)

  /** `if (sse < bestSSE) { bestSSE = sse; bestPhase = phase }`. */
  function Consider(best: Best, phase: real, sse: real): Best {
    if best.sse.None? || sse < best.sse.value then Best(phase, Some(sse)) else best
  }

  /** The i-th of 72 grid phases, 5 degrees apart. */
  function CoarsePhase(pi: real, i: nat): real {
    (i as real / 72.0) * 2.0 * pi
  }

  /** A tenth of the grid step. */
  function FineStep(pi: real): real {
    (2.0 * pi) / 72.0 / 10.0
  }

  function CoarseFrom(cost: real -> real, pi: real, i: nat, best: Best): Best
    decreases 72 - i
  {
    if i >= 72 then best
    else
      var p := CoarsePhase(pi, i);
      CoarseFrom(cost, pi, i + 1, Consider(best, p, cost(p)))
  }

  /** The k-th fine candidate (k = 0 .. 10 for the source's i = −5 .. 5),
      offset from the best phase found so far, which may already have
      moved during this search. */
  function FineCandidate(best: Best, step: real, k: nat): real {
    best.phase + Mul((k as int - 5) as real, step)
  }

  function FineFrom(cost: real -> real, step: real, k: nat, best: Best): Best
    decreases 11 - k
  {
    if k >= 11 then best
    else
      var p := FineCandidate(best, step, k);
      FineFrom(cost, step, k + 1, Consider(best, p, cost(p)))
  }

  /** The phases the fine search tries, in order. */
  function FineTried(cost: real -> real, step: real, k: nat, best: Best): (r: seq<real>)
    ensures k <= 11 ==> |r| == 11 - k
    decreases 11 - k
  {
    if k >= 11 then []
    else
      var p := FineCandidate(best, step, k);
      [p] + FineTried(cost, step, k + 1, Consider(best, p, cost(p)))
  }

  function CoarseSearch(cost: real -> real, pi: real): Best {
    CoarseFrom(cost, pi, 0, Best(0.0, None))
  }

  function PhaseSearch(cost: real -> real, pi: real): Best {
    FineFrom(cost, FineStep(pi), 0, CoarseSearch(cost, pi))
  }

  function PhaseOf(xs: seq<real>, ys: seq<real>, sin: real -> real, pi: real, a: real,
                   b: real, d: real): real
    requires |xs| == |ys|
  {
    PhaseSearch(PhaseCost(xs, ys, sin, a, b, d), pi).phase
  }

  /** `estimatePhase`: the 72-step coarse grid, then 11 fine steps whose
      offsets are taken from the best phase found so far. */
  method EstimatePhase(xs: seq<real>, ys: seq<real>, sin: real -> real, pi: real,
                       a: real, b: real, d: real)
    returns (phase: real)
    requires |xs| == |ys|
    ensures phase == PhaseOf(xs, ys, sin, pi, a, b, d)
  {
    ghost var cost := PhaseCost(xs, ys, sin, a, b, d);
    var bestPhase, bestSse := 0.0, None;
    for i := 0 to 72
      invariant CoarseFrom(cost, pi, i, Best(bestPhase, bestSse)) == CoarseSearch(cost, pi)
    {
      var p := CoarsePhase(pi, i);
      var sse := SumSquaredErrors(xs, ys, sin, a, b, p, d);
      ghost var before := Best(bestPhase, bestSse);
      CoarseUnfold(cost, pi, i, before, sse);
      if bestSse.None? || sse < bestSse.value {
        bestSse := Some(sse);
        bestPhase := p;
      }
      assert Best(bestPhase, bestSse) == Consider(before, p, sse);
    }
    ghost var coarse := Best(bestPhase, bestSse);
    var fineStep := FineStep(pi);
    for i := -5 to 6
      invariant FineFrom(cost, fineStep, i + 5, Best(bestPhase, bestSse))
             == FineFrom(cost, fineStep, 0, coarse)
    {
      var p := bestPhase + Mul(i as real, fineStep);
      var sse := SumSquaredErrors(xs, ys, sin, a, b, p, d);
      ghost var before := Best(bestPhase, bestSse);
      FineUnfold(cost, fineStep, i, before, p, sse);
      if bestSse.None? || sse < bestSse.value {
        bestSse := Some(sse);
        bestPhase := p;
      }
      assert Best(bestPhase, bestSse) == Consider(before, p, sse);
    }
    phase := bestPhase;
  }

  /** One grid step of the coarse search, given the error at that phase. */
  lemma CoarseUnfold(cost: real -> real, pi: real, i: nat, best: Best, sse: real)
    requires i < 72 && sse == cost(CoarsePhase(pi, i))
    ensures CoarseFrom(cost, pi, i, best)
         == CoarseFrom(cost, pi, i + 1, Consider(best, CoarsePhase(pi, i), sse))
  {
  }

  /** One step of the fine search: offset i, candidate p and its error. */
  lemma FineUnfold(cost: real -> real, step: real, i: int, best: Best, p: real, sse: real)
    requires -5 <= i <= 5 && p == best.phase + Mul(i as real, step) && sse == cost(p)
    ensures FineFrom(cost, step, i + 5, best) == FineFrom(cost, step, i + 6, Consider(best, p, sse))
  {
    assert p == FineCandidate(best, step, i + 5);
  }

  /** The state records the cost of its phase. */
  predicate Consistent(cost: real -> real, best: Best) {
    best.sse.Some? ==> cost(best.phase) == best.sse.value
  }

  predicate AtMost(best: Best, v: real) {
    best.sse.Some? && best.sse.value <= v
  }

  lemma {:induction false} CoarseFromBest(cost: real -> real, pi: real, i: nat, best: Best)
    requires Consistent(cost, best)
    ensures var r := CoarseFrom(cost, pi, i, best);
      && Consistent(cost, r)
      && (best.sse.Some? ==> AtMost(r, best.sse.value))
      && forall k :: i <= k < 72 ==> AtMost(r, cost(CoarsePhase(pi, k)))
    decreases 72 - i
  {
    if i < 72 {
      var p := CoarsePhase(pi, i);
      CoarseFromBest(cost, pi, i + 1, Consider(best, p, cost(p)));
    }
  }

  lemma {:induction false} FineFromBest(cost: real -> real, step: real, k: nat, best: Best)
    requires Consistent(cost, best)
    ensures var r := FineFrom(cost, step, k, best);
      && Consistent(cost, r)
      && (best.sse.Some? ==> AtMost(r, best.sse.value))
      && forall p :: p in FineTried(cost, step, k, best) ==> AtMost(r, cost(p))
    decreases 11 - k
  {
    if k < 11 {
      var p := FineCandidate(best, step, k);
      FineFromBest(cost, step, k + 1, Consider(best, p, cost(p)));
    }
  }

  /** Facts about the fine search from any consistent starting state
      that is no worse than every grid phase. */
  lemma FineSearchBest(cost: real -> real, pi: real, coarse: Best)
    requires Consistent(cost, coarse)
    requires forall i :: 0 <= i < 72 ==> AtMost(coarse, cost(CoarsePhase(pi, i)))
    ensures var r := FineFrom(cost, FineStep(pi), 0, coarse);
      && r.sse.Some? && cost(r.phase) == r.sse.value
      && (forall i :: 0 <= i < 72 ==> cost(r.phase) <= cost(CoarsePhase(pi, i)))
      && forall p :: p in FineTried(cost, FineStep(pi), 0, coarse) ==> cost(r.phase) <= cost(p)
  {
    FineFromBest(cost, FineStep(pi), 0, coarse);
    assert AtMost(coarse, cost(CoarsePhase(pi, 0)));
  }

  /** The chosen phase costs no more than any of the 72 grid phases and
      any of the 11 fine candidates tried. */
  lemma PhaseIsBestTried(cost: real -> real, pi: real)
    ensures var r := PhaseSearch(cost, pi);
      && r.sse.Some? && cost(r.phase) == r.sse.value
      && (forall i :: 0 <= i < 72 ==> cost(r.phase) <= cost(CoarsePhase(pi, i)))
      && |FineTried(cost, FineStep(pi), 0, CoarseSearch(cost, pi))| == 11
      && forall p :: p in FineTried(cost, FineStep(pi), 0, CoarseSearch(cost, pi)) ==>
           cost(r.phase) <= cost(p)
  {
    CoarseFromBest(cost, pi, 0, Best(0.0, None));
    FineSearchBest(cost, pi, CoarseSearch(cost, pi));
  }

  // ---------------------------------------------------------------------
  // refineAmplitudeOffset (src/lib/sinusoidalFit.js:154-178)
  // ---------------------------------------------------------------------

  /** `sin(B·x + C)` at every timestamp. */
  function Sines(xs: seq<real>, sin: real -> real, b: real, c: real): (s: seq<real>)
    ensures |s| == |xs|
    ensures forall i :: 0 <= i < |xs| ==> s[i] == Wave(sin, b, c, xs[i])
  {
    seq(|xs|, i requires 0 <= i < |xs| => Wave(sin, b, c, xs[i]))
  }

  /** Element-wise products. */
  function Products(u: seq<real>, v: seq<real>): (r: seq<real>)
    requires |u| == |v|
    ensures |r| == |u|
    ensures forall i :: 0 <= i < |u| ==> r[i] == Mul(u[i], v[i])
  {
    seq(|u|, i requires 0 <= i < |u| => Mul(u[i], v[i]))
  }

  /** `sumS`, `sumY`, `sumSS` and `sumSY`. */
  datatype Sums = Sums(s: real, y: real, ss: real, sy: real)

  function SumsOf(s: seq<real>, ys: seq<real>): Sums
    requires |s| == |ys|
  {
    Sums(Sum(s), Sum(ys), Sum(Products(s, s)), Sum(Products(s, ys)))
  }

  /** The determinant of `[sumSS, sumS; sumS, n]`. */
  function Det(t: Sums, n: real): real {
    t.ss * n - t.s * t.s
  }

  function Abs(v: real): real {
    if v < 0.0 then -v else v
  }

  /** Below this the system counts as singular. */
  const Singular: real := 0.000000000001

  /** `(yMax − yMin) / 2`: the amplitude guess, and the fallback amplitude. */
  function HalfRange(lo: real, hi: real): (r: real)
    ensures r == 0.0 <==> lo == hi
  {
    (hi - lo) / 2.0
  }

  /** `Math.max(...ys)`. */
  function MaxOf(s: seq<real>): (m: real)
    requires |s| > 0
    ensures forall i :: 0 <= i < |s| ==> s[i] <= m
    ensures exists i :: 0 <= i < |s| && s[i] == m
  {
    if |s| == 1 then s[0]
    else
      var m := MaxOf(s[..|s| - 1]);
      if s[|s| - 1] > m then s[|s| - 1] else m
  }

  /** `Math.min(...ys)`. */
  function MinOf(s: seq<real>): (m: real)
    requires |s| > 0
    ensures forall i :: 0 <= i < |s| ==> m <= s[i]
    ensures exists i :: 0 <= i < |s| && s[i] == m
  {
    if |s| == 1 then s[0]
    else
      var m := MinOf(s[..|s| - 1]);
      if s[|s| - 1] < m then s[|s| - 1] else m
  }

  /** The refined amplitude and offset. */
  datatype Amplitude = Amplitude(a: real, d: real)

  /** The 2×2 solve: Cramer's rule on the normal equations, or half the
      range and the mean when the determinant is (nearly) zero. */
  function Solve(t: Sums, ys: seq<real>): Amplitude
    requires |ys| > 0
  {
    var n := |ys| as real;
    var det := Det(t, n);
    if Abs(det) < Singular then Amplitude(HalfRange(MinOf(ys), MaxOf(ys)), t.y / n)
    else Amplitude(CramerA(t, n), CramerD(t, n))
  }

  /** `(sumSY·n − sumS·sumY) / det`. */
  function CramerA(t: Sums, n: real): real
    requires Det(t, n) != 0.0
  {
    (t.sy * n - t.s * t.y) / Det(t, n)
  }

  /** `(sumSS·sumY − sumS·sumSY) / det`. */
  function CramerD(t: Sums, n: real): real
    requires Det(t, n) != 0.0
  {
    (t.ss * t.y - t.s * t.sy) / Det(t, n)
  }

  function RefineOf(xs: seq<real>, ys: seq<real>, sin: real -> real, b: real, c: real)
    : Amplitude
    requires 0 < |xs| == |ys|
  {
    Solve(SumsOf(Sines(xs, sin, b, c), ys), ys)
  }

  /** The accumulation loop and the 2×2 solve. */
  method RefineAmplitudeOffset(xs: seq<real>, ys: seq<real>, sin: real -> real,
                               b: real, c: real)
    returns (r: Amplitude)
    requires 0 < |xs| == |ys|
    ensures r == RefineOf(xs, ys, sin, b, c)
  {
    var n := |xs|;
    ghost var s := Sines(xs, sin, b, c);
    ghost var ss, sy := Products(s, s), Products(s, ys);
    var sumS, sumY, sumSS, sumSY := 0.0, 0.0, 0.0, 0.0;
    for i := 0 to n
      invariant sumS == Sum(s[..i]) && sumY == Sum(ys[..i])
      invariant sumSS == Sum(ss[..i]) && sumSY == Sum(sy[..i])
    {
      assert s[..i + 1][..i] == s[..i] && ys[..i + 1][..i] == ys[..i];
      assert ss[..i + 1][..i] == ss[..i] && sy[..i + 1][..i] == sy[..i];
      var si := Wave(sin, b, c, xs[i]);
      sumS := sumS + si;
      sumY := sumY + ys[i];
      sumSS := sumSS + Mul(si, si);
      sumSY := sumSY + Mul(si, ys[i]);
    }
    assert s[..n] == s && ys[..n] == ys && ss[..n] == ss && sy[..n] == sy;
    r := Solve(Sums(sumS, sumY, sumSS, sumSY), ys);
  }

  /** Away from the singular case the solve satisfies the normal
      equations `[sumSS, sumS; sumS, n]·[A; D] = [sumSY; sumY]`, and no
      other pair does. */
  lemma SolveNormal(t: Sums, ys: seq<real>, a0: real, d0: real)
    requires |ys| > 0 && Abs(Det(t, |ys| as real)) >= Singular
    ensures var n := |ys| as real;
      var r := Solve(t, ys);
      && t.ss * r.a + t.s * r.d == t.sy
      && t.s * r.a + n * r.d == t.y
      && (t.ss * a0 + t.s * d0 == t.sy && t.s * a0 + n * d0 == t.y ==> r == Amplitude(a0, d0))
  {
    var n := |ys| as real;
    CramerSolves(t, n);
    if t.ss * a0 + t.s * d0 == t.sy && t.s * a0 + n * d0 == t.y {
      CramerUnique(t, n, a0, d0);
    }
  }

  /** Data lying exactly on `a0·sin(B·x + C) + d0` is fitted exactly: the
      refinement returns `a0` and `d0` whenever the system is regular. */
  lemma RefineRecovers(xs: seq<real>, ys: seq<real>, sin: real -> real, b: real, c: real,
                       a0: real, d0: real)
    requires 0 < |xs| == |ys|
    requires forall i :: 0 <= i < |xs| ==> ys[i] == SineAt(sin, a0, b, c, d0, xs[i])
    requires Abs(Det(SumsOf(Sines(xs, sin, b, c), ys), |xs| as real)) >= Singular
    ensures RefineOf(xs, ys, sin, b, c) == Amplitude(a0, d0)
  {
    var s := Sines(xs, sin, b, c);
    var t := SumsOf(s, ys);
    var n := |ys| as real;
    assert t.ss * a0 + t.s * d0 == t.sy && t.s * a0 + n * d0 == t.y by {
      assert forall i :: 0 <= i < |s| ==> ys[i] == Mul(a0, s[i]) + d0;
      SumsOnLine(s, ys, a0, d0);
      LineSatisfiesNormal(t, n, a0, d0);
    }
    SolveNormal(t, ys, a0, d0);
  }

  /** Sums gathered from a line satisfy the normal equations at its
      coefficients. */
  lemma LineSatisfiesNormal(t: Sums, n: real, a0: real, d0: real)
    requires t.y == Mul(a0, t.s) + Mul(n, d0)
    requires t.sy == Mul(a0, t.ss) + Mul(d0, t.s)
    ensures t.ss * a0 + t.s * d0 == t.sy && t.s * a0 + n * d0 == t.y
  {
  }

  /** The sums of values on a line `a0·s + d0`. */
  lemma SumsOnLine(s: seq<real>, ys: seq<real>, a0: real, d0: real)
    requires |s| == |ys|
    requires forall i :: 0 <= i < |s| ==> ys[i] == Mul(a0, s[i]) + d0
    ensures Sum(ys) == Mul(a0, Sum(s)) + Mul(|s| as real, d0)
    ensures Sum(Products(s, ys)) == Mul(a0, Sum(Products(s, s))) + Mul(d0, Sum(s))
  {
    SumOnLine(s, ys, a0, d0);
    SumProductsOnLine(s, ys, a0, d0);
  }

  lemma SumOnLine(s: seq<real>, ys: seq<real>, a0: real, d0: real)
    requires |s| == |ys|
    requires forall i :: 0 <= i < |s| ==> ys[i] == Mul(a0, s[i]) + d0
    ensures Sum(ys) == Mul(a0, Sum(s)) + Mul(|s| as real, d0)
  {
    var level := Filled(|s|, d0);
    assert ys == Added(Scaled(s, a0), level);
    SumScaledPlusConstant(s, a0, d0);
  }

  lemma SumScaledPlusConstant(s: seq<real>, a0: real, d0: real)
    ensures Sum(Added(Scaled(s, a0), Filled(|s|, d0))) == Mul(a0, Sum(s)) + Mul(|s| as real, d0)
  {
    var level := Filled(|s|, d0);
    SumAdded(Scaled(s, a0), level);
    SumScaled(s, a0);
    SumConstants(|s|, d0);
  }

  lemma SumConstants(n: nat, v: real)
    ensures Sum(Filled(n, v)) == Mul(n as real, v)
  {
    SumConstant(Filled(n, v), v);
  }

  lemma SumProductsOnLine(s: seq<real>, ys: seq<real>, a0: real, d0: real)
    requires |s| == |ys|
    requires forall i :: 0 <= i < |s| ==> ys[i] == Mul(a0, s[i]) + d0
    ensures Sum(Products(s, ys)) == Mul(a0, Sum(Products(s, s))) + Mul(d0, Sum(s))
  {
    var ps := Products(s, s);
    var split := Added(Scaled(ps, a0), Scaled(s, d0));
    forall i | 0 <= i < |s|
      ensures Products(s, ys)[i] == split[i]
    {
      LineProduct(s[i], a0, d0);
    }
    assert Products(s, ys) == split;
    SumAdded(Scaled(ps, a0), Scaled(s, d0));
    SumScaled(ps, a0);
    SumScaled(s, d0);
  }

  function Scaled(u: seq<real>, k: real): (r: seq<real>)
    ensures |r| == |u|
    ensures forall i :: 0 <= i < |u| ==> r[i] == Mul(k, u[i])
  {
    seq(|u|, i requires 0 <= i < |u| => Mul(k, u[i]))
  }

  function Added(u: seq<real>, v: seq<real>): (r: seq<real>)
    requires |u| == |v|
    ensures |r| == |u|
    ensures forall i :: 0 <= i < |u| ==> r[i] == u[i] + v[i]
  {
    seq(|u|, i requires 0 <= i < |u| => u[i] + v[i])
  }

  lemma {:induction false} SumAdded(u: seq<real>, v: seq<real>)
    requires |u| == |v|
    ensures Sum(Added(u, v)) == Sum(u) + Sum(v)
  {
    if u != [] {
      var k := |u| - 1;
      SumAdded(u[..k], v[..k]);
      assert Added(u, v)[..k] == Added(u[..k], v[..k]);
    }
  }

  lemma {:induction false} SumScaled(u: seq<real>, c: real)
    ensures Sum(Scaled(u, c)) == Mul(c, Sum(u))
  {
    if u != [] {
      var k := |u| - 1;
      SumScaled(u[..k], c);
      assert Scaled(u, c)[..k] == Scaled(u[..k], c);
      Distribute(c, Sum(u[..k]), u[k]);
    }
  }

  lemma Distribute(c: real, x: real, y: real)
    ensures Mul(c, x) + Mul(c, y) == Mul(c, x + y)
  {
  }

  lemma LineProduct(v: real, a0: real, d0: real)
    ensures Mul(v, Mul(a0, v) + d0) == Mul(a0, Mul(v, v)) + Mul(d0, v)
  {
  }

  lemma DivBack(num: real, det: real)
    requires det != 0.0
    ensures num / det * det == num
  {
  }

  lemma CancelFactor(u: real, v: real, det: real)
    requires det != 0.0 && u * det == v * det
    ensures u == v
  {
    assert (u - v) * det == 0.0;
  }

  /** Cramer's rule solves a regular 2×2 system. */
  lemma CramerSolves(t: Sums, n: real)
    requires Det(t, n) != 0.0
    ensures t.ss * CramerA(t, n) + t.s * CramerD(t, n) == t.sy
    ensures t.s * CramerA(t, n) + n * CramerD(t, n) == t.y
  {
    var p, q, r, y := t.ss, t.s, t.sy, t.y;
    var det := Det(t, n);
    var a, d := CramerA(t, n), CramerD(t, n);
    DivBack(r * n - q * y, det);
    DivBack(p * y - q * r, det);
    assert (p * a + q * d) * det == p * (a * det) + q * (d * det);
    assert p * (r * n - q * y) + q * (p * y - q * r) == r * det;
    assert (q * a + n * d) * det == q * (a * det) + n * (d * det);
    assert q * (r * n - q * y) + n * (p * y - q * r) == y * det;
    CancelFactor(p * a + q * d, r, det);
    CancelFactor(q * a + n * d, y, det);
  }

  /** ... and its solution is the only one. */
  lemma CramerUnique(t: Sums, n: real, a: real, d: real)
    requires Det(t, n) != 0.0
    requires t.ss * a + t.s * d == t.sy && t.s * a + n * d == t.y
    ensures a == CramerA(t, n) && d == CramerD(t, n)
  {
    var p, q, r, y := t.ss, t.s, t.sy, t.y;
    var det := Det(t, n);
    assert a * det == n * (p * a) - q * (q * a);
    assert n * (p * a) - q * (q * a) == n * (r - q * d) - q * (y - n * d);
    assert d * det == p * (q * a + n * d) - q * (p * a + q * d);
    DivBack(r * n - q * y, det);
    DivBack(p * y - q * r, det);
    CancelFactor(a, (r * n - q * y) / det, det);
    CancelFactor(d, (p * y - q * r) / det, det);
  }

  /** The amplitude estimate `(max − min) / 2` is zero exactly when the
      data is flat. */
  lemma SpreadZero(ys: seq<real>)
    requires |ys| > 0
    ensures MaxOf(ys) == MinOf(ys) <==> Constant(ys)
  {
    if Constant(ys) {
      var i :| 0 <= i < |ys| && ys[i] == MaxOf(ys);
      var j :| 0 <= j < |ys| && ys[j] == MinOf(ys);
      assert ys[i] == ys[j];
    }
  }

  // ---------------------------------------------------------------------
  // calcR2 (src/lib/sinusoidalFit.js:180-191)
  // ---------------------------------------------------------------------

  /** One pass over the data accumulating `ssTot` and `ssRes`. */
  method CalcR2(data: Series, sin: real -> real, a: real, b: real, c: real, d: real)
    returns (r2: real)
    requires |data| > 0
    ensures r2 == FitStatsOf(Ys(data), Curve(Xs(data), sin, a, b, c, d)).r2
  {
    ghost var ys, curve := Ys(data), Curve(Xs(data), sin, a, b, c, d);
    var n := |data|;
    var mean := Sum(Ys(data)) / n as real;
    var ssTot, ssRes := 0.0, 0.0;
    for i := 0 to n
      invariant ssTot == SsTot(ys[..i], mean)
      invariant ssRes == SsRes(ys[..i], curve[..i])
    {
      assert ys[..i + 1][..i] == ys[..i] && curve[..i + 1][..i] == curve[..i];
      var x, y := data[i].x, data[i].y;
      ssTot := ssTot + Sq(y - mean);
      var predicted := SineAt(sin, a, b, c, d, x);
      ssRes := ssRes + Sq(y - predicted);
    }
    assert ys[..n] == ys && curve[..n] == curve;
    r2 := if ssTot == 0.0 then 0.0 else 1.0 - ssRes / ssTot;
  }

  // ---------------------------------------------------------------------
  // sinusoidalFit (src/lib/sinusoidalFit.js:4-57)
  // ---------------------------------------------------------------------

  /** `(x) => [x, v]`. */
  function Level(v: real): real -> Point {
    x => Point(x, v)
  }

  /** `(x) => [x, A·sin(B·x + C) + D]`. */
  function SineCurve(sin: real -> real, a: real, b: real, c: real, d: real): real -> Point {
    x => Point(x, SineAt(sin, a, b, c, d, x))
  }

  /** Every point moved to height v. */
  function Flattened(data: Series, v: real): (r: seq<Point>)
    ensures |r| == |data|
    ensures forall i :: 0 <= i < |data| ==> r[i] == Point(data[i].x, v)
  {
    seq(|data|, i requires 0 <= i < |data| => Point(data[i].x, v))
  }

  /** Non-flat series of four or more points whose first and last
      timestamps coincide are outside the model: every frequency rule then
      divides by that zero span. Flat series never reach the frequency
      estimate, so any span is fine for them. */
  predicate SpanNonZero(data: Option<Series>) {
    (data.Some? && |data.value| >= 4 && HalfRange(MinOf(Ys(data.value)), MaxOf(Ys(data.value))) != 0.0)
      ==> data.value[0].x != data.value[|data.value| - 1].x
  }

  /** `sinusoidalFit(data)`: too little data, flat data, or the full fit. */
  function SineFitOf(data: Option<Series>, m: Maths): SineFit
    requires SpanNonZero(data)
  {
    if data.None? || |data.value| < 4 then
      SineFit("Insufficient data for sinusoidal fit", 0.0, Level(0.0),
              if data.None? then [] else data.value)
    else
      var xs, ys := Xs(data.value), Ys(data.value);
      var d := Mean(ys);
      var a := HalfRange(MinOf(ys), MaxOf(ys));
      if a == 0.0 then
        SineFit("y = " + m.fixed4(d), 0.0, Level(d), Flattened(data.value, d))
      else
        var b := FrequencyOf(xs, ys, d, m.pi);
        var c := PhaseOf(xs, ys, m.sin, m.pi, a, b, d);
        FullFit(data.value, m, b, c, RefineOf(xs, ys, m.sin, b, c))
  }

  /** `"y = A * sin(B * x + C) + D"`, every number printed by `fixed4`. */
  function Equation(m: Maths, a: real, b: real, c: real, d: real): (e: string)
    ensures |e| > 4 && e[..4] == "y = "
  {
    "y = " + m.fixed4(a) + " * sin(" + m.fixed4(b) + " * x + " + m.fixed4(c) + ") + " + m.fixed4(d)
  }

  /** The fit reported for the curve with frequency b, phase c and the
      refined amplitude and offset. */
  function FullFit(data: Series, m: Maths, b: real, c: real, r: Amplitude): SineFit
    requires |data| > 0
  {
    var xs, ys := Xs(data), Ys(data);
    var curve := Curve(xs, m.sin, r.a, b, c, r.d);
    SineFit(Equation(m, r.a, b, c, r.d), FitStatsOf(ys, curve).r2,
            SineCurve(m.sin, r.a, b, c, r.d), PointsOf(xs, curve))
  }

  method SinusoidalFit(data: Option<Series>, m: Maths) returns (r: SineFit)
    requires SpanNonZero(data)
    ensures r == SineFitOf(data, m)
  {
    if data.None? || |data.value| < 4 {
      return SineFit("Insufficient data for sinusoidal fit", 0.0, Level(0.0),
                     if data.None? then [] else data.value);
    }
    var series := data.value;
    var xs, ys := Xs(series), Ys(series);
    var d := Mean(ys);
    var yMin, yMax := MinOf(ys), MaxOf(ys);
    var a := HalfRange(yMin, yMax);
    if a == 0.0 {
      return SineFit("y = " + m.fixed4(d), 0.0, Level(d), Flattened(series, d));
    }
    var b := EstimateFrequency(xs, ys, d, m.pi);
    var c := EstimatePhase(xs, ys, m.sin, m.pi, a, b, d);
    var refined := RefineAmplitudeOffset(xs, ys, m.sin, b, c);
    var r2 := CalcR2(series, m.sin, refined.a, b, c, refined.d);
    r := SineFit(Equation(m, refined.a, b, c, refined.d), r2,
                 SineCurve(m.sin, refined.a, b, c, refined.d),
                 PointsOf(xs, Curve(xs, m.sin, refined.a, b, c, refined.d)));
    assert r == FullFit(series, m, b, c, refined);
  }

  /** Whatever the input, `predict(x)` is a point at abscissa x, and from
      four points on the fitted points are `predict` at the data's own
      timestamps. */
  lemma PredictAndPoints(data: Option<Series>, m: Maths, x: real)
    requires SpanNonZero(data)
    ensures SineFitOf(data, m).predict(x).x == x
    ensures data.Some? && |data.value| >= 4 ==>
      var r := SineFitOf(data, m);
      && |r.points| == |data.value|
      && forall i :: 0 <= i < |data.value| ==>
           r.points[i] == r.predict(data.value[i].x)
  {
    if data.Some? && |data.value| >= 4 {
      var xs, ys := Xs(data.value), Ys(data.value);
      var d := Mean(ys);
      var a := HalfRange(MinOf(ys), MaxOf(ys));
      if a != 0.0 {
        var b := FrequencyOf(xs, ys, d, m.pi);
        var c := PhaseOf(xs, ys, m.sin, m.pi, a, b, d);
        FullFitPredicts(data.value, m, b, c, RefineOf(xs, ys, m.sin, b, c), x);
      }
    }
  }

  /** The full fit's points are its predictor at the data's timestamps. */
  lemma FullFitPredicts(data: Series, m: Maths, b: real, c: real, r: Amplitude, x: real)
    requires |data| > 0
    ensures var f := FullFit(data, m, b, c, r);
      && f.predict(x).x == x
      && |f.points| == |data|
      && forall i :: 0 <= i < |data| ==> f.points[i] == f.predict(data[i].x)
  {
  }

  /** Fewer than four points (or none) give the placeholder fit: zero r²,
      the data echoed back, and a predictor that is zero everywhere. */
  lemma ShortInput(data: Option<Series>, m: Maths, x: real)
    requires data.None? || |data.value| < 4
    ensures var r := SineFitOf(data, m);
      && r.r2 == 0.0 && r.predict(x) == Point(x, 0.0)
      && (data.Some? ==> r.points == data.value)
  {
  }

  /** Flat data (at least four points) gives the horizontal line through
      its value, with zero r². */
  lemma FlatInput(data: Series, m: Maths, x: real)
    requires |data| >= 4 && Constant(Ys(data))
    ensures SpanNonZero(Some(data))
    ensures var r := SineFitOf(Some(data), m);
      && r.r2 == 0.0 && r.equation == "y = " + m.fixed4(data[0].y)
      && r.predict(x) == Point(x, data[0].y)
      && forall i :: 0 <= i < |data| ==> r.points[i].y == data[0].y
  {
    var ys := Ys(data);
    SpreadZero(ys);
    MeanOfConstant(ys);
  }

  /** Non-flat data takes the full fit, whose r² is at most 1. */
  lemma VaryingInput(data: Series, m: Maths)
    requires |data| >= 4 && data[0].x != data[|data| - 1].x && !Constant(Ys(data))
    ensures var r := SineFitOf(Some(data), m);
      && r.r2 <= 1.0
      && |r.equation| > 4 && r.equation[..4] == "y = "
  {
    var xs, ys := Xs(data), Ys(data);
    var b, c, r := VaryingIsFull(data, m);
    var curve := Curve(xs, m.sin, r.a, b, c, r.d);
    FlatSeriesGuard(ys, curve);
    SsTotNonNegative(ys, Mean(ys));
    FitStatsBounds(ys, curve);
  }

  /** The parameters the full fit uses on non-flat data. */
  lemma VaryingIsFull(data: Series, m: Maths) returns (b: real, c: real, r: Amplitude)
    requires |data| >= 4 && data[0].x != data[|data| - 1].x && !Constant(Ys(data))
    ensures SineFitOf(Some(data), m) == FullFit(data, m, b, c, r)
  {
    var xs, ys := Xs(data), Ys(data);
    SpreadZero(ys);
    var d := Mean(ys);
    var a := HalfRange(MinOf(ys), MaxOf(ys));
    b := FrequencyOf(xs, ys, d, m.pi);
    c := PhaseOf(xs, ys, m.sin, m.pi, a, b, d);
    r := RefineOf(xs, ys, m.sin, b, c);
  }
}
