/** The chart's column-major data buffer (src/lib/chartRenderer.js): the
    `uData` columns built from parsed rows, the trend column aligned to the
    timestamps by gap-filling interpolation, and the in-place changes made
    when a threshold or a trend is added, updated or removed.

    A cell is `None` for JavaScript's `null` or `undefined`. The uPlot
    instance is represented only by its list of series, which `addSeries`
    and `delSeries` splice. */
module ChartRenderer {
  import opened Wrappers
  import opened TsUtils

  /** One `uData` column: `uData[0]` holds the timestamps, the others one
      value per timestamp. */
  type Column = seq<Option<real>>

  /** The timestamps of some points, as a column. */
  function Times(points: seq<Point>): (r: Column)
    ensures |r| == |points| && forall i :: 0 <= i < |points| ==> r[i] == Some(points[i].x)
  {
    seq(|points|, i requires 0 <= i < |points| => Some(points[i].x))
  }

  /** `col[0]`, `undefined` for an empty column. */
  function Head(col: Column): Option<real> {
    if |col| > 0 then col[0] else None
  }

  /** `col[col.length - 1]`, `undefined` for an empty column. */
  function LastOf(col: Column): Option<real> {
    if |col| > 0 then col[|col| - 1] else None
  }

  /** `col[i]`, `undefined` past the end. */
  function CellAt(col: Column, i: nat): Option<real> {
    if i < |col| then col[i] else None
  }

  /** `col.pop()`: drops the last entry, if any. */
  function Pop(col: Column): (r: Column)
    ensures |col| > 0 ==> r == col[..|col| - 1]
    ensures |col| == 0 ==> r == col
  {
    if |col| > 0 then col[..|col| - 1] else col
  }

  /** Every column is as long as the time column. */
  predicate Rectangular(u: seq<Column>)
    requires |u| >= 1
  {
    forall c :: 0 <= c < |u| ==> |u[c]| == |u[0]|
  }

  // ---------------------------------------------------------------------
  // buildUData (src/lib/chartRenderer.js:28-36)
  // ---------------------------------------------------------------------

  /** `row[c]`, `undefined` past the end of the row. */
  function CellOf(row: seq<real>, c: nat): Option<real> {
    if c < |row| then Some(row[c]) else None
  }

  /** Column c holds `row[c]` of every row, in row order. */
  function Transposed(rows: seq<seq<real>>, numCols: nat): (u: seq<Column>)
    ensures |u| == numCols
    ensures forall c :: 0 <= c < numCols ==> |u[c]| == |rows|
    ensures forall c, k :: 0 <= c < numCols && 0 <= k < |rows| ==> u[c][k] == CellOf(rows[k], c)
  {
    seq(numCols, c requires 0 <= c < numCols =>
      seq(|rows|, k requires 0 <= k < |rows| => CellOf(rows[k], c)))
  }

  /** The loops of `buildUData`: every row pushes its cells onto the
      columns. */
  method BuildUData(rows: seq<seq<real>>, numCols: nat) returns (u: seq<Column>)
    ensures u == Transposed(rows, numCols)
  {
    u := seq(numCols, _ => []);
    for i := 0 to |rows|
      invariant |u| == numCols
      invariant forall d :: 0 <= d < numCols ==> |u[d]| == i
      invariant forall d, k :: 0 <= d < numCols && 0 <= k < i ==> u[d][k] == CellOf(rows[k], d)
    {
      for c := 0 to numCols
        invariant |u| == numCols
        invariant forall d :: 0 <= d < numCols ==> |u[d]| == if d < c then i + 1 else i
        invariant forall d, k :: 0 <= d < numCols && 0 <= k < |u[d]| ==> u[d][k] == CellOf(rows[k], d)
      {
        u := u[c := u[c] + [CellOf(rows[i], c)]];
      }
    }
    assert forall d :: 0 <= d < numCols ==> u[d] == Transposed(rows, numCols)[d];
  }

  /** The columns are as long as one another, and reading a full row back
      out of them gives the row. */
  lemma TransposeRoundTrip(rows: seq<seq<real>>, numCols: nat, i: nat)
    requires i < |rows| && numCols <= |rows[i]|
    ensures numCols >= 1 ==> Rectangular(Transposed(rows, numCols))
    ensures forall c :: 0 <= c < numCols ==> Transposed(rows, numCols)[c][i].Some?
    ensures seq(numCols, c requires 0 <= c < numCols => Transposed(rows, numCols)[c][i].value)
      == rows[i][..numCols]
  {
  }

  // ---------------------------------------------------------------------
  // interpolateTrendData (src/lib/chartRenderer.js:284-306)
  // ---------------------------------------------------------------------

  /** `new Map(points.map((p) => [p[0], p[1]]))`: a later point with the
      same timestamp replaces an earlier one. */
  function TrendMap(points: seq<Point>): (m: map<real, real>)
    ensures forall k :: 0 <= k < |points| ==> points[k].x in m
  {
    if points == [] then map[]
    else
      var init := points[..|points| - 1];
      var p := points[|points| - 1];
      var m := TrendMap(init);
      assert forall k :: 0 <= k < |init| ==> points[k] == init[k];
      m[p.x := p.y]
  }

  /** Every key of the map is some point's timestamp. */
  lemma {:induction false} TrendMapKeys(points: seq<Point>, x: real)
    requires x in TrendMap(points)
    ensures exists k :: 0 <= k < |points| && points[k].x == x
  {
    var n := |points| - 1;
    if points[n].x != x {
      var init := points[..n];
      TrendMapKeys(init, x);
      var k :| 0 <= k < |init| && init[k].x == x;
      assert points[k] == init[k];
    }
  }

  /** The map gives each timestamp the value of the last point that has
      it: a later duplicate overwrites an earlier one. */
  lemma {:induction false} TrendMapLast(points: seq<Point>, k: nat)
    requires k < |points|
    requires forall j :: k < j < |points| ==> points[j].x != points[k].x
    ensures TrendMap(points)[points[k].x] == points[k].y
  {
    var n := |points| - 1;
    if k < n {
      var init := points[..n];
      assert init[k] == points[k];
      TrendMapLast(init, k);
    }
  }

  /** `trendMap.get(t) ?? null`. */
  function Lookup(points: seq<Point>, t: Option<real>): Option<real> {
    var m := TrendMap(points);
    if t.Some? && t.value in m then Some(m[t.value]) else None
  }

  /** The inner search: the first segment from j on whose ends bracket t;
      `None` when there is none. */
  function SegmentFrom(points: seq<Point>, t: real, j: nat): (r: Option<nat>)
    ensures r.Some? ==>
      && j <= r.value && r.value + 1 < |points|
      && points[r.value].x <= t <= points[r.value + 1].x
    decreases |points| - j
  {
    if j + 1 >= |points| then None
    else if points[j].x <= t <= points[j + 1].x then Some(j)
    else SegmentFrom(points, t, j + 1)
  }

  /** The value for a timestamp with no exact match: the linear
      interpolation on the first bracketing segment. Its ends are keys of
      the map and t is not, so they differ. */
  function GapValue(points: seq<Point>, t: real): Option<real>
    requires t !in TrendMap(points)
  {
    var seg := SegmentFrom(points, t, 0);
    if seg.None? then None
    else
      var j := seg.value;
      assert points[j].x in TrendMap(points) && points[j + 1].x in TrendMap(points);
      Some(Lerp(points[j].x, points[j + 1].x, points[j].y, points[j + 1].y, t))
  }

  /** The entry of `trendData` for one timestamp: the trend's value at an
      exact match, otherwise the interpolation on the first bracketing
      segment when t lies between the first and the last point's
      timestamps, otherwise `null`. */
  function TrendAt(points: seq<Point>, t: Option<real>): Option<real>
    requires |points| >= 1
  {
    var hit := Lookup(points, t);
    if hit.Some? then hit
    else if t.Some? && points[0].x <= t.value <= points[|points| - 1].x then GapValue(points, t.value)
    else None
  }

  /** The trend column for the given timestamps. The source reads
      `points[0]` as soon as one timestamp has no exact match, so it needs
      a point whenever there is a timestamp. */
  function Interpolated(timestamps: Column, points: seq<Point>): (r: Column)
    requires |points| >= 1 || |timestamps| == 0
    ensures |r| == |timestamps|
  {
    seq(|timestamps|, i requires 0 <= i < |timestamps| => TrendAt(points, timestamps[i]))
  }

  /** The gap-filling loop of `interpolateTrendData`. */
  method InterpolateTrendData(timestamps: Column, points: seq<Point>) returns (trendData: Column)
    requires |points| >= 1 || |timestamps| == 0
    ensures trendData == Interpolated(timestamps, points)
  {
    trendData := seq(|timestamps|, i requires 0 <= i < |timestamps| => Lookup(points, timestamps[i]));
    for i := 0 to |timestamps|
      invariant |trendData| == |timestamps|
      invariant forall k :: 0 <= k < i ==> trendData[k] == TrendAt(points, timestamps[k])
      invariant forall k :: i <= k < |timestamps| ==> trendData[k] == Lookup(points, timestamps[k])
    {
      if trendData[i].None? {
        var t := timestamps[i];
        if t.Some? && points[0].x <= t.value <= points[|points| - 1].x {
          var v := FillGap(points, t.value);
          trendData := trendData[i := v];
        }
      }
    }
  }

  /** The inner search of `interpolateTrendData` for a timestamp with no
      exact match: the first segment that brackets it, if any. */
  method FillGap(points: seq<Point>, x: real) returns (v: Option<real>)
    requires x !in TrendMap(points)
    ensures v == GapValue(points, x)
  {
    v := None;
    var j := 0;
    while j + 1 < |points|
      invariant SegmentFrom(points, x, j) == SegmentFrom(points, x, 0)
      decreases |points| - j
    {
      if points[j].x <= x <= points[j + 1].x {
        ghost var m := TrendMap(points);
        assert points[j].x in m && points[j + 1].x in m;
        // frac = (x - xj) / (xj1 - xj); value = yj + frac * (yj1 - yj)
        v := Some(Lerp(points[j].x, points[j + 1].x, points[j].y, points[j + 1].y, x));
        return;
      }
      j := j + 1;
    }
  }

  /** A linear interpolation strictly inside a segment lies between the
      values at its ends. */
  lemma LerpBetween(x0: real, x1: real, v0: real, v1: real, x: real)
    requires x0 < x < x1
    ensures Between(Lerp(x0, x1, v0, v1, x), v0, v1)
  {
    UnitFraction(x - x0, x1 - x0);
    ConvexStep(v0, v1, (x - x0) / (x1 - x0));
  }

  /** With distinct, increasing timestamps the map returns each point's
      own value. */
  lemma TrendMapDistinct(points: seq<Point>, k: nat)
    requires k < |points| && StrictlyIncreasing(Xs(points))
    ensures TrendMap(points)[points[k].x] == points[k].y
  {
    forall j | k < j < |points| ensures points[j].x != points[k].x {
      assert Xs(points)[k] < Xs(points)[j];
    }
    TrendMapLast(points, k);
  }

  /** Whatever segment the search settles on, the interpolated value lies
      between the values at its two ends. */
  lemma SegmentBetween(points: seq<Point>, t: real)
    requires t !in TrendMap(points)
    ensures GapValue(points, t).Some? ==>
      exists k :: 0 <= k && k + 1 < |points| && points[k].x < t < points[k + 1].x
        && Between(GapValue(points, t).value, points[k].y, points[k + 1].y)
  {
    var seg := SegmentFrom(points, t, 0);
    if seg.Some? {
      var j := seg.value;
      var a, b := points[j], points[j + 1];
      assert a.x < t < b.x by {
        assert a.x in TrendMap(points) && b.x in TrendMap(points);
      }
      var v := Lerp(a.x, b.x, a.y, b.y, t);
      assert GapValue(points, t) == Some(v);
      LerpBetween(a.x, b.x, a.y, b.y, t);
      assert points[j].x < t < points[j + 1].x && Between(GapValue(points, t).value, points[j].y, points[j + 1].y);
    }
  }

  /** An exact match takes the trend's value; a timestamp without a match
      outside the trend's time range, or `undefined`, gets `null`; one
      inside it gets a value between the two ends of a segment that
      brackets it. */
  lemma TrendAtRules(points: seq<Point>, t: Option<real>)
    requires |points| >= 1
    ensures t.Some? && t.value in TrendMap(points) ==> TrendAt(points, t) == Some(TrendMap(points)[t.value])
    ensures t.None? ==> TrendAt(points, t).None?
    ensures t.Some? && t.value !in TrendMap(points) && (t.value < points[0].x || points[|points| - 1].x < t.value)
      ==> TrendAt(points, t).None?
    ensures t.Some? && t.value !in TrendMap(points) && TrendAt(points, t).Some? ==>
      exists k :: 0 <= k && k + 1 < |points| && points[k].x < t.value < points[k + 1].x
        && Between(TrendAt(points, t).value, points[k].y, points[k + 1].y)
  {
    if t.Some? && t.value !in TrendMap(points) {
      SegmentBetween(points, t.value);
    }
  }

  /** The search skips the segments that end before t. */
  lemma {:induction false} SegmentSkips(points: seq<Point>, t: real, j: nat, k: nat)
    requires j <= k < |points|
    requires forall i :: j < i <= k ==> points[i].x < t
    ensures SegmentFrom(points, t, j) == SegmentFrom(points, t, k)
    decreases k - j
  {
    if j < k {
      assert points[j + 1].x < t;
      SegmentSkips(points, t, j + 1, k);
    }
  }

  /** On a trend with increasing timestamps, the gap filling agrees with
      the linear-scan reference interpolation everywhere in the trend's
      time range. */
  lemma AgreesWithInterp(points: seq<Point>, t: real)
    requires |points| >= 1 && StrictlyIncreasing(Xs(points))
    requires points[0].x <= t <= points[|points| - 1].x
    ensures TrendAt(points, Some(t)) == Some(Interp(Xs(points), Ys(points), t))
  {
    if t in TrendMap(points) {
      TrendMapKeys(points, t);
      var k :| 0 <= k < |points| && points[k].x == t;
      AgreesAtKnot(points, k);
    } else {
      var n := |points|;
      assert points[0].x != t && points[n - 1].x != t;
      SegmentIsLastAtMost(points, t);
      AgreesBetweenKnots(points, t, LastAtMost(Xs(points), t, n - 2));
    }
  }

  /** Helper: at a trend timestamp the map lookup answers. */
  lemma AgreesAtKnot(points: seq<Point>, k: nat)
    requires k < |points| && StrictlyIncreasing(Xs(points))
    ensures TrendAt(points, Some(points[k].x)) == Some(Interp(Xs(points), Ys(points), points[k].x))
  {
    TrendMapDistinct(points, k);
    var xs, ys := Xs(points), Ys(points);
    InterpAtKnot(xs, ys, k);
    assert xs[k] == points[k].x && ys[k] == points[k].y;
  }

  /** Helper: when the segment scan and the linear-scan reference settle
      on the same segment, both interpolate on it. */
  lemma AgreesBetweenKnots(points: seq<Point>, t: real, k: nat)
    requires k + 1 < |points| && points[0].x < t < points[|points| - 1].x
    requires t !in TrendMap(points)
    requires SegmentFrom(points, t, 0) == Some(k) && LastAtMost(Xs(points), t, |points| - 2) == k
    ensures TrendAt(points, Some(t)) == Some(Interp(Xs(points), Ys(points), t))
  {
    var xs, ys := Xs(points), Ys(points);
    assert xs[k] == points[k].x && xs[k + 1] == points[k + 1].x;
    assert ys[k] == points[k].y && ys[k + 1] == points[k + 1].y;
  }

  /** Helper: on increasing timestamps the segment scan stops where the
      linear-scan reference does. */
  lemma SegmentIsLastAtMost(points: seq<Point>, t: real)
    requires |points| >= 2 && StrictlyIncreasing(Xs(points))
    requires points[0].x < t < points[|points| - 1].x
    requires t !in TrendMap(points)
    ensures SegmentFrom(points, t, 0) == Some(LastAtMost(Xs(points), t, |points| - 2))
  {
    var xs := Xs(points);
    var k := LastAtMost(xs, t, |points| - 2);
    assert points[k].x != t;
    forall i | 0 < i <= k
      ensures points[i].x < t
    {
      if i < k {
        assert xs[i] < xs[k];
      }
    }
    SegmentSkips(points, t, 0, k);
    assert points[k + 1].x == xs[k + 1];
  }

  /** ... and so with the binary-search `interpolate` of the series
      helpers. */
  lemma AgreesWithInterpolate(points: seq<Point>, t: real)
    requires |points| >= 1 && StrictlyIncreasing(Xs(points))
    requires points[0].x <= t <= points[|points| - 1].x
    ensures TrendAt(points, Some(t)) == Some(InterpolateOf(Xs(points), Ys(points), t))
  {
    AgreesWithInterp(points, t);
    InterpolateIsInterp(Xs(points), Ys(points), t);
  }

  // ---------------------------------------------------------------------
  // Padding for future timestamps (src/lib/chartRenderer.js:80-89, 192-208)
  // ---------------------------------------------------------------------

  /** `points.filter((p) => p[0] > lastDataTime)`: nothing is later than
      `undefined`. */
  function FuturePoints(points: seq<Point>, last: Option<real>): (r: seq<Point>)
    ensures |r| <= |points|
  {
    if points == [] then []
    else
      var p := points[|points| - 1];
      FuturePoints(points[..|points| - 1], last) + (if last.Some? && p.x > last.value then [p] else [])
  }

  /** The future points are exactly the points after the last timestamp. */
  lemma {:induction false} FutureRules(points: seq<Point>, last: Option<real>)
    ensures forall p :: p in FuturePoints(points, last) <==> p in points && last.Some? && p.x > last.value
  {
    if points != [] {
      FutureRules(points[..|points| - 1], last);
      assert points == points[..|points| - 1] + [points[|points| - 1]];
    }
  }

  /** One future timestamp: `uData[0].push(t)` and `uData[c].push(null)`
      for every column 1 <= c < k. */
  function PadOne(u: seq<Column>, k: nat, t: real): (r: seq<Column>)
    requires 1 <= |u| && k <= |u|
    ensures |r| == |u|
  {
    seq(|u|, c requires 0 <= c < |u| =>
      if c == 0 then u[0] + [Some(t)] else if c < k then u[c] + [None] else u[c])
  }

  /** The padding loop over the future points. */
  function Pad(u: seq<Column>, k: nat, future: seq<Point>): (r: seq<Column>)
    requires 1 <= |u| && k <= |u|
    ensures |r| == |u|
  {
    if future == [] then u
    else PadOne(Pad(u, k, future[..|future| - 1]), k, future[|future| - 1].x)
  }

  /** After padding, the time column ends with the future timestamps, every
      column 1 <= c < k ends with as many `null`s, and the others are
      untouched. */
  lemma {:induction false} PadRules(u: seq<Column>, k: nat, future: seq<Point>)
    requires 1 <= |u| && k <= |u|
    ensures Pad(u, k, future)[0] == u[0] + Times(future)
    ensures forall c :: 1 <= c < k ==> Pad(u, k, future)[c] == u[c] + Filled(|future|, None)
    ensures forall c :: k <= c < |u| && c != 0 ==> Pad(u, k, future)[c] == u[c]
  {
    if future != [] {
      var init := future[..|future| - 1];
      PadRules(u, k, init);
      assert Times(future) == Times(init) + [Some(future[|future| - 1].x)];
      assert Filled<Option<real>>(|future|, None) == Filled<Option<real>>(|init|, None) + [None];
    }
  }

  /** Pads for the points after the last timestamp and appends the trend
      column aligned to the padded timestamps. */
  function AppendTrend(u: seq<Column>, k: nat, points: seq<Point>): (r: seq<Column>)
    requires 1 <= |u| && k <= |u|
    requires |points| >= 1 || |u[0]| == 0
    ensures |r| == |u| + 1
  {
    var padded := Pad(u, k, FuturePoints(points, LastOf(u[0])));
    padded + [Interpolated(padded[0], points)]
  }

  /** The padding loops: for each future point, push its timestamp onto the
      time column and `null` onto every column 1 <= c < k. */
  method PadFuture(u: seq<Column>, k: nat, future: seq<Point>) returns (r: seq<Column>)
    requires 1 <= |u| && k <= |u|
    ensures r == Pad(u, k, future)
  {
    r := u;
    for i := 0 to |future|
      invariant r == Pad(u, k, future[..i])
    {
      ghost var before := r;
      r := r[0 := r[0] + [Some(future[i].x)]];
      var c := 1;
      while c < k
        invariant 1 <= c <= if k >= 1 then k else 1
        invariant |r| == |u|
        invariant r[0] == before[0] + [Some(future[i].x)]
        invariant forall d :: 1 <= d < c && d < k ==> r[d] == before[d] + [None]
        invariant forall d :: c <= d < |u| && d != 0 ==> r[d] == before[d]
      {
        r := r[c := r[c] + [None]];
        c := c + 1;
      }
      assert future[..i + 1][..i] == future[..i];
      assert forall d :: 0 <= d < |r| ==> r[d] == PadOne(before, k, future[i].x)[d];
      assert r == PadOne(before, k, future[i].x);
    }
    assert future[..|future|] == future;
  }

  // ---------------------------------------------------------------------
  // The chart: data columns and series
  // ---------------------------------------------------------------------

  /** What a series draws. */
  datatype Role = TimeAxis | DataLine | TrendLine | ThresholdLine

  /** A uPlot series, reduced to its label (`caption`) and role (colours, widths and
      dashes are presentation). */
  datatype Line = Line(caption: string, role: Role)

  /** `THRESHOLD_SERIES`. */
  const Threshold: Line := Line("Threshold", ThresholdLine)

  /** `chart.delSeries(i)`. */
  function DeleteAt(s: seq<Line>, i: nat): (r: seq<Line>)
    requires i < |s|
    ensures |r| == |s| - 1
  {
    s[..i] + s[i + 1..]
  }

  /** `chart.addSeries(x, i)`. */
  function InsertAt(s: seq<Line>, i: nat, x: Line): (r: seq<Line>)
    requires i <= |s|
    ensures |r| == |s| + 1
  {
    s[..i] + [x] + s[i..]
  }

  /** The column layout the callers keep: the time column and
      `numCols - 1` data columns, then `count` trend columns, then the
      threshold column if there is one. */
  predicate Layout(u: seq<Column>, numCols: nat, count: nat, has: bool) {
    numCols >= 1 && |u| == numCols + count + (if has then 1 else 0)
  }

  /** Pads a threshold column with its first value up to length n. */
  function Extend(col: Column, n: nat): (r: Column)
    ensures |r| == if |col| < n then n else |col|
    ensures r[..|col|] == col
    ensures forall k :: |col| <= k < |r| ==> r[k] == Head(col)
  {
    if |col| < n then col + Filled(n - |col|, Head(col)) else col
  }

  /** Row k holds `null` (or nothing) in every data column 1 <= c < numCols. */
  predicate NullRow(cols: seq<Column>, numCols: nat, k: nat)
    requires numCols <= |cols|
  {
    forall c :: 1 <= c < numCols ==> CellAt(cols[c], k).None?
  }

  /** Row n is where the data ends: every row from n on has no data and
      row n - 1, if any, has some. */
  predicate DataEndsAt(cols: seq<Column>, numCols: nat, n: nat)
    requires 1 <= |cols| && numCols <= |cols|
  {
    && n <= |cols[0]|
    && (forall k :: n <= k < |cols[0]| ==> NullRow(cols, numCols, k))
    && (n > 0 ==> !NullRow(cols, numCols, n - 1))
  }

  /** `uData[c].pop()` for every column. */
  function PopAll(cols: seq<Column>): (r: seq<Column>)
    requires |cols| >= 1
    ensures |r| == |cols|
    ensures forall c :: 0 <= c < |cols| ==> r[c] == Pop(cols[c])
  {
    seq(|cols|, c requires 0 <= c < |cols| => Pop(cols[c]))
  }

  /** The trimming loop: drop the last row while its data cells are all
      `null`. */
  function TrimRows(cols: seq<Column>, numCols: nat): (r: seq<Column>)
    requires 1 <= numCols <= |cols|
    ensures |r| == |cols|
    decreases |cols[0]|
  {
    if |cols[0]| == 0 then cols
    else if NullRow(cols, numCols, |cols[0]| - 1) then TrimRows(PopAll(cols), numCols)
    else cols
  }

  // updateThreshold (src/lib/chartRenderer.js:161-188)

  /** The columns after `updateThreshold` on a chart: replace, remove or
      append the constant threshold column, or leave them as they are. */
  function ThresholdData(u: seq<Column>, has: bool, value: Option<real>): seq<Column>
    requires |u| >= 1
  {
    if has && value.Some? then u[|u| - 1 := Filled(|u[0]|, value)]
    else if has then u[..|u| - 1]
    else if value.Some? then u + [Filled(|u[0]|, value)]
    else u
  }

  /** The series after `updateThreshold`, one per column. */
  function ThresholdSeries(series: seq<Line>, has: bool, value: Option<real>): seq<Line>
    requires |series| >= 1
  {
    if has && value.None? then series[..|series| - 1]
    else if !has && value.Some? then series + [Threshold]
    else series
  }

  // addTrendSeries (src/lib/chartRenderer.js:191-237)

  /** The columns after `addTrendSeries`: the threshold set aside, the
      future timestamps padded in, the trend column appended, and the
      threshold put back last, extended with its first value. */
  function AddedData(u: seq<Column>, numCols: nat, count: nat, has: bool, points: seq<Point>): seq<Column>
    requires Layout(u, numCols, count, has)
    requires |points| >= 1 || |u[0]| == 0
  {
    var base := if has then u[..|u| - 1] else u;
    var v := AppendTrend(base, numCols + count, points);
    if has then v + [Extend(u[|u| - 1], |v[0]|)] else v
  }

  /** The series after `addTrendSeries`: the trend line goes before the
      threshold line. */
  function AddedSeries(series: seq<Line>, has: bool, trendLabel: string): seq<Line>
    requires |series| >= 1
  {
    if has then series[..|series| - 1] + [Line(trendLabel, TrendLine), Threshold]
    else series + [Line(trendLabel, TrendLine)]
  }

  // removeTrendSeries (src/lib/chartRenderer.js:240-281)

  /** The columns after `removeTrendSeries`: the trend columns dropped, the
      trailing rows with no data trimmed, and the threshold rebuilt from
      its first value at the new length. */
  function RemovedData(u: seq<Column>, numCols: nat, count: nat, has: bool): seq<Column>
    requires Layout(u, numCols, count, has)
  {
    var trimmed := TrimRows(u[..numCols], numCols);
    if has then trimmed + [Filled(|trimmed[0]|, Head(u[|u| - 1]))] else trimmed
  }

  /** The series after `removeTrendSeries`. */
  function RemovedSeries(series: seq<Line>, numCols: nat, has: bool): seq<Line>
    requires numCols <= |series|
  {
    series[..numCols] + if has then [Threshold] else []
  }

  // createChart (src/lib/chartRenderer.js:40-158)

  /** A trend saved from an earlier step: its label and, if computed, its
      points. */
  datatype ExistingTrend = ExistingTrend(name: string, points: Option<seq<Point>>)

  /** `existingTrend && existingTrend.points`. */
  predicate Reapplies(e: Option<ExistingTrend>) {
    e.Some? && e.value.points.Some?
  }

  /** The columns `createChart` hands to uPlot. */
  function CreatedData(headerRow: seq<string>, rows: seq<seq<real>>, existing: Option<ExistingTrend>,
                       threshold: Option<real>): seq<Column>
    requires |headerRow| >= 1
    requires Reapplies(existing) && |rows| > 0 ==> |existing.value.points.value| >= 1
  {
    var u := Transposed(rows, |headerRow|);
    var v := if Reapplies(existing) then AppendTrend(u, |headerRow|, existing.value.points.value) else u;
    WithThreshold(v, threshold)
  }

  /** The data series, one per header column after the time column. */
  function DataLines(headerRow: seq<string>): (r: seq<Line>)
    requires |headerRow| >= 1
    ensures |r| == |headerRow| - 1
  {
    seq(|headerRow| - 1, c requires 0 <= c < |headerRow| - 1 => Line(headerRow[c + 1], DataLine))
  }

  /** The series `createChart` hands to uPlot. */
  function CreatedSeries(headerRow: seq<string>, existing: Option<ExistingTrend>, threshold: Option<real>): seq<Line>
    requires |headerRow| >= 1
  {
    [Line(headerRow[0], TimeAxis)] + DataLines(headerRow)
    + (if Reapplies(existing) then [Line(existing.value.name + " Trend", TrendLine)] else [])
    + (if threshold.Some? then [Threshold] else [])
  }

  /** A rendered chart: the `uData` columns and uPlot's series, which
      `setData` keeps pointing at the same columns. */
  class Chart {
    var uData: seq<Column>
    var series: seq<Line>

    /** uPlot draws one series per column, and every column is as long
        as the time column. */
    predicate Valid()
      reads this
    {
      |uData| >= 1 && |series| == |uData| && Rectangular(uData)
    }

    constructor (data: seq<Column>, lines: seq<Line>)
      requires |data| >= 1 && |lines| == |data| && Rectangular(data)
      ensures uData == data && series == lines
      ensures Valid()
    {
      uData := data;
      series := lines;
    }

    /** `addTrendSeries`: returns the new trend count. */
    method AddTrendSeries(headerRow: seq<string>, trendSeriesCount: nat, hasThreshold: bool,
                          points: seq<Point>, trendLabel: string) returns (count: nat)
      requires Valid() && Layout(uData, |headerRow|, trendSeriesCount, hasThreshold)
      requires |points| >= 1 || |uData[0]| == 0
      modifies this
      ensures uData == AddedData(old(uData), |headerRow|, trendSeriesCount, hasThreshold, points)
      ensures series == AddedSeries(old(series), hasThreshold, trendLabel)
      ensures count == trendSeriesCount + 1
      ensures Valid() && Layout(uData, |headerRow|, count, hasThreshold)
    {
      ghost var u0, s0 := uData, series;
      uData := AddTrendColumns(uData, |headerRow|, trendSeriesCount, hasThreshold, points);
      // uPlot's series follow the columns: the threshold line is deleted,
      // the trend line added at the trend column, the threshold line re-added.
      var n := |series|;
      if hasThreshold {
        series := DeleteAt(series, n - 1);
        series := InsertAt(series, n - 1, Line(trendLabel, TrendLine));
        series := InsertAt(series, n, Threshold);
      } else {
        series := InsertAt(series, n, Line(trendLabel, TrendLine));
      }
      count := trendSeriesCount + 1;
      AddedSeriesSplice(s0, hasThreshold, trendLabel);
      AddedShape(u0, s0, |headerRow|, trendSeriesCount, hasThreshold, points, trendLabel);
    }

    /** `removeTrendSeries`: returns the new trend count, 0. */
    method RemoveTrendSeries(headerRow: seq<string>, trendSeriesCount: nat, hasThreshold: bool)
      returns (remaining: nat)
      requires Valid() && Layout(uData, |headerRow|, trendSeriesCount, hasThreshold)
      modifies this
      ensures uData == RemovedData(old(uData), |headerRow|, trendSeriesCount, hasThreshold)
      ensures series == RemovedSeries(old(series), |headerRow|, hasThreshold)
      ensures remaining == 0
      ensures Valid() && Layout(uData, |headerRow|, remaining, hasThreshold)
    {
      ghost var u0, s0 := uData, series;
      var threshData: Column := [];
      if hasThreshold {
        threshData := uData[|uData| - 1];
        uData := uData[..|uData| - 1];
        series := DeleteAt(series, |uData|);
      }

      assert |uData| == |series| == |headerRow| + trendSeriesCount;
      assert uData[..|headerRow|] == old(uData)[..|headerRow|];
      assert series[..|headerRow|] == old(series)[..|headerRow|];
      uData, series := DropTrends(uData, series, trendSeriesCount);
      assert uData == u0[..|headerRow|] && series == s0[..|headerRow|];

      var numCols := |headerRow|;
      uData := TrimTrailing(uData, numCols);
      assert hasThreshold ==> threshData == u0[|u0| - 1];

      if hasThreshold {
        threshData := Filled(|uData[0]|, Head(threshData));
        uData := uData + [threshData];
        series := InsertAt(series, |uData| - 1, Threshold);
      }
      remaining := 0;
      RemovedShape(u0, s0, |headerRow|, trendSeriesCount, hasThreshold);
    }
  }

  /** The column steps of `addTrendSeries`: set the threshold aside, pad in
      the future timestamps, append the trend column, then put the
      threshold back extended to the new length. */
  method AddTrendColumns(u: seq<Column>, numCols: nat, count: nat, has: bool, points: seq<Point>)
    returns (r: seq<Column>)
    requires Layout(u, numCols, count, has)
    requires |points| >= 1 || |u[0]| == 0
    ensures r == AddedData(u, numCols, count, has, points)
  {
    if has {
      var base := u[..|u| - 1];
      assert base[0] == u[0];
      r := AppendTrendColumn(base, numCols + count, points);
      var threshData := ExtendThreshold(u[|u| - 1], |r[0]|);
      r := r + [threshData];
    } else {
      r := AppendTrendColumn(u, numCols + count, points);
    }
  }

  /** The padding loops and the trend column of `addTrendSeries`: the
      future timestamps are those after the last one of the time column. */
  method AppendTrendColumn(u: seq<Column>, k: nat, points: seq<Point>) returns (r: seq<Column>)
    requires 1 <= |u| && k <= |u| && (|points| >= 1 || |u[0]| == 0)
    ensures r == AppendTrend(u, k, points)
  {
    var lastDataTime := LastOf(u[0]);
    var futurePts := FuturePoints(points, lastDataTime);
    var padded := PadFuture(u, k, futurePts);
    var trendData := InterpolateTrendData(padded[0], points);
    r := padded + [trendData];
    AppendTrendIs(u, k, points, futurePts, padded, trendData);
  }

  /** Helper: padding, then appending the trend interpolated at the padded
      timestamps, is `AppendTrend`. */
  lemma AppendTrendIs(u: seq<Column>, k: nat, points: seq<Point>, future: seq<Point>,
                       padded: seq<Column>, trend: Column)
    requires 1 <= |u| && k <= |u| && (|points| >= 1 || |u[0]| == 0)
    requires future == FuturePoints(points, LastOf(u[0]))
    requires padded == Pad(u, k, future)
    requires trend == Interpolated(padded[0], points)
    ensures padded + [trend] == AppendTrend(u, k, points)
  {
  }

  /** Helper: `addTrendSeries`'s `delSeries` and `addSeries` calls build
      `AddedSeries`. */
  lemma AddedSeriesSplice(series: seq<Line>, has: bool, trendLabel: string)
    requires |series| >= 1
    ensures var trend := Line(trendLabel, TrendLine); var n := |series|;
      has ==> InsertAt(InsertAt(DeleteAt(series, n - 1), n - 1, trend), n, Threshold) == AddedSeries(series, true, trendLabel)
    ensures !has ==> InsertAt(series, |series|, Line(trendLabel, TrendLine)) == AddedSeries(series, false, trendLabel)
  {
  }

  /** The padding loop of `addTrendSeries`: repeat the threshold's first
      value until the column reaches length n. */
  method ExtendThreshold(col: Column, n: nat) returns (r: Column)
    ensures r == Extend(col, n)
  {
    r := col;
    var v := Head(col);
    while |r| < n
      invariant r == col + Filled(|r| - |col|, v)
      invariant |col| <= |r| <= if |col| < n then n else |col|
      decreases n - |r|
    {
      r := r + [v];
    }
  }

  /** The splicing loop of `removeTrendSeries`: drop the last column and its
      series `count` times. */
  method DropTrends(cols: seq<Column>, lines: seq<Line>, count: nat) returns (cols': seq<Column>, lines': seq<Line>)
    requires count <= |cols| == |lines|
    ensures cols' == cols[..|cols| - count] && lines' == lines[..|lines| - count]
  {
    cols', lines' := cols, lines;
    var n := count;
    while n > 0
      invariant 0 <= n <= count
      invariant cols' == cols[..|cols| - (count - n)]
      invariant lines' == lines[..|lines| - (count - n)]
    {
      var idx := |cols'| - 1;
      cols' := cols'[..idx] + cols'[idx + 1..];
      lines' := DeleteAt(lines', idx);
      n := n - 1;
    }
  }

  /** Whether row `last` has no data: the inner loop of the trimming. */
  method IsNullRow(cols: seq<Column>, numCols: nat, last: nat) returns (allNull: bool)
    requires 1 <= numCols <= |cols|
    ensures allNull == NullRow(cols, numCols, last)
  {
    allNull := true;
    var c := 1;
    while c < numCols
      invariant 1 <= c <= numCols
      invariant forall d :: 1 <= d < c ==> CellAt(cols[d], last).None?
    {
      if CellAt(cols[c], last).Some? {
        allNull := false;
        return;
      }
      c := c + 1;
    }
  }

  /** The trimming loop of `removeTrendSeries`. */
  method TrimTrailing(cols: seq<Column>, numCols: nat) returns (r: seq<Column>)
    requires 1 <= numCols <= |cols|
    ensures r == TrimRows(cols, numCols)
  {
    r := cols;
    while |r[0]| > 0
      invariant |r| == |cols|
      invariant TrimRows(r, numCols) == TrimRows(cols, numCols)
      decreases |r[0]|
    {
      var last := |r[0]| - 1;
      var allNull := IsNullRow(r, numCols, last);
      if !allNull {
        break;
      }
      ghost var before := r;
      for c := 0 to |r|
        invariant |r| == |before|
        invariant forall d :: 0 <= d < c ==> r[d] == Pop(before[d])
        invariant forall d :: c <= d < |r| ==> r[d] == before[d]
      {
        r := r[c := Pop(r[c])];
      }
      assert r == PopAll(before);
    }
  }

  /** `updateThreshold`: returns whether the chart now has a threshold. */
  method UpdateThreshold(chart: Chart?, hasThreshold: bool, value: Option<real>) returns (has: bool)
    requires chart != null ==> chart.Valid()
    modifies chart
    ensures chart == null ==> has == hasThreshold
    ensures chart != null ==> has == value.Some?
    ensures chart != null ==> chart.uData == ThresholdData(old(chart.uData), hasThreshold, value)
    ensures chart != null ==> chart.series == ThresholdSeries(old(chart.series), hasThreshold, value)
    ensures chart != null && (!hasThreshold || |old(chart.uData)| >= 2) ==> chart.Valid()
  {
    if chart == null {
      return hasThreshold;
    }
    if !hasThreshold || |chart.uData| >= 2 {
      ThresholdShape(chart.uData, chart.series, hasThreshold, value);
    }
    var valid := value.Some?;
    if hasThreshold {
      if valid {
        var idx := |chart.uData| - 1;
        chart.uData := chart.uData[idx := Filled(|chart.uData[0]|, value)];
      } else {
        var idx := |chart.uData| - 1;
        chart.uData := chart.uData[..idx] + chart.uData[idx + 1..];
        chart.series := DeleteAt(chart.series, idx);
        return false;
      }
    } else if valid {
      chart.uData := chart.uData + [Filled(|chart.uData[0]|, value)];
      chart.series := InsertAt(chart.series, |chart.uData| - 1, Threshold);
      return true;
    }
    return hasThreshold;
  }

  /** `createChart`: `null` without a container or data; otherwise the
      chart, its trend count and whether it has a threshold. */
  method CreateChart(container: bool, headerRow: seq<string>, parsedData: Option<seq<seq<real>>>,
                     existingTrend: Option<ExistingTrend>, threshold: Option<real>)
    returns (chart: Chart?, trendSeriesCount: nat, hasThreshold: bool)
    requires container && parsedData.Some? ==> |headerRow| >= 1
    requires container && parsedData.Some? && Reapplies(existingTrend) && |parsedData.value| > 0
      ==> |existingTrend.value.points.value| >= 1
    ensures chart == null <==> !container || parsedData.None?
    ensures chart != null ==> fresh(chart)
    ensures chart != null ==> chart.uData == CreatedData(headerRow, parsedData.value, existingTrend, threshold)
    ensures chart != null ==> chart.series == CreatedSeries(headerRow, existingTrend, threshold)
    ensures chart != null ==> trendSeriesCount == (if Reapplies(existingTrend) then 1 else 0)
    ensures chart != null ==> hasThreshold == threshold.Some?
    ensures chart != null ==> chart.Valid() && Layout(chart.uData, |headerRow|, trendSeriesCount, hasThreshold)
  {
    if !container || parsedData.None? {
      return null, 0, false;
    }
    var numCols := |headerRow|;
    var uData := BuildUData(parsedData.value, numCols);

    var series := [Line(headerRow[0], TimeAxis)];
    for c := 1 to numCols
      invariant series == [Line(headerRow[0], TimeAxis)] + DataLines(headerRow)[..c - 1]
    {
      series := series + [Line(headerRow[c], DataLine)];
    }

    trendSeriesCount := 0;
    if Reapplies(existingTrend) {
      var points := existingTrend.value.points.value;
      var lastDataTime := LastOf(uData[0]);
      var futurePts := FuturePoints(points, lastDataTime);
      uData := PadFuture(uData, numCols, futurePts);
      var trendData := InterpolateTrendData(uData[0], points);
      uData := uData + [trendData];
      series := series + [Line(existingTrend.value.name + " Trend", TrendLine)];
      trendSeriesCount := 1;
    }

    hasThreshold := threshold.Some?;
    if hasThreshold {
      uData := uData + [Filled(|uData[0]|, threshold)];
      series := series + [Threshold];
    }
    CreatedShape(headerRow, parsedData.value, existingTrend, threshold);
    chart := new Chart(uData, series);
  }

  // ---------------------------------------------------------------------
  // Properties of the chart operations
  // ---------------------------------------------------------------------

  /** Every operation keeps one series per column and every column as
      long as the time column. */
  lemma ThresholdShape(u: seq<Column>, series: seq<Line>, has: bool, value: Option<real>)
    requires |u| >= 1 && |series| == |u| && Rectangular(u)
    requires !has || |u| >= 2
    ensures var r := ThresholdData(u, has, value);
      |r| >= 1 && |ThresholdSeries(series, has, value)| == |r| && Rectangular(r)
  {
    ThresholdRules(u, 1, |u| - 1 - (if has then 1 else 0), has, value);
  }

  lemma AddedShape(u: seq<Column>, series: seq<Line>, numCols: nat, count: nat, has: bool,
                   points: seq<Point>, trendLabel: string)
    requires Layout(u, numCols, count, has) && Rectangular(u) && |series| == |u|
    requires |points| >= 1 || |u[0]| == 0
    ensures var r := AddedData(u, numCols, count, has, points);
      && Layout(r, numCols, count + 1, has) && Rectangular(r)
      && |AddedSeries(series, has, trendLabel)| == |r|
  {
    AddedRules(u, numCols, count, has, points);
  }

  lemma RemovedShape(u: seq<Column>, series: seq<Line>, numCols: nat, count: nat, has: bool)
    requires Layout(u, numCols, count, has) && Rectangular(u) && |series| == |u|
    ensures var r := RemovedData(u, numCols, count, has);
      && Layout(r, numCols, 0, has) && Rectangular(r)
      && |RemovedSeries(series, numCols, has)| == |r|
  {
    RemovedRules(u, numCols, count, has);
  }

  lemma CreatedShape(headerRow: seq<string>, rows: seq<seq<real>>, existing: Option<ExistingTrend>, threshold: Option<real>)
    requires |headerRow| >= 1
    requires Reapplies(existing) && |rows| > 0 ==> |existing.value.points.value| >= 1
    ensures var u := CreatedData(headerRow, rows, existing, threshold);
      && Layout(u, |headerRow|, if Reapplies(existing) then 1 else 0, threshold.Some?) && Rectangular(u)
      && |CreatedSeries(headerRow, existing, threshold)| == |u|
  {
    CreatedRules(headerRow, rows, existing, threshold);
  }

  /** `updateThreshold`: the columns before the threshold are kept, the
      chart has a threshold exactly when the new value is finite, and that
      threshold is a constant column as long as the time column. */
  lemma ThresholdRules(u: seq<Column>, numCols: nat, count: nat, has: bool, value: Option<real>)
    requires Layout(u, numCols, count, has) && Rectangular(u)
    ensures var r := ThresholdData(u, has, value);
      && Layout(r, numCols, count, value.Some?) && Rectangular(r)
      && r[..numCols + count] == u[..numCols + count]
      && (value.Some? ==> r[|r| - 1] == Filled(|u[0]|, value))
  {
    var r := ThresholdData(u, has, value);
    var k := numCols + count;
    if has && value.Some? {
      assert r[0] == u[0];
      assert r[..k] == u[..k];
    } else if has {
      assert r[..k] == u[..k];
    } else if value.Some? {
      assert r[..k] == u[..k];
    }
  }

  /** `addTrendSeries`: one more trend column; the time column gains
      exactly the future timestamps; every data and earlier trend column
      gains as many `null`s; the new trend column is the trend interpolated
      at the padded timestamps; and a threshold stays last, extended with
      its first value to the new length. */
  lemma AddedRules(u: seq<Column>, numCols: nat, count: nat, has: bool, points: seq<Point>)
    requires Layout(u, numCols, count, has) && Rectangular(u)
    requires |points| >= 1 || |u[0]| == 0
    ensures var r := AddedData(u, numCols, count, has, points);
      var f := FuturePoints(points, LastOf(u[0]));
      var k := numCols + count;
      && Layout(r, numCols, count + 1, has) && Rectangular(r)
      && r[0] == u[0] + Times(f)
      && (forall c :: 1 <= c < k ==> r[c] == u[c] + Filled(|f|, None))
      && r[k] == Interpolated(r[0], points)
      && (has ==> r[k + 1] == Extend(u[|u| - 1], |r[0]|))
  {
    if has {
      AddedBelowThreshold(u, numCols, count, points);
    } else {
      assert AddedData(u, numCols, count, false, points) == AppendTrend(u, numCols + count, points);
      AppendTrendRules(u, points);
    }
  }

  /** Helper: the threshold case of `AddedRules`. */
  lemma AddedBelowThreshold(u: seq<Column>, numCols: nat, count: nat, points: seq<Point>)
    requires Layout(u, numCols, count, true) && Rectangular(u)
    requires |points| >= 1 || |u[0]| == 0
    ensures var r := AddedData(u, numCols, count, true, points);
      var f := FuturePoints(points, LastOf(u[0]));
      var k := numCols + count;
      && Layout(r, numCols, count + 1, true) && Rectangular(r)
      && r[0] == u[0] + Times(f)
      && (forall c :: 1 <= c < k ==> r[c] == u[c] + Filled(|f|, None))
      && r[k] == Interpolated(r[0], points)
      && r[k + 1] == Extend(u[|u| - 1], |r[0]|)
  {
    var k := numCols + count;
    var base := u[..|u| - 1];
    assert base[0] == u[0] && |base| == k;
    assert forall c :: 0 <= c < k ==> base[c] == u[c];
    AppendTrendRules(base, points);
    var v := AppendTrend(base, k, points);
    var r := AddedData(u, numCols, count, true, points);
    assert r == v + [Extend(u[|u| - 1], |v[0]|)];
    assert forall c :: 0 <= c <= k ==> r[c] == v[c];
  }

  /** Helper: padding every column of a rectangular buffer and appending
      the trend keeps it rectangular. */
  lemma AppendTrendRules(base: seq<Column>, points: seq<Point>)
    requires 1 <= |base| && Rectangular(base)
    requires |points| >= 1 || |base[0]| == 0
    ensures var v := AppendTrend(base, |base|, points);
      var f := FuturePoints(points, LastOf(base[0]));
      && Rectangular(v) && |v[0]| == |base[0]| + |f|
      && v[0] == base[0] + Times(f)
      && (forall c :: 1 <= c < |base| ==> v[c] == base[c] + Filled(|f|, None))
      && v[|base|] == Interpolated(v[0], points)
  {
    var k := |base|;
    var f := FuturePoints(points, LastOf(base[0]));
    PadRules(base, k, f);
    var padded := Pad(base, k, f);
    assert forall c :: 0 <= c < k ==> |padded[c]| == |base[0]| + |f|;
  }

  /** The trimming loop stops at the last row holding data: what it keeps
      is a prefix of every column, every row it drops has no data, and the
      last row it keeps has some. */
  lemma {:induction false} TrimRowsRules(cols: seq<Column>, numCols: nat)
    requires 1 <= numCols <= |cols| && Rectangular(cols)
    ensures var t := TrimRows(cols, numCols);
      && Rectangular(t) && DataEndsAt(cols, numCols, |t[0]|)
      && (forall c :: 0 <= c < |cols| ==> t[c] == cols[c][..|t[0]|])
    decreases |cols[0]|
  {
    var n := |cols[0]|;
    if n > 0 && NullRow(cols, numCols, n - 1) {
      var p := PopAll(cols);
      assert Rectangular(p);
      TrimRowsRules(p, numCols);
      var t := TrimRows(p, numCols);
      assert TrimRows(cols, numCols) == t;
      NullRowPop(cols, numCols);
      forall c | 0 <= c < |cols|
        ensures t[c] == cols[c][..|t[0]|]
      {
        assert p[c] == cols[c][..n - 1];
      }
    } else {
      assert forall c :: 0 <= c < |cols| ==> cols[c][..n] == cols[c];
    }
  }

  /** Helper: popping the last row leaves the other rows as they were. */
  lemma NullRowPop(cols: seq<Column>, numCols: nat)
    requires 1 <= numCols <= |cols| && Rectangular(cols) && |cols[0]| > 0
    ensures forall k :: 0 <= k < |cols[0]| - 1 ==> NullRow(PopAll(cols), numCols, k) == NullRow(cols, numCols, k)
  {
    var p := PopAll(cols);
    forall k | 0 <= k < |cols[0]| - 1
      ensures NullRow(p, numCols, k) == NullRow(cols, numCols, k)
    {
      assert forall c :: 1 <= c < numCols ==> CellAt(p[c], k) == CellAt(cols[c], k);
    }
  }

  /** The series after each operation still match the columns one for
      one: the trend line sits right after the earlier columns and the
      threshold line, when there is one, comes last. */
  lemma SeriesRules(series: seq<Line>, numCols: nat, count: nat, has: bool, value: Option<real>, trendLabel: string)
    requires numCols >= 1 && |series| == numCols + count + (if has then 1 else 0)
    requires has ==> series[|series| - 1] == Threshold
    ensures var s := ThresholdSeries(series, has, value);
      && |s| == numCols + count + (if value.Some? then 1 else 0)
      && s[..numCols + count] == series[..numCols + count]
      && (value.Some? ==> s[|s| - 1] == Threshold)
    ensures var s := AddedSeries(series, has, trendLabel);
      && |s| == numCols + count + 1 + (if has then 1 else 0)
      && s[..numCols + count] == series[..numCols + count]
      && s[numCols + count] == Line(trendLabel, TrendLine)
      && (has ==> s[|s| - 1] == Threshold)
    ensures var s := RemovedSeries(series, numCols, has);
      && |s| == numCols + (if has then 1 else 0)
      && (has ==> s[|s| - 1] == Threshold)
  {
    var k := numCols + count;
    assert ThresholdSeries(series, has, value)[..k] == series[..k];
    assert AddedSeries(series, has, trendLabel)[..k] == series[..k];
  }

  /** `removeTrendSeries`: no trend column is left; every kept column is a
      prefix of what it was; the trailing rows dropped held no data and the
      last row kept holds some; a threshold is rebuilt as a constant column
      of the new length; and the series follow the columns. */
  lemma RemovedRules(u: seq<Column>, numCols: nat, count: nat, has: bool)
    requires Layout(u, numCols, count, has) && Rectangular(u)
    ensures var r := RemovedData(u, numCols, count, has);
      var n := |r[0]|;
      && Layout(r, numCols, 0, has) && Rectangular(r) && DataEndsAt(u, numCols, n)
      && (forall c :: 0 <= c < numCols ==> r[c] == u[c][..n])
      && (has ==> r[numCols] == Filled(n, Head(u[|u| - 1])))
  {
    var kept := u[..numCols];
    assert Rectangular(kept);
    TrimRowsRules(kept, numCols);
    forall k: nat
      ensures NullRow(kept, numCols, k) == NullRow(u, numCols, k)
    {
      assert forall c :: 1 <= c < numCols ==> kept[c] == u[c];
    }
  }

  /** Helper: padding leaves no data in the rows it adds and keeps the rows
      that were there. */
  lemma AddedRowsNull(u: seq<Column>, numCols: nat, has: bool, points: seq<Point>)
    requires Layout(u, numCols, 0, has) && Rectangular(u) && |points| >= 1
    ensures var a := AddedData(u, numCols, 0, has, points);
      && Layout(a, numCols, 1, has) && Rectangular(a) && |u[0]| <= |a[0]|
      && (forall c :: 0 <= c < numCols ==> a[c][..|u[0]|] == u[c])
      && (|u[0]| > 0 && !NullRow(u, numCols, |u[0]| - 1) ==> DataEndsAt(a, numCols, |u[0]|))
      && (has ==> Head(a[|a| - 1]) == Head(u[|u| - 1]))
  {
    var a := AddedData(u, numCols, 0, has, points);
    var f := FuturePoints(points, LastOf(u[0]));
    AddedRules(u, numCols, 0, has, points);
    PaddedRows(u, a, numCols, Times(f), |f|);
    if has {
      var th := u[|u| - 1];
      if |th| > 0 {
        assert Extend(th, |a[0]|)[..|th|] == th;
      }
    }
  }

  /** Helper: columns extended with `null`s keep their rows and gain rows
      without data. */
  lemma PaddedRows(u: seq<Column>, a: seq<Column>, numCols: nat, times: Column, extra: nat)
    requires 1 <= numCols <= |u| <= |a| && Rectangular(u)
    requires a[0] == u[0] + times && |times| == extra
    requires forall c :: 1 <= c < numCols ==> a[c] == u[c] + Filled(extra, None)
    ensures forall c :: 0 <= c < numCols ==> a[c][..|u[0]|] == u[c]
    ensures |u[0]| > 0 && !NullRow(u, numCols, |u[0]| - 1) ==> DataEndsAt(a, numCols, |u[0]|)
  {
    var m := |u[0]|;
    forall c | 0 <= c < numCols
      ensures a[c][..m] == u[c]
    {
      if c > 0 {
        assert |u[c]| == m;
      }
    }
    forall k | m <= k < |a[0]|
      ensures NullRow(a, numCols, k)
    {
      assert forall c :: 1 <= c < numCols ==> |u[c]| == m && CellAt(a[c], k).None?;
    }
    if m > 0 {
      assert forall c :: 1 <= c < numCols ==> CellAt(a[c], m - 1) == CellAt(u[c], m - 1);
    }
  }

  /** Removing the trend right after adding one to a chart with no trend
      gives back the original columns exactly, provided the last row holds
      data and any threshold is constant (as `createChart` and
      `updateThreshold` leave it). */
  lemma RemoveAfterAdd(u: seq<Column>, numCols: nat, has: bool, points: seq<Point>)
    requires Layout(u, numCols, 0, has) && Rectangular(u)
    requires |u[0]| > 0 && !NullRow(u, numCols, |u[0]| - 1)
    requires has ==> u[|u| - 1] == Filled(|u[0]|, Head(u[|u| - 1]))
    requires |points| >= 1
    ensures RemovedData(AddedData(u, numCols, 0, has, points), numCols, 1, has) == u
  {
    AddedRowsNull(u, numCols, has, points);
    RestoreFrom(u, AddedData(u, numCols, 0, has, points), numCols, has);
  }

  /** Helper: removing the one trend column of a buffer that extends `u`
      with rows holding no data gives `u` back. */
  lemma RestoreFrom(u: seq<Column>, a: seq<Column>, numCols: nat, has: bool)
    requires Layout(u, numCols, 0, has) && Rectangular(u) && |u[0]| > 0
    requires Layout(a, numCols, 1, has) && Rectangular(a) && |u[0]| <= |a[0]|
    requires forall c :: 0 <= c < numCols ==> a[c][..|u[0]|] == u[c]
    requires DataEndsAt(a, numCols, |u[0]|)
    requires has ==> u[|u| - 1] == Filled(|u[0]|, Head(a[|a| - 1]))
    ensures RemovedData(a, numCols, 1, has) == u
  {
    RemovedRules(a, numCols, 1, has);
    var r := RemovedData(a, numCols, 1, has);
    LastDataRow(a, numCols, |r[0]|, |u[0]|);
    SameColumns(u, r, numCols, has);
  }

  /** Helper: two buffers with the same columns are equal. */
  lemma SameColumns(u: seq<Column>, r: seq<Column>, numCols: nat, has: bool)
    requires |u| == |r| == numCols + (if has then 1 else 0)
    requires forall c :: 0 <= c < numCols ==> r[c] == u[c]
    requires has ==> r[numCols] == u[numCols]
    ensures r == u
  {
  }

  /** Helper: the row count a trimming keeps is fixed by where the data
      ends. */
  lemma LastDataRow(a: seq<Column>, numCols: nat, n: nat, m: nat)
    requires 1 <= numCols <= |a|
    requires DataEndsAt(a, numCols, n) && DataEndsAt(a, numCols, m)
    ensures n == m
  {
  }

  /** `createChart`: the transposed columns, then the re-applied trend (the
      time column extended by the trend's future timestamps, the data
      columns padded with `null`, the trend interpolated at every
      timestamp), then a constant threshold column as long as the time
      column; one series per column. */
  lemma CreatedRules(headerRow: seq<string>, rows: seq<seq<real>>, existing: Option<ExistingTrend>, threshold: Option<real>)
    requires |headerRow| >= 1
    requires Reapplies(existing) && |rows| > 0 ==> |existing.value.points.value| >= 1
    ensures var u := CreatedData(headerRow, rows, existing, threshold);
      && Layout(u, |headerRow|, if Reapplies(existing) then 1 else 0, threshold.Some?) && Rectangular(u)
      && |CreatedSeries(headerRow, existing, threshold)| == |u|
      && (threshold.Some? ==> u[|u| - 1] == Filled(|u[0]|, threshold))
    ensures var u := CreatedData(headerRow, rows, existing, threshold);
      var t := Transposed(rows, |headerRow|);
      !Reapplies(existing) ==> u[..|headerRow|] == t
    ensures var u := CreatedData(headerRow, rows, existing, threshold);
      var t := Transposed(rows, |headerRow|);
      Reapplies(existing) ==>
        var points := existing.value.points.value;
        var f := FuturePoints(points, LastOf(t[0]));
        && u[0] == t[0] + Times(f)
        && (forall c :: 1 <= c < |headerRow| ==> u[c] == t[c] + Filled(|f|, None))
        && u[|headerRow|] == Interpolated(u[0], points)
  {
    var t := Transposed(rows, |headerRow|);
    assert Rectangular(t);
    var v := if Reapplies(existing) then AppendTrend(t, |headerRow|, existing.value.points.value) else t;
    if Reapplies(existing) {
      AppendTrendRules(t, existing.value.points.value);
    }
    ThresholdAppended(v, threshold);
    assert CreatedData(headerRow, rows, existing, threshold) == WithThreshold(v, threshold);
  }

  /** `uData.push(uData[0].map(() => threshold))` when the threshold is
      finite. */
  function WithThreshold(v: seq<Column>, threshold: Option<real>): seq<Column>
    requires |v| >= 1
  {
    if threshold.Some? then v + [Filled(|v[0]|, threshold)] else v
  }

  /** Helper: appending the threshold column keeps the buffer rectangular
      and leaves the other columns alone. */
  lemma ThresholdAppended(v: seq<Column>, threshold: Option<real>)
    requires |v| >= 1 && Rectangular(v)
    ensures var w := WithThreshold(v, threshold);
      && |w| == |v| + (if threshold.Some? then 1 else 0) && Rectangular(w)
      && w[..|v|] == v
      && (threshold.Some? ==> w[|w| - 1] == Filled(|w[0]|, threshold))
  {
  }
}
