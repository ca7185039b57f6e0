# Trend engine of the COSMOS trends plugin, in Dafny

This project models the numerical core of the trends plugin for the
COSMOS web front end. The plugin fits trend and forecast models to a
telemetry time series of `(timestamp, value)` pairs, parses the CSV
exported by the Data Extractor, and keeps the column buffer of the chart
that shows data, trend and threshold. Numbers are Dafny `real`s. A
JavaScript `null`, `undefined` or non-finite number is `None` of
`Wrappers.Option`. A thrown error is a `Failure` of `Wrappers.Result`.

There is one module per source file:

- `TsUtils` (`ts_utils.dfy`) models `src/lib/tsUtils.js`.
  - `interpolate` is a method with the binary-search loop, proved equal to
    the function `InterpolateOf`. On non-decreasing timestamps that
    function equals an independent linear-scan reference, `Interp`.
  - `calcFitStats` is an accumulating loop, proved against `SsTot` and
    `SsRes`.
  - The module also holds the `Forecast` result and the piecewise
    predictor shared by the three smoothing forecasters.
- `Sma`, `MovingAverage` and `HoltsLinear` model `sma.js`,
  `movingAverage.js` and `holtsLinear.js`.
  - Each loop that fills the fitted array is a method over an `array`,
    proved equal to a recurrence function.
  - Each `...Fit` method is proved equal to a total specification function,
    including the `null` result.
  - Lemmas state what the recurrences mean: constant data, α = 0 and α = 1,
    convex bounds, and exact tracking of linear data.
- `SinusoidalFit` models `sinusoidalFit.js`.
  - The frequency comes from the autocorrelation scan, or from the
    zero-crossing fallback.
  - The phase comes from a 72-step coarse and 11-step fine grid search.
  - Amplitude and offset come from the 2×2 normal equations.
  - `sin`, π and `toFixed(4)` are parameters (`Maths`).
- `TrendEngine` models `trendEngine.js`.
  - `fitTrend` dispatches over the nine families and applies the t0, x-offset
    and y-shift transforms.
  - Its predictor undoes those transforms.
  - `calcRMSE`/`calcR2`, `generatePredictionPoints` and `trendLabel` are
    modelled too.
  - The `regression` library, `avgSlope` and number printing are parameters
    (`Hosts`).
- `CsvParser` models `csvParser.js`.
  - It covers `split`, `trim`, column classification, metadata, row
    validation and the error cases.
  - The sort is an in-place insertion sort on an `array`, proved sorted and
    a permutation.
  - `Number()` and `new Date()` are parameters.
- `ChartRenderer` models `chartRenderer.js`.
  - The `uData` buffer and uPlot's series list are the fields of class
    `Chart`.
  - `addTrendSeries` and `removeTrendSeries` are its methods.
  - `updateThreshold` and `createChart` are methods that modify or allocate
    a `Chart`.
  - Each change is proved equal to a function of the old state. Lemmas then
    state what the new buffer holds, including that removing a trend right
    after adding one restores the buffer.

Three places where the code's comments or tests suggest something other
than what the code does; the model follows the code:

- The fine phase search (`src/lib/sinusoidalFit.js:136-149`, commented
  "Fine-tune around best phase") offsets each candidate from the best
  phase found so far. That phase may already have moved during the fine
  search itself, so the candidates are not a fixed grid around the coarse
  best. `SinusoidalFit.FineCandidate` models the code.
- The `dx === 0` branch of `interpolate` (`src/lib/tsUtils.js:19`) is
  never taken. The search keeps `xs[lo] <= x < xs[hi]` for any `xs`, so
  the bracket never has zero width. `TsUtils.Search` states that bracket,
  and `TsUtils.InterpolateOf` has no such branch.
- A test in the repository (`src/lib/__tests__/trendEngine.test.js:69`)
  expects six trend types, but the table lists nine
  (`src/lib/trendEngine.js:7-17`). `TrendEngine.TrendTypes` has the nine
  names.

## Model

| member | source | states |
|---|---|---|
| TsUtils.PointsOf | src/lib/sma.js:39 | one point per timestamp, the i-th being `(xs[i], fitted[i])` |
| TsUtils.LastAtMost | src/lib/tsUtils.js:10-16 | reference for the bracket search: the last index `j <= k` with `xs[j] <= x`, every later index up to k lies above x |
| TsUtils.Search | src/lib/tsUtils.js:10-16 | the halving search keeps the bracket `xs[lo] <= x < xs[hi]` and ends on neighbours `xs[k] <= x < xs[k+1]`, for any xs |
| TsUtils.InterpolateOf | src/lib/tsUtils.js:4-22 | `vals[0]` for `x <= xs[0]`, `vals[n-1]` for `x >= xs[n-1]`, otherwise the line through a bracketing segment `xs[k] <= x < xs[k+1]` |
| TsUtils.InterpolateIsInterp | src/lib/tsUtils.js:4-21 | on non-decreasing xs the binary-search interpolation equals the linear-scan reference `Interp` |
| TsUtils.Interpolate | src/lib/tsUtils.js:4-22 | the binary-search loop returns `InterpolateOf(xs, vals, x)`: the clamped end values outside the range, otherwise the line through the bracket the search settles on |
| TsUtils.BracketIsUnique | src/lib/tsUtils.js:10-16 | on non-decreasing xs there is only one bracket `xs[k] <= x < xs[k+1]` below the last timestamp: the one the linear scan finds |
| TsUtils.InterpAtKnot | src/lib/tsUtils.js:4-21 | on strictly increasing xs, interpolating at `xs[i]` gives `vals[i]` |
| TsUtils.InterpInterior | src/lib/tsUtils.js:18-21 | an interior x has a bracket, its parameter t satisfies `0 <= t < 1`, and the result lies between the two bracketing values |
| TsUtils.MeanOfConstant | src/lib/tsUtils.js:27 | the mean of a flat series is its value |
| TsUtils.CalcFitStats | src/lib/tsUtils.js:25-37 | the accumulating loop yields `r2` and `ssRes / n` of the reference sums |
| TsUtils.SsTotNonNegative | src/lib/tsUtils.js:28-33 | the total sum of squares is never negative |
| TsUtils.SsResNonNegative | src/lib/tsUtils.js:28-33 | the residual sum of squares is never negative |
| TsUtils.SsTotZero | src/lib/tsUtils.js:31-34 | a zero total sum of squares forces every value onto the mean |
| TsUtils.SsTotAtConstant | src/lib/tsUtils.js:31 | the total sum of squares around a constant series' value is zero |
| TsUtils.FlatSeriesGuard | src/lib/tsUtils.js:34 | `ssTot = 0` exactly when all values are equal, and then `r2 = 0` |
| TsUtils.SsResSelf | src/lib/tsUtils.js:32 | a series has zero residual against itself |
| TsUtils.PerfectFit | src/lib/tsUtils.js:29-35 | `calcFitStats(ys, ys)` has zero RMSE, and `r2 = 1` when the data vary |
| TsUtils.FitStatsBounds | src/lib/tsUtils.js:34-35 | `r2 <= 1` whenever `ssTot > 0`; the squared RMSE is non-negative and times n gives `ssRes` |
| TsUtils.PiecewiseContinuous | src/lib/sma.js:31-36 | the forecast at the last timestamp is the last fitted value and beyond it rises by `slope·(x − lastX)`: the two pieces meet |
| TsUtils.PiecewiseAtKnot | src/lib/movingAverage.js:25-30 | on strictly increasing timestamps the forecast at each observed timestamp is the fitted value there |
| TsUtils.BeyondLastRises | src/lib/holtsLinear.js:30-35 | beyond the last timestamp the forecast increases in x exactly when the slope (Holt's final trend) is positive |
| Sma.Window | src/lib/sma.js:10 | the window is `max(2, min(windowSize, n))`: between 2 and n when n ≥ 2, each clamp case spelled out |
| Sma.WindowStart | src/lib/sma.js:19-22 | the window ending at i holds `min(i + 1, w)` values |
| Sma.RollingAverage | src/lib/sma.js:15-24 | the rolling-sum loop gives, at each i, the mean of the `min(i + 1, w)` values ending at i |
| Sma.SmaOf | src/lib/sma.js:16-24 | the fitted series has one entry per value, entry i being the mean of the window ending at i |
| Sma.WindowSumStep | src/lib/sma.js:17-21 | adding the entering value and, once the window is full, subtracting the leaving one moves the sum to the next window |
| Sma.NatToString | src/lib/sma.js:42 | the window prints as a non-empty string of decimal digits |
| Sma.NatToStringRoundTrip | src/lib/sma.js:42 | reading the printed window back gives the window size |
| Sma.SmaFit | src/lib/sma.js:6-48 | `null` exactly for absent data or fewer than two points; otherwise the clamped-window averages, their statistics, the piecewise predictor, the points and `SMA(window=w)` |
| Sma.SmaOfConstant | src/lib/sma.js:15-24 | a constant series is its own moving average |
| Sma.SmaWarmUp | src/lib/sma.js:22-23 | before the window fills, entry i is the mean of all values so far; entry 0 is the first value |
| Sma.SmaFullWindow | src/lib/sma.js:19-23 | once the window is full, entry i is the mean of the last w values |
| MovingAverage.Smooth | src/lib/movingAverage.js:14-18 | the loop fills `ema[0] = ys[0]`, `ema[i] = α·ys[i] + (1 − α)·ema[i − 1]` |
| MovingAverage.EmaOf | src/lib/movingAverage.js:14-18 | the smoothed series has one entry per value, entry i being the i-th step of the exponential recurrence |
| MovingAverage.EmaFit | src/lib/movingAverage.js:6-42 | `null` exactly for absent data or fewer than two points; otherwise the smoothed series, statistics, piecewise predictor and points |
| MovingAverage.EmaAlphaOne | src/lib/movingAverage.js:17 | with α = 1 the EMA is the data |
| MovingAverage.EmaAlphaZero | src/lib/movingAverage.js:17 | with α = 0 every entry is the first value |
| MovingAverage.EmaWithinBounds | src/lib/movingAverage.js:15-18 | for 0 ≤ α ≤ 1 each entry stays within any bounds of the values so far |
| MovingAverage.BlendWithin | src/lib/movingAverage.js:17 | one smoothing step is a convex combination of the new value and the previous entry |
| HoltsLinear.NonZero | src/lib/holtsLinear.js:15 | `d \|\| 1`: never zero, d itself unless d is zero, then 1 |
| HoltsLinear.Smooth | src/lib/holtsLinear.js:14-26 | the loop records each level in `fitted` and ends in the level and trend of the recurrence after the last observation |
| HoltsLinear.FittedOf | src/lib/holtsLinear.js:18-26 | the fitted series has one entry per value, entry i being the level after observation i |
| HoltsLinear.HoltsFit | src/lib/holtsLinear.js:6-47 | `null` exactly for absent data or fewer than two points; otherwise the fitted levels, statistics, a predictor following `level + trend·(x − lastX)` beyond the data, and the points |
| HoltsLinear.LinearDataTracked | src/lib/holtsLinear.js:14-26 | on data on a line `m·x + c` with distinct timestamps, every state is (the observation, m), for any α and β |
| HoltsLinear.SlopeOnLine | src/lib/holtsLinear.js:15 | the initial trend of two points on a line is its slope |
| HoltsLinear.StepOnLine | src/lib/holtsLinear.js:21-24 | a step between points on a line keeps the level on the line and the trend at its slope |
| HoltsLinear.LinearDataFitsExactly | src/lib/holtsLinear.js:14-38 | on linear data the fitted levels equal the data, the RMSE is zero and the final trend is the slope |
| SinusoidalFit.LagProducts | src/lib/sinusoidalFit.js:80-84 | the inner loop sums `centered[i]·centered[i + lag]` over `i < n − lag` |
| SinusoidalFit.CrossingPeriod | src/lib/sinusoidalFit.js:106 | the crossing period `2·span / crossings` is non-zero, so `2π / period` is defined |
| SinusoidalFit.LagPeriod | src/lib/sinusoidalFit.js:113 | the lag period `bestLag·dt` is non-zero |
| SinusoidalFit.EstimateFrequency | src/lib/sinusoidalFit.js:59-115 | the loops return the frequency of the peak, crossing or full-span rule |
| SinusoidalFit.ScanPeaks | src/lib/sinusoidalFit.js:66-93 | the autocorrelation loop keeps exactly the first peak of the autocorrelations of lags 0..maxLag-1 |
| SinusoidalFit.CountCrossings | src/lib/sinusoidalFit.js:99-104 | the loop counts neighbouring pairs with a negative product |
| SinusoidalFit.PeakFromKeeps | src/lib/sinusoidalFit.js:79-94 | the scan keeps "first highest rising lag so far, or none rising" up to the end |
| SinusoidalFit.PeakTaken | src/lib/sinusoidalFit.js:87-92 | a rising lag past 2 that beats the best becomes the best |
| SinusoidalFit.PeakSkipped | src/lib/sinusoidalFit.js:87-93 | any other lag leaves the best as it is |
| SinusoidalFit.FirstPeakIsHighestRising | src/lib/sinusoidalFit.js:76-94 | the scan finds nothing exactly when no lag rises; otherwise a rising lag, no lower than any rising lag and strictly higher than earlier ones |
| SinusoidalFit.FrequencyFromPeak | src/lib/sinusoidalFit.js:97-114 | on the peak path `2 < bestLag < ⌊n/2⌋`, `autocorr[bestLag − 1] <= autocorr[bestLag]`, and B times `bestLag·dt` is 2π |
| SinusoidalFit.FrequencyFallback | src/lib/sinusoidalFit.js:97-111 | without a positive peak, B is `π·crossings / span`, or `2π / span` when nothing crosses zero |
| SinusoidalFit.ShortSeriesHasNoPeak | src/lib/sinusoidalFit.js:67-94 | fewer than eight points never take the peak path |
| SinusoidalFit.CrossingsAreSignChanges | src/lib/sinusoidalFit.js:99-104 | no crossing exactly when no two neighbours have opposite signs; at most n − 1 crossings |
| SinusoidalFit.SumSquaredErrors | src/lib/sinusoidalFit.js:125-129 | the loop sums `(ys[j] − A·sin(B·xs[j] + phase) − D)²` |
| SinusoidalFit.EstimatePhase | src/lib/sinusoidalFit.js:117-152 | the two loops return the phase of the coarse-then-fine search |
| SinusoidalFit.CoarseFromBest | src/lib/sinusoidalFit.js:123-134 | the coarse search ends with an error no larger than its start and than every remaining grid phase, and records its phase's error |
| SinusoidalFit.FineFromBest | src/lib/sinusoidalFit.js:138-149 | the fine search ends with an error no larger than its start and than every candidate it tries |
| SinusoidalFit.FineSearchBest | src/lib/sinusoidalFit.js:136-151 | from a coarse best, the fine search's phase beats every grid phase and every fine candidate |
| SinusoidalFit.PhaseIsBestTried | src/lib/sinusoidalFit.js:117-151 | the chosen phase has an SSE no larger than each of the 72 grid phases and the 11 fine candidates |
| SinusoidalFit.HalfRange | src/lib/sinusoidalFit.js:23 | `(max − min) / 2` is zero exactly when max equals min |
| SinusoidalFit.MaxOf | src/lib/sinusoidalFit.js:22 | `Math.max(...ys)` bounds every value and is one of them |
| SinusoidalFit.MinOf | src/lib/sinusoidalFit.js:21 | `Math.min(...ys)` is below every value and is one of them |
| SinusoidalFit.RefineAmplitudeOffset | src/lib/sinusoidalFit.js:154-178 | the accumulation loop and solve give the amplitude and offset of the 2×2 system, or the fallback |
| SinusoidalFit.SolveNormal | src/lib/sinusoidalFit.js:170-177 | when `\|det\| >= 1e-12` the result satisfies both normal equations and is their only solution |
| SinusoidalFit.RefineRecovers | src/lib/sinusoidalFit.js:154-177 | data exactly on `a0·sin(B·x + C) + d0` with a regular system is refined to `(a0, d0)` |
| SinusoidalFit.CramerSolves | src/lib/sinusoidalFit.js:171-176 | the Cramer formulas satisfy both equations |
| SinusoidalFit.CramerUnique | src/lib/sinusoidalFit.js:171-176 | any solution of a regular system is the Cramer one |
| SinusoidalFit.SpreadZero | src/lib/sinusoidalFit.js:21-25 | max equals min exactly when the data are flat |
| SinusoidalFit.CalcR2 | src/lib/sinusoidalFit.js:180-191 | the loop gives the R² of the data against the sine curve |
| SinusoidalFit.Equation | src/lib/sinusoidalFit.js:49 | the equation starts with `y = ` |
| SinusoidalFit.SinusoidalFit | src/lib/sinusoidalFit.js:4-57 | the fitter equals its specification: placeholder, flat line or full fit |
| SinusoidalFit.PredictAndPoints | src/lib/sinusoidalFit.js:9-48 | `predict(x)[0] == x` on every path; from four points on, the points are `predict` at the data's timestamps |
| SinusoidalFit.FullFitPredicts | src/lib/sinusoidalFit.js:47-48 | the full fit's points are its predictor at the data's timestamps |
| SinusoidalFit.ShortInput | src/lib/sinusoidalFit.js:5-12 | fewer than four points or none: r2 = 0, `predict(x) = [x, 0]`, points are the input |
| SinusoidalFit.FlatInput | src/lib/sinusoidalFit.js:25-33 | flat data of four or more points, whatever their span, are inside the model: r2 = 0, equation `y = D`, `predict(x) = [x, D]`, every point at height D |
| SinusoidalFit.VaryingInput | src/lib/sinusoidalFit.js:36-56 | varying data: r2 ≤ 1 and an equation starting `y = ` |
| TrendEngine.NormalizedIsTransformed | src/lib/trendEngine.js:59-60 | subtracting t0 is the transform with no offset and no shift |
| TrendEngine.OffsetIsTransformed | src/lib/trendEngine.js:64-68 | adding the x-offset after normalising composes into one transform |
| TrendEngine.ShiftIsTransformed | src/lib/trendEngine.js:72-79 | adding the y-shift after that composes into one transform |
| TrendEngine.CalcRmse | src/lib/trendEngine.js:146-159 | the loop gives the mean squared error over the finite predictions, 0 without any |
| TrendEngine.CalcR2 | src/lib/trendEngine.js:161-174 | the loop gives `1 − ssRes/ssTot` with the residual over finite predictions, 0 for flat data |
| TrendEngine.FitTrend | src/lib/trendEngine.js:23-121 | `fitTrend` equals its specification: `null` cases, time-series pass-through, transformed fit with composed predictor and recomputed statistics |
| TrendEngine.FitTrendNull | src/lib/trendEngine.js:24-97 | `null` for absent data, fewer than two points or an unknown family; never `null` for sma/ema/holts/sinusoidal on two points or more |
| TrendEngine.FlatSineReady | src/lib/trendEngine.js:83-84 | flat data of any span are inside the sinusoidal fit: `sinusoidalFit` returns its flat line there before any span is divided |
| TrendEngine.DefaultTypeIsLinear | src/lib/trendEngine.js:28 | a missing or empty type fits exactly as `linear` |
| TrendEngine.TimeSeriesPassThrough | src/lib/trendEngine.js:31-56 | sma/ema/holts see the raw data; equation, r2, RMSE, predictor and points are passed on, `t0` is the first timestamp, Holt's uses the default β |
| TrendEngine.TransformRules | src/lib/trendEngine.js:59-79 | `xOffset = 1` exactly for logarithmic/power; a y-shift only for exponential/power and then every y ≥ 1; those families see only positive y |
| TrendEngine.ResidualsPreserved | src/lib/trendEngine.js:103-108 | at each point the composed predictor and the inner fit agree on finiteness and leave the same residual |
| TrendEngine.ErrorsPreserved | src/lib/trendEngine.js:100-108 | the RMSE taken on the transformed data is the RMSE of the composed predictor on the raw data |
| TrendEngine.ErrSumNonNegative | src/lib/trendEngine.js:150-156 | the summed squared error is never negative |
| TrendEngine.ErrSumExact | src/lib/trendEngine.js:150-156 | a predictor hitting every point has zero error and counts every point |
| TrendEngine.MseRules | src/lib/trendEngine.js:146-159 | RMSE 0 without data or finite predictions, never negative, 0 for an exact predictor |
| TrendEngine.R2Rules | src/lib/trendEngine.js:161-174 | r2 is 0 on flat data and at most 1 otherwise |
| TrendEngine.GeneratePredictionPoints | src/lib/trendEngine.js:124-144 | the loop keeps the finite predictions at `start + i·step`, in order, over `numPoints` samples, 200 when none is given |
| TrendEngine.SamplesArePredictions | src/lib/trendEngine.js:136-141 | every kept point is `(x, predict(x))` at one of the sample timestamps |
| TrendEngine.SamplesAllKept | src/lib/trendEngine.js:136-141 | all samples are kept exactly when every prediction is finite, and then in sample order |
| TrendEngine.SamplesIncreasing | src/lib/trendEngine.js:136-141 | with a positive step the kept timestamps strictly increase |
| TrendEngine.LastSample | src/lib/trendEngine.js:134-137 | the last sample timestamp is exactly `last + horizon` |
| TrendEngine.PredictionPoints | src/lib/trendEngine.js:124-144 | at most numPoints points, all finite, increasing when the end is after the start; exactly numPoints from start to `last + horizon` when every prediction is finite |
| TrendEngine.LabelRules | src/lib/trendEngine.js:176-184 | sma, ema and holts get "Simple Moving Avg", "Exponential Moving Avg" and "Holt's Linear"; any other name gets its first character upper-cased and keeps the rest |
| CsvParser.Split | src/lib/csvParser.js:5 | splitting always yields at least one piece |
| CsvParser.JoinSplit | src/lib/csvParser.js:5 | joining the pieces with the separator gives the text back |
| CsvParser.SplitPiecesFree | src/lib/csvParser.js:5 | no piece contains the separator |
| CsvParser.SplitJoin | src/lib/csvParser.js:13 | splitting the join of separator-free pieces gives the pieces back |
| CsvParser.SplitAppend | src/lib/csvParser.js:5 | splitting two texts joined by the separator gives the pieces of the first, then those of the second |
| CsvParser.TrimStart | src/lib/csvParser.js:6 | drops exactly the leading white space |
| CsvParser.TrimEnd | src/lib/csvParser.js:6 | drops exactly the trailing white space |
| CsvParser.TrimShape | src/lib/csvParser.js:6 | the trimmed text is a middle slice with only white space around it and none at its ends |
| CsvParser.TrimIdempotent | src/lib/csvParser.js:6 | trimming twice is trimming once |
| CsvParser.NonEmpty | src/lib/csvParser.js:7 | keeps exactly the non-empty strings, never more than it is given |
| CsvParser.NonEmptyAppend | src/lib/csvParser.js:7 | the filter keeps order: filtering a concatenation is concatenating the filtered parts |
| CsvParser.NonEmptySingle | src/lib/csvParser.js:7 | a single string is kept exactly when it is not empty |
| CsvParser.NonEmptyFirst | src/lib/csvParser.js:7-13 | the first kept string is the first non-empty one: every string before it is empty |
| CsvParser.LinesRules | src/lib/csvParser.js:4-7 | the kept lines are exactly the non-empty trimmed lines of the text, each already trimmed |
| CsvParser.LinesHeader | src/lib/csvParser.js:4-13 | the first kept line, the header, is the first line of the text that is not blank, trimmed |
| CsvParser.LinesAppend | src/lib/csvParser.js:4-7 | the kept lines follow the text's order: two texts joined by a line break give the lines of the first, then those of the second |
| CsvParser.LinesOfLine | src/lib/csvParser.js:4-7 | a single line is kept, trimmed, exactly when it is not blank |
| CsvParser.Classify | src/lib/csvParser.js:22-30 | the loop fills the numeric and string column lists of the first data row |
| CsvParser.ColumnsRules | src/lib/csvParser.js:24-30 | each column c ≥ 1 is in exactly one class, numeric exactly when its first-row cell is a number; both lists increase and together count all columns after the timestamp |
| CsvParser.BuildMetadata | src/lib/csvParser.js:39-42 | the loop fills the metadata object field by field |
| CsvParser.MetadataRules | src/lib/csvParser.js:39-42 | the keys are exactly the string columns' names; with distinct names each maps to its first-row cell |
| CsvParser.ParseRow | src/lib/csvParser.js:49-69 | one pass of the row loop yields the row, or nothing when the line is skipped |
| CsvParser.ValuesRules | src/lib/csvParser.js:60-69 | the values exist exactly when every numeric cell is a number, and are those numbers in column order |
| CsvParser.RowRules | src/lib/csvParser.js:49-70 | a line is kept exactly when it has enough fields, a numeric or date timestamp, and numbers in all numeric columns; the row holds the time and one value per numeric column |
| CsvParser.SomesRules | src/lib/csvParser.js:70 | the kept rows are exactly the present ones, all of them exactly when none is skipped |
| CsvParser.AcceptRows | src/lib/csvParser.js:47-71 | the loop keeps the valid rows of the data lines in file order |
| CsvParser.SortRows | src/lib/csvParser.js:79 | the rows come back sorted by timestamp and as a permutation of the input |
| CsvParser.SortByTime | src/lib/csvParser.js:79 | the in-place sort leaves the array ordered by timestamp and a permutation of what it held |
| CsvParser.ParseCsv | src/lib/csvParser.js:3-86 | fails exactly when the unsorted parse `ParseOf` fails, with the same error; otherwise the same header row and metadata, with its rows sorted by timestamp as a permutation |
| CsvParser.ParseErrors | src/lib/csvParser.js:9-36 | too few lines exactly when fewer than two; too few columns exactly when the header has fewer than two; no numeric column exactly when no first-row cell after the timestamp is a number |
| CsvParser.HeaderRowRules | src/lib/csvParser.js:45 | the header row is the timestamp name then the numeric columns' names in increasing column order |
| CsvParser.MetadataResultRules | src/lib/csvParser.js:39-84 | the metadata is `null` exactly when every column is numeric; otherwise its keys are the other columns' names |
| CsvParser.RowsWidth | src/lib/csvParser.js:60-70 | every accepted row has one value per numeric column |
| CsvParser.ParseShape | src/lib/csvParser.js:73-77 | a successful parse has at least two rows, and each has one value per header column after the timestamp |
| ChartRenderer.BuildUData | src/lib/chartRenderer.js:28-36 | the loops transpose the rows: column c is `row[c]` of every row, in order |
| ChartRenderer.TransposeRoundTrip | src/lib/chartRenderer.js:28-36 | the columns are equally long, and reading a full row back out of them gives the row |
| ChartRenderer.TrendMap | src/lib/chartRenderer.js:285 | every point's timestamp is a key of the map |
| ChartRenderer.TrendMapKeys | src/lib/chartRenderer.js:285 | every key is some point's timestamp |
| ChartRenderer.TrendMapDistinct | src/lib/chartRenderer.js:285 | with increasing timestamps the map gives each point's own value |
| ChartRenderer.TrendMapLast | src/lib/chartRenderer.js:285 | a timestamp maps to the value of the last point that has it |
| ChartRenderer.SegmentFrom | src/lib/chartRenderer.js:292-299 | a segment found by the inner search brackets the timestamp |
| ChartRenderer.InterpolateTrendData | src/lib/chartRenderer.js:284-306 | the gap-filling loop gives each timestamp's trend entry |
| ChartRenderer.FillGap | src/lib/chartRenderer.js:291-301 | the inner loop interpolates on the first bracketing segment, or leaves `null` |
| ChartRenderer.SegmentBetween | src/lib/chartRenderer.js:292-299 | a gap value lies strictly inside a segment and between that segment's two values |
| ChartRenderer.TrendAtRules | src/lib/chartRenderer.js:284-306 | exact match takes the trend value; `undefined` or out-of-range unmatched gets `null`; an interpolated value lies between a bracketing segment's values |
| ChartRenderer.AgreesWithInterp | src/lib/chartRenderer.js:284-306 | on increasing trend timestamps, gap filling equals the linear-scan reference `Interp` everywhere in the trend's range |
| ChartRenderer.AgreesWithInterpolate | src/lib/chartRenderer.js:284-306 | on increasing trend timestamps, gap filling equals the binary-search `interpolate` everywhere in the trend's range |
| ChartRenderer.FutureRules | src/lib/chartRenderer.js:193 | the future points are exactly the points later than the last timestamp |
| ChartRenderer.PadRules | src/lib/chartRenderer.js:203-208 | padding appends the future timestamps to the time column and as many `null`s to the columns before k, leaving the rest |
| ChartRenderer.PadFuture | src/lib/chartRenderer.js:84-89 | the padding loops equal the padding specification |
| ChartRenderer.Extend | src/lib/chartRenderer.js:227-230 | the threshold column keeps its cells and is filled up to length n with its first value |
| ChartRenderer.ExtendThreshold | src/lib/chartRenderer.js:227-230 | the padding loop repeats the threshold's first value up to the new length |
| ChartRenderer.AddTrendColumns | src/lib/chartRenderer.js:192-231 | the column steps of `addTrendSeries` give the add specification's columns |
| ChartRenderer.AppendTrendColumn | src/lib/chartRenderer.js:192-211 | the padding loops and the pushed trend column give `AppendTrend`: future timestamps after the last data time padded with nulls, then the trend interpolated at every timestamp |
| ChartRenderer.Chart.constructor | src/lib/chartRenderer.js:135-139 | the chart holds the given columns and series, which are one series per column and equally long columns |
| ChartRenderer.Chart.AddTrendSeries | src/lib/chartRenderer.js:191-237 | the new columns and series are those of the add specification; returns count + 1; the chart stays valid with one more trend column |
| ChartRenderer.Chart.RemoveTrendSeries | src/lib/chartRenderer.js:240-281 | the new columns and series are those of the remove specification; returns 0; the chart stays valid with no trend column |
| ChartRenderer.DropTrends | src/lib/chartRenderer.js:248-253 | the splicing loop drops exactly the last `count` columns and series |
| ChartRenderer.IsNullRow | src/lib/chartRenderer.js:258-265 | the inner loop reports whether every data cell of the last row is `null` or missing |
| ChartRenderer.TrimTrailing | src/lib/chartRenderer.js:257-270 | the trimming loop equals the trimming specification |
| ChartRenderer.UpdateThreshold | src/lib/chartRenderer.js:161-188 | no chart: returns the old flag; otherwise returns whether the value is finite, with columns and series replaced, removed or appended as specified; the chart stays valid unless its only column was the threshold |
| ChartRenderer.CreateChart | src/lib/chartRenderer.js:40-158 | no chart exactly without a container or data; otherwise a fresh, valid chart with the created columns and series, laid out as header, trend and threshold; trend count 1 exactly when a trend is re-applied, threshold exactly when finite |
| ChartRenderer.ThresholdRules | src/lib/chartRenderer.js:161-188 | the earlier columns are kept; a threshold remains exactly when the value is finite, as a constant column as long as the time column |
| ChartRenderer.AddedRules | src/lib/chartRenderer.js:191-237 | one more trend column; the time column gains exactly the future timestamps; data and earlier trend columns gain as many `null`s; the trend is interpolated at the padded timestamps; the threshold stays last, extended with its first value |
| ChartRenderer.TrimRowsRules | src/lib/chartRenderer.js:257-270 | trimming keeps a prefix of every column; the dropped rows hold no data and the last kept row holds some |
| ChartRenderer.SeriesRules | src/lib/chartRenderer.js:161-281 | after each operation the series still match the columns: earlier series kept, the trend line right after them, the threshold line last |
| ChartRenderer.RemovedRules | src/lib/chartRenderer.js:240-281 | no trend column left; kept columns are prefixes; trimming stops at the last row with data; the threshold is rebuilt constant at the new length |
| ChartRenderer.RemoveAfterAdd | src/lib/chartRenderer.js:191-281 | removing the trend right after adding one to a chart without trends restores the original columns exactly, when the last row holds data and any threshold column is constant |
| ChartRenderer.CreatedRules | src/lib/chartRenderer.js:80-109 | transposed columns; with a re-applied trend the future timestamps, null padding and interpolated trend; a finite threshold as a constant column as long as the time column; one series per column |
| ChartRenderer.ThresholdShape | src/lib/chartRenderer.js:161-188 | updating the threshold keeps one series per column and equally long columns |
| ChartRenderer.AddedShape | src/lib/chartRenderer.js:191-237 | adding a trend keeps one series per column and equally long columns, with one more trend column |
| ChartRenderer.RemovedShape | src/lib/chartRenderer.js:240-281 | removing the trends keeps one series per column and equally long columns, with no trend column |
| ChartRenderer.CreatedShape | src/lib/chartRenderer.js:80-109 | the created chart has one series per column, equally long columns, and the header, trend and threshold layout |

## Left out

- The uPlot chart object is not modelled beyond its series list. Colours, widths and dashes are left out: a series is reduced to its label and role. The timestamp formatter, the `tzDate` shift, the size computation, `ResizeObserver`, `destroy` and `setData`/`setSize` are presentation.
- IEEE floating point is not modelled: numbers are reals. `NaN` and `Infinity` appear only as `None`, where the source tests `isFinite` or a value can be `undefined`. Rounding and overflow are not modelled.
- `Math.sqrt` is not modelled. Every RMSE is carried as its square, the mean squared residual (`mse`). So TsUtils.CalcFitStats, TrendEngine.CalcRmse and the fit results state `rmse²`, not `rmse`.
- `Math.sin`, `Math.PI`, `toFixed(4)`, the template-literal printing of α and β, and `toUpperCase` are parameters. Only the integer window of `SMA(window=w)` is printed in the model.
- `avgSlope` is imported by `sma.js` and `movingAverage.js` but defined in no file of this model. It is a parameter, and no claim is made about the slope it returns.
- The `regression` library is a parameter that may fail (`None`) for each family; its `points` are passed on unchanged. The fit-quality claims that depend on real trigonometry, such as a high r² for a pure sine, are not stated.
- `Math.round(windowSize)` is not modelled. Sma.SmaFit takes the window size as an already-rounded integer, and a `NaN` window size is not modelled.
- TrendEngine.OrderOf: `config.order || 2` is modelled for an absent or zero order; a `NaN` order is not modelled.
- The `try`/`catch` blocks of `fitTrend` appear only as a `None` from the regression parameter. The forecasters and the sinusoidal fitter cannot throw in the model.
- SinusoidalFit.SinusoidalFit requires, for non-flat data of four or more points, that the first and last timestamps differ: on such data every frequency rule of the source divides by the zero span and continues with non-finite numbers, which the model does not represent. Flat data are modelled whatever their span, since the source returns the flat line before estimating a frequency. TrendEngine.FitTrend carries the same requirement for the sinusoidal family.
- TrendEngine.GeneratePredictionPoints requires `numPoints != 1`. The source divides by zero there and samples at a non-finite timestamp.
- `Number(s)` and `new Date(s).getTime()` are parameters of the CSV parser. The JavaScript coercion rules are not modelled, including that `Number('')` is 0.
- A CSV metadata key such as `__proto__`, which a plain JavaScript object treats specially, is modelled as an ordinary map key.
- A trend label looked up through an inherited object property (for example `constructor`) is not modelled. Only the three own keys of the label table count.
- CsvParser.ParseCsv states that the rows come back sorted by timestamp and as a permutation. It does not state the stable order of rows with equal timestamps, which a stable library sort keeps.
- ChartRenderer.InterpolateTrendData requires a trend point whenever there is a timestamp. Without one the source reads `points[0]` of an empty array and throws. Chart.AddTrendSeries and CreateChart carry the same requirement.
- ChartRenderer.CreateChart requires a non-empty header row when a chart is created. The empty header, which leaves uPlot with no time column, is not modelled.
- ChartRenderer.UpdateThreshold, Chart.AddTrendSeries and Chart.RemoveTrendSeries assume the layout their callers keep: one series per column, the threshold column last, and a column count matching the header, trend count and threshold flag. ChartRenderer.UpdateThreshold promises a valid chart afterwards only when the threshold is not the only column, which `createChart` never produces.
