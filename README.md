# web-perf-test: load-time sampling and the text box plot, in Dafny

web-perf-test measures how long a web page takes to load. It loads the page
in a headless browser a few times to warm the server up. It then keeps
loading it, one sample per iteration, until the median load time is stable
or an iteration ceiling is reached. Finally it sorts the samples, computes
the quartiles, the Tukey fences and the outliers, and draws a three-line
text box plot, 50 columns wide.

This project models that core and proves properties of the model.

- `statistics.dfy` (module `Statistics`): the order statistics the report
  relies on.
  - The sort at `ts/src/index.ts:140` is JavaScript's built-in
    `Array.prototype.sort` with a numeric comparator. It is modelled as an
    insertion sort, proved to return an ascending permutation. That result
    is unique, so any correct numeric sort gives the same sequence.
  - The quartiles come from an external statistics library, whose code is
    not part of this model. The module supplies the linear-interpolation
    quantile with fractional index p × (n − 1). Its general lemmas (a
    quantile lies within [min, max] and is monotone in p) hold for any
    reasonable quantile rule. The numeric fixtures (`QuartilesOfOneToTen`,
    `SevenSampleQuartiles`, `HighOutlierExample`) are about this rule only;
    they do not claim the library's results, which may differ under another
    interpolation rule.
- `boxplot.dfy` (module `BoxPlot`): `drawBoxPlot` from `ts/src/boxplot.ts`.
  - The model keeps the three character buffers as arrays and paints them in
    the source's order.
  - Each finished cell has a specification: the last paint operation that
    covers column i decides it.
  - The `console.log` output becomes the three returned lines.
- `loadtime.dfy` (module `LoadTime`): the parts of `ts/src/index.ts` in the
  core:
  - the stability test `isMedianStable`;
  - the fence, outlier, min and max computation of `reportLoadTimeStats`;
  - the warm-up and sampling loop of `measureAverageLoadTime`, followed by
    the final sort and the report.

  The browser probe is a parameter `probe: nat -> real`: `probe(k)` is the
  load time reported by the (k+1)-th probe call. The warm-up uses answers
  0 to 4, and the measured samples are answers 5, 6, and so on.

Numbers are `real`. `Math.round(r)` is `Floor(r + 1/2)`.

The source divides by zero when max == min, at `ts/src/boxplot.ts:30`. One
could read the renderer as meant to fall back to column 0 there. The code
does something else, and the model follows the code:
- every projected column is NaN;
- JavaScript ignores writes at index NaN, and `fill` with NaN bounds fills
  nothing;
- so all three lines stay blank.

The stability test is also modelled as JavaScript evaluates it. A zero
median makes `iqr / median` NaN or Infinity, so the test fails. A negative
median makes the quotient non-positive, so the test passes.

## Model

| member | source | states |
|---|---|---|
| Statistics.SortCorrect | ts/src/index.ts:140 | the sort returns an ascending permutation of the samples |
| Statistics.SortedUnique | ts/src/index.ts:140 | two ascending sequences with the same values are equal, so any correct numeric sort gives the same result as the model's |
| Statistics.SortPermutationInvariant | ts/src/index.ts:140 | the sorted result depends only on the multiset of samples, not on their arrival order |
| Statistics.SortOfSorted | ts/src/index.ts:140 | sorting an ascending sequence leaves it unchanged |
| Statistics.SortsTo | ts/src/index.ts:140 | sorting u gives s exactly when s is ascending and holds the same values as u |
| Statistics.Quantile | ts/src/index.ts:73-75 | the k/q-quantile of a sorted non-empty sample lies between its first and last element |
| Statistics.QuantileMonotone | ts/src/index.ts:73-75 | a larger p = k/q never gives a smaller quantile |
| Statistics.QuantileOfConstant | ts/src/index.ts:73-75 | every quantile of a sample of equal values is that value |
| Statistics.FiveNumberOrder | ts/src/index.ts:73-75 | min <= q1 <= median <= q3 <= max for every sorted non-empty sample |
| Statistics.QuartilesOfOneToTen | ts/src/index.ts:73-75 | the quartiles of 1..10 are 3.25, 5.5 and 7.75 |
| BoxPlot.Round | ts/src/boxplot.ts:31 | `Math.round` gives the integer n with n - 1/2 <= r < n + 1/2 (halves round up) |
| BoxPlot.RoundMonotone | ts/src/boxplot.ts:31 | rounding preserves order |
| BoxPlot.Project | ts/src/boxplot.ts:30-31 | for max > min and width >= 1, a value in [min, max] lands on a column in [0, width), min on column 0 and max on column width - 1 |
| BoxPlot.ProjectMonotone | ts/src/boxplot.ts:30-31 | x <= y implies project(x) <= project(y) |
| BoxPlot.LowerWhisker | ts/src/boxplot.ts:32 | the lower whisker is at least min and at least the inner lower fence, and it is one of the two |
| BoxPlot.UpperWhisker | ts/src/boxplot.ts:33 | the upper whisker is at most max and at most the inner upper fence, and it is one of the two |
| BoxPlot.ColumnsOf | ts/src/boxplot.ts:34-38 | on well-formed data, 0 <= p1 <= p2 <= p3 <= p4 <= p5 < width |
| BoxPlot.LastOutlierAt | ts/src/boxplot.ts:69-71 | finds the last outlier in list order that projects onto a column, or none exactly when no outlier does |
| BoxPlot.LastOutlierWins | ts/src/boxplot.ts:69-71 | painting one more outlier sets its own column to its glyph and leaves every other column as it was |
| BoxPlot.BoxEdgeShape | ts/src/boxplot.ts:44-49 | the upper and lower lines are non-blank exactly on [p2, p4]; rules '─' are exactly the open ranges (p2, p3) and (p3, p4); the corner and tee glyphs sit at p2, p3 and p4 |
| BoxPlot.WhiskerShape | ts/src/boxplot.ts:51-58 | before the outliers, the middle line is non-blank exactly on [p1, p2], at p3 and on [p4, p5]; the median bar stays at p3 whenever p3 < p4, including p2 == p3, because the median is written after the lower whisker end |
| BoxPlot.Fill | ts/src/boxplot.ts:46 | `fill(g, start, end)` sets exactly the cells of [start, end) to g and leaves the rest unchanged |
| BoxPlot.PaintUpper | ts/src/boxplot.ts:44-49 | painting the upper line over blanks leaves every cell i equal to the upper-line glyph for i |
| BoxPlot.PaintWhiskers | ts/src/boxplot.ts:51-58 | painting the middle line over blanks leaves every cell equal to the whisker/box/median glyph for i |
| BoxPlot.PaintLower | ts/src/boxplot.ts:60-65 | painting the lower line over blanks leaves every cell equal to the lower-line glyph for i |
| BoxPlot.PaintOutliers | ts/src/boxplot.ts:67-71 | after the outlier loop, each column holds '✳' (far out) or '○' for the last outlier projecting onto it, and otherwise the whisker glyph |
| BoxPlot.DrawBoxPlot | ts/src/boxplot.ts:15-76 | no lines when width <= 0; otherwise exactly three lines of width cells; all blank when max == min; otherwise the upper, middle (outliers overlaid, last wins) and lower glyphs, with outliers only on the middle line |
| LoadTime.InterquartileRange | ts/src/index.ts:67 | the interquartile range is never negative |
| LoadTime.IsMedianStable | ts/src/index.ts:63-70 | a stable sample has a non-zero median |
| LoadTime.QuotientForm | ts/src/index.ts:63-70 | the test holds exactly when median != 0 and iqr / median <= 0.01 |
| LoadTime.StabilityOrderIndependent | ts/src/index.ts:63-70 | median, IQR and the stability verdict depend only on the sample values, not on their order |
| LoadTime.ConstantSamplesStability | ts/src/index.ts:63-70 | equal samples c have median c and IQR 0, and they are stable exactly when c != 0 |
| LoadTime.FencesOf | ts/src/index.ts:76-81 | for q1 <= q3, outerLowerFence <= innerLowerFence <= q1 and q3 <= innerUpperFence <= outerUpperFence; the inner fences are 4 IQR apart and the outer fences 7 IQR apart |
| LoadTime.Outliers | ts/src/index.ts:82-83 | a value is an outlier exactly when it is a sample strictly outside [lo, hi]; outliers of a sorted sample are sorted |
| LoadTime.OutliersCount | ts/src/index.ts:82-83 | each value outside [lo, hi] is kept as often as it occurs, and no other value is kept |
| LoadTime.MinSorted | ts/src/index.ts:84 | min is a sample, and no sample is smaller |
| LoadTime.MaxSorted | ts/src/index.ts:85 | max is a sample, and no sample is larger |
| LoadTime.Summarize | ts/src/index.ts:72-85 | iqr = q3 - q1 >= 0; min <= q1 <= median <= q3 <= max; every sample lies in [min, max]; the fences are ordered around the box; the outliers are exactly the samples outside the inner fences, ascending; the result is valid input for the renderer |
| LoadTime.SevenSampleQuartiles | ts/src/index.ts:73-75 | the sample 10, 11, 12, 12, 13, 14, 100 has q1 = 11.5, median = 12 and q3 = 13.5 |
| LoadTime.SevenSampleOutliers | ts/src/index.ts:82-83 | of that sample, only 100 lies outside the inner fences [8.5, 16.5] |
| LoadTime.SevenSampleSort | ts/src/index.ts:140 | the samples 10, 12, 11, 13, 12, 14, 100 in arrival order sort to 10, 11, 12, 12, 13, 14, 100 |
| LoadTime.HighOutlierExample | ts/src/index.ts:72-85 | the samples in arrival order, once sorted, are summarised with median 12 and 100 as the only outlier, and 100 is far out |
| LoadTime.ReportLoadTimeStats | ts/src/index.ts:72-101 | the report holds the summary of the sorted sample and its three-line, 50-column box plot, cell by cell |
| LoadTime.Collected | ts/src/index.ts:118-127 | the first n samples are the probe answers after the warm-up, in order |
| LoadTime.CollectLoadTimes | ts/src/index.ts:111-135 | the probe is called WARMUP_ITERATIONS + iterations times; 25 <= iterations <= 50; the samples are exactly the first `iterations` answers after the warm-up; stability is tested once per iteration from 25 on; every earlier test failed; isStable is that iteration's verdict; an unstable end happens only at 50 |
| LoadTime.MeasureAverageLoadTime | ts/src/index.ts:111-141 | the stopping facts above hold; the reported samples are an ascending permutation of the collected ones; the report summarises them; its three plot lines are 50 columns wide and hold, cell by cell, the upper, middle (outliers overlaid) and lower glyphs, or only blanks when max == min |
| LoadTime.ConstantProbeRun | ts/src/index.ts:111-135 | a probe that always answers c != 0 stops stable at 25 iterations; one that always answers 0 runs to 50 and ends unstable |

## Left out

- Argument parsing and the package metadata (`ts/src/index.ts:1-23`) are CLI plumbing.
- The browser launch, the page load and the load-event wait are not modelled. The probe is a total function, so probe failures and the `try/catch` in `main` are left out too.
- Each probe answer stands for `loadEventEnd - requestStart` as an opaque number.
- Console output is not modelled. That covers the progress lines, the separator, the "not stable" warning and the six summary lines with their `toFixed(2)` formatting. The model returns the numbers (`Report.stats`, `Measurement.isStable`) instead of text. Only the three box-plot lines are returned as strings.
- Statistics.Quantile: its index rule is the common linear interpolation. The external library's exact tie handling and interpolation are not claimed. The quantile takes p as a fraction k/q. The program only uses 0.25, 0.5 and 0.75, which are 1/4, 2/4 and 3/4.
- Statistics.QuantileMonotone: monotonicity is stated for fractions with a common denominator q (k/q <= j/q). It does not cover arbitrary real p.
- Statistics.Sort: the in-place `loadTimes.sort` is modelled on values, as a function returning a new sequence. Array identity and aliasing are not modelled.
- IEEE floating point: numbers are mathematical reals. NaN and Infinity appear only as the two cases described above: the stability test with a zero median, and the renderer with max == min.
- BoxPlot.DrawBoxPlot: it requires well-formed data. That means the five numbers are in order, the inner fences lie outside the box, and the outliers lie within [min, max]. This is stronger than the code needs: the source writes inside its buffers whenever every projected value lies within [min, max], even when the five numbers are out of order. Input of that kind is not modelled. Its only caller, `ReportLoadTimeStats`, always supplies well-formed data (`LoadTime.Summarize` proves it).

