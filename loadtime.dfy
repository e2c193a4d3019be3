/**
  The load-time measurement driver: the stability test on the running sample,
  the Tukey fences and outliers of the sorted sample, the report that feeds the
  box plot, and the sampling loop (warm-up, then measure until the median is
  stable or the iteration ceiling is reached).

  The browser probe is a function from the number of earlier probe calls to
  the load time the next call reports, so `probe(k)` is the answer of call
  k + 1; the warm-up consumes answers 0 .. WARMUP_ITERATIONS - 1.
*/
module LoadTime {
  import opened Statistics
  import BoxPlot

  const WARMUP_ITERATIONS: nat := 5
  const MIN_ITERATIONS: nat := 25
  const MAX_ITERATIONS: nat := 50
  const PLOT_WIDTH: int := 50

  /** Relative interquartile range below which the median counts as stable. */
  const STABILITY_THRESHOLD: real := 0.01

  // ---------------------------------------------------------------------------
  // Stability test on the (unsorted) running sample

  /** The median of samples in any order. */
  function MedianOf(samples: seq<real>): real
    requires |samples| > 0
  {
    SortCorrect(samples);
    Median(Sort(samples))
  }

  /** q3 - q1 of samples in any order; never negative. */
  function InterquartileRange(samples: seq<real>): (iqr: real)
    requires |samples| > 0
    ensures iqr >= 0.0
  {
    SortCorrect(samples);
    FiveNumberOrder(Sort(samples));
    UpperQuartile(Sort(samples)) - LowerQuartile(Sort(samples))
  }

  /** The median is stable when the interquartile range is at most 1% of it,
      the source's `iqr / median <= 0.01` written without the division
      (QuotientForm shows the two agree): a negative median gives a
      non-positive quotient and passes; a zero median gives NaN or Infinity
      and fails. */
  function IsMedianStable(loadTimes: seq<real>): (stable: bool)
    requires |loadTimes| > 0
    ensures stable ==> MedianOf(loadTimes) != 0.0
  {
    var iqr := InterquartileRange(loadTimes);
    var median := MedianOf(loadTimes);
    median < 0.0 || (median > 0.0 && iqr <= STABILITY_THRESHOLD * median)
  }

  lemma DivAtMost(a: real, m: real, t: real)
    requires m > 0.0
    ensures a / m <= t <==> a <= t * m
  {
    assert a == (a / m) * m;
    if a / m <= t {
      assert (a / m) * m <= t * m;
    } else {
      assert (a / m) * m > t * m;
    }
  }

  lemma NegativeQuotient(a: real, m: real)
    requires a >= 0.0 && m < 0.0
    ensures a / m <= 0.0
  {
    assert a == (a / m) * m;
  }

  /** The stability test is the source's quotient test: for a non-zero median,
      stable exactly when iqr / median <= 0.01. */
  lemma {:induction false} QuotientForm(loadTimes: seq<real>)
    requires |loadTimes| > 0
    ensures IsMedianStable(loadTimes) <==>
              var median := MedianOf(loadTimes);
              median != 0.0 && InterquartileRange(loadTimes) / median <= STABILITY_THRESHOLD
  {
    var iqr, median := InterquartileRange(loadTimes), MedianOf(loadTimes);
    if median > 0.0 {
      DivAtMost(iqr, median, STABILITY_THRESHOLD);
    } else if median < 0.0 {
      NegativeQuotient(iqr, median);
    }
  }

  /** The test depends only on the sample values, not on their order, so the
      running (unsorted) test and the sorted report agree on median and IQR. */
  lemma StabilityOrderIndependent(s: seq<real>, t: seq<real>)
    requires |s| > 0 && multiset(s) == multiset(t)
    ensures |t| > 0
    ensures MedianOf(s) == MedianOf(t) && InterquartileRange(s) == InterquartileRange(t)
    ensures IsMedianStable(s) == IsMedianStable(t)
  {
    assert |t| == |multiset(t)| == |multiset(s)| == |s|;
    SortPermutationInvariant(s, t);
    SortCorrect(s);
  }

  lemma SortOfConstant(s: seq<real>, c: real)
    requires forall k :: 0 <= k < |s| ==> s[k] == c
    ensures forall k :: 0 <= k < |Sort(s)| ==> Sort(s)[k] == c
  {
    SortCorrect(s);
    forall k | 0 <= k < |Sort(s)|
      ensures Sort(s)[k] == c
    {
      assert Sort(s)[k] in multiset(s);
    }
  }

  /** Equal samples are stable exactly when their value is not zero. */
  lemma ConstantSamplesStability(s: seq<real>, c: real)
    requires |s| > 0 && forall k :: 0 <= k < |s| ==> s[k] == c
    ensures MedianOf(s) == c && InterquartileRange(s) == 0.0
    ensures IsMedianStable(s) <==> c != 0.0
  {
    SortOfConstant(s, c);
    QuantileOfConstant(Sort(s), c, 1, 4);
    QuantileOfConstant(Sort(s), c, 2, 4);
    QuantileOfConstant(Sort(s), c, 3, 4);
  }

  // ---------------------------------------------------------------------------
  // Fences, outliers, min and max of the sorted sample

  datatype Fences = Fences(innerLower: real, innerUpper: real, outerLower: real, outerUpper: real)

  /** Tukey fences: 1.5 and 3 interquartile ranges beyond the quartiles. With
      q1 <= q3 they nest around the box. */
  function FencesOf(q1: real, q3: real): (f: Fences)
    ensures q1 <= q3 ==> f.outerLower <= f.innerLower <= q1 && q3 <= f.innerUpper <= f.outerUpper
    ensures f.innerUpper - f.innerLower == 4.0 * (q3 - q1)
    ensures f.outerUpper - f.outerLower == 7.0 * (q3 - q1)
  {
    var iqr := q3 - q1;
    Fences(q1 - 1.5 * iqr, q3 + 1.5 * iqr, q1 - 3.0 * iqr, q3 + 3.0 * iqr)
  }

  /** The samples strictly outside [lo, hi], in their original order. */
  function Outliers(s: seq<real>, lo: real, hi: real): (r: seq<real>)
    ensures |r| <= |s|
    ensures forall x :: x in r <==> x in s && (x < lo || x > hi)
    ensures Sorted(s) ==> Sorted(r)
  {
    if s == [] then []
    else
      var rest := Outliers(s[1..], lo, hi);
      assert s == [s[0]] + s[1..];
      if s[0] < lo || s[0] > hi then
        SortedHeadLeast(s);
        assert Sorted(s) ==> Sorted(s[1..]) && Sorted(rest);
        assert forall k :: 0 <= k < |rest| ==> rest[k] in rest && rest[k] in s;
        [s[0]] + rest
      else
        rest
  }

  /** Each value outside [lo, hi] is kept as often as it occurs; no other value is. */
  lemma {:induction false} OutliersCount(s: seq<real>, lo: real, hi: real, x: real)
    ensures multiset(Outliers(s, lo, hi))[x] == if x < lo || x > hi then multiset(s)[x] else 0
  {
    if s != [] {
      OutliersCount(s[1..], lo, hi, x);
      assert s == [s[0]] + s[1..];
      assert multiset(s) == multiset{s[0]} + multiset(s[1..]);
      var rest := Outliers(s[1..], lo, hi);
      if s[0] < lo || s[0] > hi {
        assert multiset([s[0]] + rest) == multiset{s[0]} + multiset(rest);
      }
    }
  }

  /** The least sample: the first of the sorted sequence. */
  function MinSorted(s: seq<real>): (m: real)
    requires Sorted(s) && |s| > 0
    ensures m in s && forall k :: 0 <= k < |s| ==> m <= s[k]
  {
    s[0]
  }

  /** The greatest sample: the last of the sorted sequence. */
  function MaxSorted(s: seq<real>): (m: real)
    requires Sorted(s) && |s| > 0
    ensures m in s && forall k :: 0 <= k < |s| ==> s[k] <= m
  {
    s[|s| - 1]
  }

  datatype LoadTimeStats = LoadTimeStats(
    samples: nat,
    median: real,
    q1: real,
    q3: real,
    iqr: real,
    fences: Fences,
    outliers: seq<real>,
    min: real,
    max: real)

  /** The statistics of a sorted, non-empty sample. */
  function Summarize(sorted: seq<real>): (r: LoadTimeStats)
    requires Sorted(sorted) && |sorted| > 0
    ensures r.samples == |sorted|
    ensures r.iqr == r.q3 - r.q1 >= 0.0
    ensures r.min <= r.q1 <= r.median <= r.q3 <= r.max
    ensures forall k :: 0 <= k < |sorted| ==> r.min <= sorted[k] <= r.max
    ensures r.fences.outerLower <= r.fences.innerLower <= r.q1
    ensures r.q3 <= r.fences.innerUpper <= r.fences.outerUpper
    ensures forall x :: x in r.outliers <==> x in sorted && (x < r.fences.innerLower || x > r.fences.innerUpper)
    ensures Sorted(r.outliers)
    ensures BoxPlot.WellFormed(PlotData(r))
  {
    FiveNumberOrder(sorted);
    var median := Median(sorted);
    var q1 := LowerQuartile(sorted);
    var q3 := UpperQuartile(sorted);
    var fences := FencesOf(q1, q3);
    var outliers := Outliers(sorted, fences.innerLower, fences.innerUpper);
    var min, max := MinSorted(sorted), MaxSorted(sorted);
    assert forall k :: 0 <= k < |outliers| ==> outliers[k] in outliers && outliers[k] in sorted;
    LoadTimeStats(|sorted|, median, q1, q3, q3 - q1, fences, outliers, min, max)
  }

  /** What the report hands to the box-plot renderer. */
  function PlotData(st: LoadTimeStats): BoxPlot.BoxPlotData {
    BoxPlot.BoxPlotData(st.median, st.q1, st.q3,
                        st.fences.innerLower, st.fences.innerUpper,
                        st.fences.outerLower, st.fences.outerUpper,
                        st.min, st.max, st.outliers, PLOT_WIDTH)
  }

  datatype Report = Report(stats: LoadTimeStats, plot: seq<string>)

  /** The statistics of the sorted sample and its box plot, 50 columns wide. */
  method ReportLoadTimeStats(sortedLoadTimes: seq<real>) returns (report: Report)
    requires Sorted(sortedLoadTimes) && |sortedLoadTimes| > 0
    ensures report.stats == Summarize(sortedLoadTimes)
    ensures |report.plot| == 3
    ensures forall k :: 0 <= k < 3 ==> |report.plot[k]| == PLOT_WIDTH
    ensures var d := PlotData(report.stats);
      d.min < d.max ==> forall i :: 0 <= i < PLOT_WIDTH ==>
        && report.plot[0][i] == BoxPlot.UpperGlyph(BoxPlot.ColumnsOf(d), i)
        && report.plot[1][i] == BoxPlot.MiddleGlyph(d, d.outliers, i)
        && report.plot[2][i] == BoxPlot.LowerGlyph(BoxPlot.ColumnsOf(d), i)
    ensures report.stats.min == report.stats.max ==>
      forall k, i :: 0 <= k < 3 && 0 <= i < PLOT_WIDTH ==> report.plot[k][i] == ' '
  {
    var st := Summarize(sortedLoadTimes);
    var plot := BoxPlot.DrawBoxPlot(PlotData(st));
    report := Report(st, plot);
  }

  /** Seven samples with one clear high outlier, already sorted:
      q1 = 11.5, median = 12 and q3 = 13.5, so the inner fences are 8.5 and
      16.5 and the outer ones 5.5 and 19.5. */
  lemma SevenSampleQuartiles()
    ensures var s := [10.0, 11.0, 12.0, 12.0, 13.0, 14.0, 100.0];
      Sorted(s) && LowerQuartile(s) == 11.5 && Median(s) == 12.0 && UpperQuartile(s) == 13.5
  {
  }

  lemma SevenSampleOutliers()
    ensures Outliers([10.0, 11.0, 12.0, 12.0, 13.0, 14.0, 100.0], 8.5, 16.5) == [100.0]
  {
  }

  /** The last four samples in arrival order, sorted. */
  lemma SevenSampleSortTail()
    ensures Sort([13.0, 12.0, 14.0, 100.0]) == [12.0, 13.0, 14.0, 100.0]
  {
    assert Sort([14.0, 100.0]) == [14.0, 100.0];
    assert Sort([12.0, 14.0, 100.0]) == [12.0, 14.0, 100.0];
  }

  /** The same seven samples in arrival order sort to the sequence above. */
  lemma SevenSampleSort()
    ensures Sort([10.0, 12.0, 11.0, 13.0, 12.0, 14.0, 100.0]) == [10.0, 11.0, 12.0, 12.0, 13.0, 14.0, 100.0]
  {
    SevenSampleSortTail();
    assert Sort([11.0, 13.0, 12.0, 14.0, 100.0]) == [11.0, 12.0, 13.0, 14.0, 100.0];
    assert Sort([12.0, 11.0, 13.0, 12.0, 14.0, 100.0]) == [11.0, 12.0, 12.0, 13.0, 14.0, 100.0];
  }

  /** Seven samples in arrival order, summarised after sorting: 100 is the
      only outlier, beyond even the outer fence. */
  lemma HighOutlierExample(arrived: seq<real>)
    requires arrived == [10.0, 12.0, 11.0, 13.0, 12.0, 14.0, 100.0]
    ensures var sorted := Sort(arrived);
      && sorted == [10.0, 11.0, 12.0, 12.0, 13.0, 14.0, 100.0]
      && var st := Summarize(sorted);
      && st.median == 12.0
      && st.outliers == [100.0]
      && BoxPlot.IsFarOut(PlotData(st), 100.0)
  {
    SevenSampleSort();
    SevenSampleQuartiles();
    SevenSampleOutliers();
  }

  // ---------------------------------------------------------------------------
  // The sampling controller

  /** The first n measured load times: the probe answers after the warm-up. */
  function Collected(probe: nat -> real, n: nat): (s: seq<real>)
    ensures |s| == n
    ensures forall k :: 0 <= k < n ==> s[k] == probe(WARMUP_ITERATIONS + k)
  {
    if n == 0 then [] else Collected(probe, n - 1) + [probe(WARMUP_ITERATIONS + n - 1)]
  }

  /** No stability test at the iterations MIN_ITERATIONS .. n - 1 succeeded. */
  predicate UnstableBefore(probe: nat -> real, n: nat)
    decreases n
  {
    n <= MIN_ITERATIONS || (UnstableBefore(probe, n - 1) && !IsMedianStable(Collected(probe, n - 1)))
  }

  lemma UnstableBeforeStep(probe: nat -> real, n: nat)
    requires n > MIN_ITERATIONS && UnstableBefore(probe, n)
    ensures UnstableBefore(probe, n - 1) && !IsMedianStable(Collected(probe, n - 1))
  {
  }

  lemma {:induction false} UnstableBeforeAt(probe: nat -> real, n: nat, m: nat)
    requires UnstableBefore(probe, n) && MIN_ITERATIONS <= m < n
    ensures !IsMedianStable(Collected(probe, m))
  {
    UnstableBeforeStep(probe, n);
    if m < n - 1 {
      UnstableBeforeAt(probe, n - 1, m);
    }
  }

  lemma UnstableBeforeAll(probe: nat -> real, n: nat)
    requires UnstableBefore(probe, n)
    ensures forall m :: MIN_ITERATIONS <= m < n ==> !IsMedianStable(Collected(probe, m))
  {
    forall m | MIN_ITERATIONS <= m < n
      ensures !IsMedianStable(Collected(probe, m))
    {
      UnstableBeforeAt(probe, n, m);
    }
  }

  datatype Measurement = Measurement(iterations: nat, isStable: bool, loadTimes: seq<real>, report: Report)

  /** The warm-up and the sampling loop: warms up, then measures until the
      median is stable (tested from MIN_ITERATIONS on) or MAX_ITERATIONS
      samples were taken. `probeCalls` counts the probe calls and
      `stabilityTests` the stability tests, one per iteration from
      MIN_ITERATIONS on. */
  method CollectLoadTimes(probe: nat -> real)
    returns (loadTimes: seq<real>, iterations: nat, isStable: bool,
             ghost probeCalls: nat, ghost stabilityTests: nat)
    ensures probeCalls == WARMUP_ITERATIONS + iterations
    ensures stabilityTests == iterations - MIN_ITERATIONS + 1
    ensures MIN_ITERATIONS <= iterations <= MAX_ITERATIONS
    ensures loadTimes == Collected(probe, iterations)
    ensures forall n :: MIN_ITERATIONS <= n < iterations ==> !IsMedianStable(Collected(probe, n))
    ensures isStable == IsMedianStable(Collected(probe, iterations))
    ensures !isStable ==> iterations == MAX_ITERATIONS
  {
    var calls: nat := 0;
    for i := 0 to WARMUP_ITERATIONS
      invariant calls == i
    {
      var discarded := probe(calls);
      calls := calls + 1;
    }

    loadTimes := [];
    isStable := true;
    iterations := 0;
    stabilityTests := 0;
    while true
      invariant iterations < MAX_ITERATIONS
      invariant calls == WARMUP_ITERATIONS + iterations
      invariant loadTimes == Collected(probe, iterations)
      invariant isStable
      invariant stabilityTests == if iterations < MIN_ITERATIONS then 0 else iterations - MIN_ITERATIONS + 1
      invariant UnstableBefore(probe, iterations + 1)
      decreases MAX_ITERATIONS - iterations
    {
      iterations := iterations + 1;
      var loadTime := probe(calls);
      calls := calls + 1;
      loadTimes := loadTimes + [loadTime];
      assert loadTimes == Collected(probe, iterations);
      if iterations >= MIN_ITERATIONS {
        stabilityTests := stabilityTests + 1;
        if IsMedianStable(loadTimes) {
          break;
        }
        assert !IsMedianStable(Collected(probe, iterations));
        if iterations >= MAX_ITERATIONS {
          isStable := false;
          break;
        }
      }
    }
    probeCalls := calls;
    UnstableBeforeAll(probe, iterations);
  }

  /** Collects the load times, sorts them ascending and reports them. */
  method MeasureAverageLoadTime(probe: nat -> real) returns (m: Measurement)
    ensures MIN_ITERATIONS <= m.iterations <= MAX_ITERATIONS
    ensures forall n :: MIN_ITERATIONS <= n < m.iterations ==> !IsMedianStable(Collected(probe, n))
    ensures m.isStable == IsMedianStable(Collected(probe, m.iterations))
    ensures !m.isStable ==> m.iterations == MAX_ITERATIONS
    ensures Sorted(m.loadTimes) && multiset(m.loadTimes) == multiset(Collected(probe, m.iterations))
    ensures m.report.stats == Summarize(m.loadTimes)
    ensures |m.report.plot| == 3
    ensures forall k :: 0 <= k < 3 ==> |m.report.plot[k]| == PLOT_WIDTH
    ensures var d := PlotData(m.report.stats);
      d.min < d.max ==> forall i :: 0 <= i < PLOT_WIDTH ==>
        && m.report.plot[0][i] == BoxPlot.UpperGlyph(BoxPlot.ColumnsOf(d), i)
        && m.report.plot[1][i] == BoxPlot.MiddleGlyph(d, d.outliers, i)
        && m.report.plot[2][i] == BoxPlot.LowerGlyph(BoxPlot.ColumnsOf(d), i)
    ensures m.report.stats.min == m.report.stats.max ==>
      forall k, i :: 0 <= k < 3 && 0 <= i < PLOT_WIDTH ==> m.report.plot[k][i] == ' '
  {
    var loadTimes, iterations, isStable, probeCalls, stabilityTests := CollectLoadTimes(probe);
    SortCorrect(loadTimes);
    var sorted := Sort(loadTimes);
    var report := ReportLoadTimeStats(sorted);
    m := Measurement(iterations, isStable, sorted, report);
  }

  /** A probe that always answers c: a non-zero c is stable as soon as it is
      first tested, a zero c never is. */
  method ConstantProbeRun(c: real) returns (iterations: nat, isStable: bool)
    ensures c != 0.0 ==> iterations == MIN_ITERATIONS && isStable
    ensures c == 0.0 ==> iterations == MAX_ITERATIONS && !isStable
  {
    var probe := (k: nat) => c;
    var loadTimes;
    ghost var probeCalls, stabilityTests;
    loadTimes, iterations, isStable, probeCalls, stabilityTests := CollectLoadTimes(probe);
    ConstantSamplesStability(Collected(probe, iterations), c);
    if c != 0.0 && iterations > MIN_ITERATIONS {
      ConstantSamplesStability(Collected(probe, MIN_ITERATIONS), c);
      assert false;
    }
  }
}
