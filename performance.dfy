/**
 * The performance monitor's Core Web Vitals scoring: each metric is rated
 * against its two thresholds, the number of good ratings gives the overall
 * score and a letter grade, and the performance counts as good from three
 * good metrics up. The layout-shift observer's running sum is modelled too.
 *
 * Metrics are exact reals; the browser's doubles are not modelled.
 */
module Performance {

  /** The metrics the hook keeps, in milliseconds except the layout shift score. */
  datatype Metrics = Metrics(
    loadTime: real,
    firstContentfulPaint: real,
    largestContentfulPaint: real,
    firstInputDelay: real,
    cumulativeLayoutShift: real,
    memoryUsage: real)

  /** The hook's starting metrics: all zero. */
  const InitialMetrics := Metrics(0.0, 0.0, 0.0, 0.0, 0.0, 0.0)

  datatype Rating = Good | NeedsImprovement | Poor

  /** A metric at or under `good` is good, at or under `poor` needs improvement, above it is poor. */
  function Rate(value: real, good: real, poor: real): (r: Rating)
    ensures r == Good <==> value <= good
    ensures r == Poor <==> value > good && value > poor
  {
    if value <= good then Good else if value <= poor then NeedsImprovement else Poor
  }

  /** The four ratings of `scores`. */
  datatype Scores = Scores(fcp: Rating, lcp: Rating, fid: Rating, cls: Rating)

  /** First contentful paint 1800/3000 ms, largest 2500/4000 ms, input delay 100/300 ms, layout shift 0.1/0.25. */
  function RateMetrics(m: Metrics): Scores
  {
    Scores(
      Rate(m.firstContentfulPaint, 1800.0, 3000.0),
      Rate(m.largestContentfulPaint, 2500.0, 4000.0),
      Rate(m.firstInputDelay, 100.0, 300.0),
      Rate(m.cumulativeLayoutShift, 0.1, 0.25))
  }

  /** `Object.values(scores)`, in the order the keys were written. */
  function Values(s: Scores): seq<Rating>
  {
    [s.fcp, s.lcp, s.fid, s.cls]
  }

  /** How many of the ratings are good. */
  function CountGood(rs: seq<Rating>): (r: nat)
    ensures r <= |rs|
  {
    if rs == [] then 0 else (if rs[0] == Good then 1 else 0) + CountGood(rs[1..])
  }

  /** The number of good metrics: one for each metric at or under its good threshold. */
  lemma GoodCountByMetric(m: Metrics)
    ensures CountGood(Values(RateMetrics(m))) ==
      (if m.firstContentfulPaint <= 1800.0 then 1 else 0) + (if m.largestContentfulPaint <= 2500.0 then 1 else 0)
      + (if m.firstInputDelay <= 100.0 then 1 else 0) + (if m.cumulativeLayoutShift <= 0.1 then 1 else 0)
  {
    var v := Values(RateMetrics(m));
    assert v[1..][1..][1..][1..] == [];
  }

  /** What `getPerformanceScore` returns. */
  datatype Score = Score(overall: real, scores: Scores, grade: char)

  /** `getPerformanceScore` on the current metrics. */
  function PerformanceScore(m: Metrics): (r: Score)
    ensures r.scores == RateMetrics(m)
    ensures 0.0 <= r.overall <= 1.0
    ensures r.grade in {'A', 'B', 'C', 'D'}
  {
    var scores := RateMetrics(m);
    var goodCount := CountGood(Values(scores));
    var totalCount := |Values(scores)|;
    Score(goodCount as real / totalCount as real, scores,
          if goodCount == totalCount then 'A'
          else if goodCount as real >= totalCount as real * 0.75 then 'B'
          else if goodCount as real >= totalCount as real * 0.5 then 'C'
          else 'D')
  }

  /** The grade by number of good metrics: A for all four, B for three, C for two, D otherwise. */
  lemma GradeByGoodCount(m: Metrics)
    ensures var n := CountGood(Values(RateMetrics(m)));
            var g := PerformanceScore(m).grade;
            (g == 'A' <==> n == 4) && (g == 'B' <==> n == 3) && (g == 'C' <==> n == 2) && (g == 'D' <==> n <= 1)
    ensures PerformanceScore(m).overall == CountGood(Values(RateMetrics(m))) as real / 4.0
  {
  }

  /** `isGoodPerformance`. */
  predicate IsGoodPerformance(m: Metrics)
  {
    PerformanceScore(m).overall >= 0.75
  }

  /** Good performance is exactly three or more good metrics, that is, grade A or B. */
  lemma GoodPerformanceMeansThreeGood(m: Metrics)
    ensures IsGoodPerformance(m) <==> CountGood(Values(RateMetrics(m))) >= 3
    ensures IsGoodPerformance(m) <==> PerformanceScore(m).grade in {'A', 'B'}
  {
    GradeByGoodCount(m);
  }

  /** Faster metrics never lower the number of good ratings, so never the grade. */
  lemma FasterIsNoWorse(m: Metrics, m': Metrics)
    requires m'.firstContentfulPaint <= m.firstContentfulPaint
    requires m'.largestContentfulPaint <= m.largestContentfulPaint
    requires m'.firstInputDelay <= m.firstInputDelay
    requires m'.cumulativeLayoutShift <= m.cumulativeLayoutShift
    ensures CountGood(Values(RateMetrics(m'))) >= CountGood(Values(RateMetrics(m)))
    ensures IsGoodPerformance(m) ==> IsGoodPerformance(m')
  {
    GoodCountByMetric(m);
    GoodCountByMetric(m');
    GoodPerformanceMeansThreeGood(m);
    GoodPerformanceMeansThreeGood(m');
  }

  /** Before any measurement every metric is zero, which is all good. */
  lemma InitialMetricsGradeA()
    ensures PerformanceScore(InitialMetrics).grade == 'A'
    ensures IsGoodPerformance(InitialMetrics)
  {
    GoodCountByMetric(InitialMetrics);
    GradeByGoodCount(InitialMetrics);
  }

  // ------------------------------------------------------------ layout shift

  /** A layout-shift entry: its score and whether it followed recent input. */
  datatype LayoutShift = LayoutShift(value: real, hadRecentInput: bool)

  /** The sum of the shifts that did not follow recent input. */
  function ShiftSum(entries: seq<LayoutShift>): real
  {
    if entries == [] then 0.0
    else ShiftSum(entries[..|entries| - 1])
         + (if entries[|entries| - 1].hadRecentInput then 0.0 else entries[|entries| - 1].value)
  }

  /** Two batches of entries add up to their sums added. */
  lemma {:induction false} ShiftSumAppend(a: seq<LayoutShift>, b: seq<LayoutShift>)
    ensures ShiftSum(a + b) == ShiftSum(a) + ShiftSum(b)
    decreases |b|
  {
    if b == [] {
      assert a + b == a;
    } else {
      var n := |b| - 1;
      assert (a + b)[..|a + b| - 1] == a + b[..n];
      assert (a + b)[|a + b| - 1] == b[n];
      ShiftSumAppend(a, b[..n]);
    }
  }

  /** Shifts that followed input never count. */
  lemma {:induction false} InputShiftsIgnored(entries: seq<LayoutShift>)
    requires forall i :: 0 <= i < |entries| ==> entries[i].hadRecentInput
    ensures ShiftSum(entries) == 0.0
    decreases |entries|
  {
    if entries != [] {
      InputShiftsIgnored(entries[..|entries| - 1]);
    }
  }

  /** The layout-shift observer: adds a batch's shifts without recent input to the running score. */
  method ObserveLayoutShifts(clsValue: real, entries: seq<LayoutShift>) returns (total: real)
    ensures total == clsValue + ShiftSum(entries)
  {
    total := clsValue;
    for i := 0 to |entries|
      invariant total == clsValue + ShiftSum(entries[..i])
    {
      assert entries[..i + 1][..i] == entries[..i];
      if !entries[i].hadRecentInput {
        total := total + entries[i].value;
      }
    }
    assert entries[..|entries|] == entries;
  }
}
