/**
 * The workload classifier of pkg/analyzer/workload_classifier.go: pooled
 * samples of every pod of a workload are summarised per resource (mean,
 * spread, extremes, 95th percentile, a linear-regression trend and the
 * share of spikes), the two summaries are put into one of six classes, a
 * confidence in that class is derived, and a fixed list of advice items is
 * emitted for the class.
 */
module Classifier {
  import opened Common
  import opened Types
  import opened Stats
  import Engine
  import AdvancedAnalysis

  datatype WorkloadClass = Stable | Bursty | Periodic | Growing | Shrinking | Unpredictable

  /** The string value of a WorkloadClass. */
  function ClassName(c: WorkloadClass): (s: string)
    ensures |s| > 0
  {
    match c
    case Stable => "Stable"
    case Bursty => "Bursty"
    case Periodic => "Periodic"
    case Growing => "Growing"
    case Shrinking => "Shrinking"
    case Unpredictable => "Unpredictable"
  }

  /** The trend direction texts "increasing", "decreasing" and "stable". */
  datatype TrendDirection = TrendIncreasing | TrendDecreasing | TrendStable

  datatype Trend = Trend(direction: TrendDirection, strength: real)

  datatype ResourcePattern = ResourcePattern(
    mean: real,
    standardDeviation: real,
    coefficientOfVariation: real,
    trendDirection: TrendDirection,
    trendStrength: real,
    spikeFrequency: real,
    minValue: real,
    maxValue: real,
    p95Value: real)

  datatype ClassificationRecommendation = ClassificationRecommendation(
    recommendationType: string,
    priority: string,
    description: string,
    action: string)

  datatype WorkloadClassification = WorkloadClassification(
    workloadName: string,
    workloadType: string,
    namespace: string,
    workloadClass: WorkloadClass,
    confidence: real,
    cpuPattern: ResourcePattern,
    memoryPattern: ResourcePattern,
    recommendations: seq<ClassificationRecommendation>,
    analysisTime: int)

  datatype PatternError =
    | UnsupportedResourceType(resourceType: string)
    | InsufficientDataPoints(resourceType: string, points: int, required: int)

  datatype ClassificationError =
    | NoPodMetricsAvailable
    | CpuPatternFailed(cause: PatternError)
    | MemoryPatternFailed(cause: PatternError)

  const CpuType: string := "CPU"
  const MemoryType: string := "Memory"

  /** The coefficient of variation stdDev / mean, left at 0 unless the mean is positive. */
  function Variation(mean: real, sd: real): (cv: real)
    ensures 0.0 <= sd ==> 0.0 <= cv
    ensures sd == 0.0 ==> cv == 0.0
  {
    if mean > 0.0 then sd / mean else 0.0
  }

  // ---------------------------------------------------------------
  // calculateMin / calculateMax
  // ---------------------------------------------------------------

  /** The least sample, 0 for none. */
  function Least(values: seq<real>): (m: real)
    ensures |values| == 0 ==> m == 0.0
    ensures |values| > 0 ==> m in values && forall i :: 0 <= i < |values| ==> m <= values[i]
  {
    if |values| == 0 then 0.0 else SortedEnds(values); SortAscending(values)[0]
  }

  /** The greatest sample, 0 for none. */
  function Greatest(values: seq<real>): (m: real)
    ensures |values| == 0 ==> m == 0.0
    ensures |values| > 0 ==> m in values && forall i :: 0 <= i < |values| ==> values[i] <= m
  {
    if |values| == 0 then 0.0 else SortedEnds(values); SortAscending(values)[|values| - 1]
  }

  method CalculateMin(values: seq<real>) returns (m: real)
    ensures m == Least(values)
  {
    if |values| == 0 {
      return 0.0;
    }
    m := values[0];
    var i := 0;
    while i < |values|
      invariant 0 <= i <= |values|
      invariant m in values
      invariant forall k :: 0 <= k < i ==> m <= values[k]
    {
      if values[i] < m {
        m := values[i];
      }
      i := i + 1;
    }
  }

  method CalculateMax(values: seq<real>) returns (m: real)
    ensures m == Greatest(values)
  {
    if |values| == 0 {
      return 0.0;
    }
    m := values[0];
    var i := 0;
    while i < |values|
      invariant 0 <= i <= |values|
      invariant m in values
      invariant forall k :: 0 <= k < i ==> values[k] <= m
    {
      if values[i] > m {
        m := values[i];
      }
      i := i + 1;
    }
  }

  // ---------------------------------------------------------------
  // calculatePercentile: exchange sort of a copy, then interpolation
  // ---------------------------------------------------------------

  /** The interpolated percentile of the samples, 0 for none. */
  function Percentile(values: seq<real>, p: real): (r: real)
    requires 0.0 <= p <= 100.0
    ensures |values| == 0 ==> r == 0.0
    ensures |values| > 0 ==> Least(values) <= r <= Greatest(values)
  {
    if |values| == 0 then 0.0 else Interpolate(SortAscending(values), p)
  }

  /**
   * The percentile as workload_classifier.go computes it. Go indexes out of
   * range (and panics) for p outside [0, 100]; the model requires it inside.
   */
  method CalculatePercentile(values: seq<real>, p: real) returns (r: real)
    requires 0.0 <= p <= 100.0
    ensures r == Percentile(values, p)
  {
    if |values| == 0 {
      return 0.0;
    }
    var sorted := SortedCopy(values);
    r := Interpolate(sorted, p);
  }

  // ---------------------------------------------------------------
  // analyzeTrend: least-squares slope of the samples against their index
  // ---------------------------------------------------------------

  /** 0 + 1 + ... + (n - 1), the sum of the x coordinates as the loop adds them up. */
  function IndexSum(n: nat): real
  {
    if n == 0 then 0.0 else IndexSum(n - 1) + (n - 1) as real
  }

  /** 0² + 1² + ... + (n - 1)², the sum of the squared x coordinates. */
  function IndexSquareSum(n: nat): real
  {
    if n == 0 then 0.0 else IndexSquareSum(n - 1) + (n - 1) as real * (n - 1) as real
  }

  /** The sum of i * s[i], the sum of x * y. */
  function WeightedSum(s: seq<real>): real
    decreases |s|
  {
    if s == [] then 0.0 else WeightedSum(s[..|s| - 1]) + (|s| - 1) as real * s[|s| - 1]
  }

  lemma {:induction false} IndexSumClosedForm(n: nat)
    ensures 2.0 * IndexSum(n) == n as real * (n as real - 1.0)
  {
    if n > 0 {
      IndexSumClosedForm(n - 1);
      SumStep((n - 1) as real, n as real, IndexSum(n - 1), IndexSum(n));
    }
  }

  lemma {:induction false} SumStep(k: real, m: real, prev: real, cur: real)
    requires m == k + 1.0 && 2.0 * prev == k * (k - 1.0) && cur == prev + k
    ensures 2.0 * cur == m * (m - 1.0)
  {
  }

  lemma {:induction false} IndexSquareSumClosedForm(n: nat)
    ensures 6.0 * IndexSquareSum(n) == (n as real - 1.0) * n as real * (2.0 * n as real - 1.0)
  {
    if n > 0 {
      IndexSquareSumClosedForm(n - 1);
      SquareSumStep((n - 1) as real, n as real, IndexSquareSum(n - 1), IndexSquareSum(n));
    }
  }

  lemma {:induction false} SquareSumStep(k: real, m: real, prev: real, cur: real)
    requires m == k + 1.0 && 6.0 * prev == (k - 1.0) * k * (2.0 * k - 1.0) && cur == prev + k * k
    ensures 6.0 * cur == (m - 1.0) * m * (2.0 * m - 1.0)
  {
  }

  /** The regression denominator: n·Σx² − (Σx)² = n²(n − 1)(n + 1)/12. */
  lemma {:induction false} RegressionDenominator(n: nat)
    ensures 12.0 * (n as real * IndexSquareSum(n) - IndexSum(n) * IndexSum(n))
      == n as real * n as real * (n as real - 1.0) * (n as real + 1.0)
  {
    IndexSumClosedForm(n);
    IndexSquareSumClosedForm(n);
    DenominatorAlgebra(n as real, IndexSquareSum(n), IndexSum(n));
  }

  lemma {:induction false} DenominatorAlgebra(n: real, s: real, t: real)
    requires 6.0 * s == (n - 1.0) * n * (2.0 * n - 1.0) && 2.0 * t == n * (n - 1.0)
    ensures 12.0 * (n * s - t * t) == n * n * (n - 1.0) * (n + 1.0)
  {
    calc {
      12.0 * (n * s - t * t);
      2.0 * n * (6.0 * s) - 3.0 * ((2.0 * t) * (2.0 * t));
      2.0 * n * ((n - 1.0) * n * (2.0 * n - 1.0)) - 3.0 * ((n * (n - 1.0)) * (n * (n - 1.0)));
      n * n * (n - 1.0) * (n + 1.0);
    }
  }

  /** With at least two samples the slope's denominator is positive, so the division is defined. */
  lemma {:induction false} RegressionDenominatorPositive(n: nat)
    requires n >= 2
    ensures n as real * IndexSquareSum(n) - IndexSum(n) * IndexSum(n) > 0.0
  {
    RegressionDenominator(n);
    PositiveFromClosedForm(n as real, IndexSquareSum(n), IndexSum(n));
  }

  lemma {:induction false} PositiveFromClosedForm(n: real, s: real, t: real)
    requires n >= 2.0 && 12.0 * (n * s - t * t) == n * n * (n - 1.0) * (n + 1.0)
    ensures n * s - t * t > 0.0
  {
    var a, b := n * n, (n - 1.0) * (n + 1.0);
    PositiveProduct(n, n);
    PositiveProduct(n - 1.0, n + 1.0);
    PositiveProduct(a, b);
    assert n * n * (n - 1.0) * (n + 1.0) == a * b;
  }

  lemma {:induction false} PositiveProduct(a: real, b: real)
    requires 0.0 < a && 0.0 < b
    ensures 0.0 < a * b
  {
  }

  /** The least-squares slope (nΣxy − ΣxΣy) / (nΣx² − (Σx)²) from the regression sums. */
  function SlopeOf(n: real, sumX: real, sumY: real, sumXY: real, sumX2: real): real
    requires n * sumX2 - sumX * sumX != 0.0
  {
    (n * sumXY - sumX * sumY) / (n * sumX2 - sumX * sumX)
  }

  /** The slope of the samples against their index. */
  function Slope(values: seq<real>): real
    requires |values| >= 2
  {
    var n := |values|;
    RegressionDenominatorPositive(n);
    SlopeOf(n as real, IndexSum(n), Sum(values), WeightedSum(values), IndexSquareSum(n))
  }

  /**
   * The trend: none below 10 samples, for a zero mean, or for a slope below
   * 0.1% of the mean; otherwise the sign of the slope, with the slope
   * relative to the mean, times 100, capped at 1 as strength.
   */
  function TrendOf(values: seq<real>): (t: Trend)
    ensures |values| < 10 ==> t == Trend(TrendStable, 0.0)
    ensures t.strength <= 1.0
  {
    if |values| < 10 then Trend(TrendStable, 0.0)
    else
      var slope := Slope(values);
      var mean := Mean(values);
      if mean == 0.0 then Trend(TrendStable, 0.0)
      else if AbsReal(slope) < mean * 0.001 then Trend(TrendStable, 0.0)
      else Trend(if slope > 0.0 then TrendIncreasing else TrendDecreasing, MinReal(AbsReal(slope) / mean * 100.0, 1.0))
  }

  /** The accumulators of the regression loop after the first i samples. */
  predicate RegressionSums(values: seq<real>, i: nat, sumX: real, sumY: real, sumXY: real, sumX2: real)
    requires i <= |values|
  {
    && sumX == IndexSum(i)
    && sumY == Sum(values[..i])
    && sumXY == WeightedSum(values[..i])
    && sumX2 == IndexSquareSum(i)
  }

  lemma {:induction false} RegressionStep(values: seq<real>, i: nat, sumX: real, sumY: real, sumXY: real, sumX2: real)
    requires i < |values| && RegressionSums(values, i, sumX, sumY, sumXY, sumX2)
    ensures RegressionSums(values, i + 1, sumX + i as real, sumY + values[i],
                           sumXY + i as real * values[i], sumX2 + i as real * i as real)
  {
    assert values[..i + 1][..i] == values[..i];
  }

  /** The accumulation loop of analyzeTrend. */
  method RegressionLoop(values: seq<real>) returns (sumX: real, sumY: real, sumXY: real, sumX2: real)
    ensures sumX == IndexSum(|values|) && sumY == Sum(values)
    ensures sumXY == WeightedSum(values) && sumX2 == IndexSquareSum(|values|)
  {
    sumX, sumY, sumXY, sumX2 := 0.0, 0.0, 0.0, 0.0;
    var i := 0;
    while i < |values|
      invariant 0 <= i <= |values|
      invariant RegressionSums(values, i, sumX, sumY, sumXY, sumX2)
    {
      var x := i as real;
      RegressionStep(values, i, sumX, sumY, sumXY, sumX2);
      sumX := sumX + x;
      sumY := sumY + values[i];
      sumXY := sumXY + x * values[i];
      sumX2 := sumX2 + x * x;
      i := i + 1;
    }
    assert values[..|values|] == values;
  }

  method AnalyzeTrend(values: seq<real>) returns (direction: TrendDirection, strength: real)
    ensures Trend(direction, strength) == TrendOf(values)
  {
    if |values| < 10 {
      return TrendStable, 0.0;
    }
    var n := |values| as real;
    var sumX, sumY, sumXY, sumX2 := RegressionLoop(values);
    RegressionDenominatorPositive(|values|);
    var slope := SlopeOf(n, sumX, sumY, sumXY, sumX2);
    var mean := sumY / n;
    assert mean == Mean(values);
    if mean == 0.0 {
      return TrendStable, 0.0;
    }
    var relativeSlope := AbsReal(slope) / mean;
    if AbsReal(slope) < mean * 0.001 {
      return TrendStable, 0.0;
    }
    direction := if slope > 0.0 then TrendIncreasing else TrendDecreasing;
    strength := MinReal(relativeSlope * 100.0, 1.0);
  }

  /**
   * For a positive mean the strength lies in [0, 1], it is 0 exactly when the
   * direction is stable, and the direction is increasing exactly for a
   * positive slope that is not negligible.
   */
  lemma {:induction false} TrendWithPositiveMean(values: seq<real>)
    requires |values| >= 10 && Mean(values) > 0.0
    ensures 0.0 <= TrendOf(values).strength <= 1.0
    ensures TrendOf(values).direction == TrendStable <==> TrendOf(values).strength == 0.0
    ensures TrendOf(values).direction == TrendIncreasing <==>
      Slope(values) > 0.0 && AbsReal(Slope(values)) >= Mean(values) * 0.001
  {
    var slope, mean := Slope(values), Mean(values);
    if AbsReal(slope) >= mean * 0.001 {
      assert AbsReal(slope) > 0.0;
      assert AbsReal(slope) / mean > 0.0;
    }
  }

  /** Σ i·c = c·Σ i. */
  lemma {:induction false} WeightedSumOfConstant(s: seq<real>, c: real)
    requires forall i :: 0 <= i < |s| ==> s[i] == c
    ensures WeightedSum(s) == IndexSum(|s|) * c
    decreases |s|
  {
    if s != [] {
      WeightedSumOfConstant(s[..|s| - 1], c);
      assert (IndexSum(|s| - 1) + (|s| - 1) as real) * c
        == IndexSum(|s| - 1) * c + (|s| - 1) as real * c;
    }
  }

  /** A series of one non-negative repeated value has a stable trend of strength 0. */
  lemma {:induction false} TrendOfConstant(values: seq<real>, c: real)
    requires 0.0 <= c && forall i :: 0 <= i < |values| ==> values[i] == c
    ensures TrendOf(values) == Trend(TrendStable, 0.0)
  {
    if |values| >= 10 {
      ConstantSlope(values, c);
      ConstantMean(values, c);
      FlatTrend(values);
    }
  }

  lemma {:induction false} ConstantSlope(values: seq<real>, c: real)
    requires |values| >= 2 && forall i :: 0 <= i < |values| ==> values[i] == c
    ensures Slope(values) == 0.0
  {
    WeightedSumOfConstant(values, c);
    SumOfConstant(values, c);
    FlatSums(values, c);
  }

  /** Sums of a flat series give a zero slope. */
  lemma {:induction false} FlatSums(values: seq<real>, c: real)
    requires |values| >= 2
    requires Sum(values) == |values| as real * c && WeightedSum(values) == IndexSum(|values|) * c
    ensures Slope(values) == 0.0
  {
    RegressionDenominatorPositive(|values|);
    FlatSlope(|values| as real, IndexSum(|values|), Sum(values), WeightedSum(values), IndexSquareSum(|values|), c);
  }

  lemma {:induction false} ConstantMean(values: seq<real>, c: real)
    requires |values| > 0 && forall i :: 0 <= i < |values| ==> values[i] == c
    ensures Mean(values) == c
  {
    SumOfConstant(values, c);
    CancelFactor(|values| as real, c);
  }

  /** No slope and a mean that is not negative give a stable trend. */
  lemma {:induction false} FlatTrend(values: seq<real>)
    requires |values| >= 10 && Slope(values) == 0.0 && Mean(values) >= 0.0
    ensures TrendOf(values) == Trend(TrendStable, 0.0)
  {
  }

  /** When every y is c, the numerator nΣxy − ΣxΣy is n(Σx)c − (Σx)nc = 0. */
  lemma {:induction false} FlatSlope(n: real, sumX: real, sumY: real, sumXY: real, sumX2: real, c: real)
    requires n * sumX2 - sumX * sumX != 0.0
    requires sumY == n * c && sumXY == sumX * c
    ensures SlopeOf(n, sumX, sumY, sumXY, sumX2) == 0.0
  {
    assert n * (sumX * c) - sumX * (n * c) == 0.0;
  }

  lemma {:induction false} CancelFactor(n: real, c: real)
    requires n != 0.0
    ensures (n * c) / n == c
  {
  }

  // ---------------------------------------------------------------
  // calculateSpikeFrequency
  // ---------------------------------------------------------------

  /** The share of samples above mean + threshold·stdDev; 0 for no samples or no spread. */
  function SpikeFrequency(values: seq<real>, mean: real, stdDev: real, threshold: real): (f: real)
    ensures 0.0 <= f <= 1.0
    ensures |values| == 0 || stdDev == 0.0 ==> f == 0.0
  {
    if |values| == 0 || stdDev == 0.0 then 0.0
    else
      var k := AdvancedAnalysis.CountAbove(values, mean + threshold * stdDev);
      UnitFraction(k, |values|);
      k as real / |values| as real
  }

  /** A count out of a positive total is a share between 0 and 1. */
  lemma {:induction false} UnitFraction(k: nat, n: nat)
    requires 0 < n && k <= n
    ensures 0.0 <= k as real / n as real <= 1.0
  {
    assert k as real <= n as real;
  }

  /** With samples and spread, the share is 0 exactly when no sample exceeds the spike bound. */
  lemma {:induction false} NoSpikesIffZeroFrequency(values: seq<real>, mean: real, stdDev: real, threshold: real)
    requires |values| > 0 && stdDev != 0.0
    ensures SpikeFrequency(values, mean, stdDev, threshold) == 0.0 <==>
      forall i :: 0 <= i < |values| ==> values[i] <= mean + threshold * stdDev
  {
    var k := AdvancedAnalysis.CountAbove(values, mean + threshold * stdDev);
    if k > 0 {
      assert k as real / |values| as real > 0.0;
    }
  }

  method CalculateSpikeFrequency(values: seq<real>, mean: real, stdDev: real, threshold: real) returns (f: real)
    ensures f == SpikeFrequency(values, mean, stdDev, threshold)
  {
    if |values| == 0 || stdDev == 0.0 {
      return 0.0;
    }
    var spikeThreshold := mean + threshold * stdDev;
    var spikes := 0;
    var i := 0;
    while i < |values|
      invariant 0 <= i <= |values|
      invariant spikes == AdvancedAnalysis.CountAbove(values[..i], spikeThreshold)
    {
      assert values[..i + 1][..i] == values[..i];
      if values[i] > spikeThreshold {
        spikes := spikes + 1;
      }
      i := i + 1;
    }
    assert values[..|values|] == values;
    f := spikes as real / |values| as real;
  }

  // ---------------------------------------------------------------
  // The pooled samples of a workload
  // ---------------------------------------------------------------

  /** The samples analyzeResourcePattern pools: every pod's history of the named resource, in pod order. */
  function PooledValues(pods: seq<PodMetrics>, resourceType: string): seq<real>
  {
    if resourceType == CpuType then AdvancedAnalysis.AllValues(pods, Engine.CpuUsage)
    else if resourceType == MemoryType then AdvancedAnalysis.AllValues(pods, Engine.MemoryUsage)
    else []
  }

  /** Appends the values of one usage history to the pooled samples. */
  method AppendValues(allValues: seq<real>, history: seq<ResourceUsage>) returns (allValues': seq<real>)
    ensures allValues' == allValues + Values(history)
  {
    allValues' := allValues;
    var i := 0;
    while i < |history|
      invariant 0 <= i <= |history|
      invariant allValues' == allValues + Values(history)[..i]
    {
      assert Values(history)[..i + 1] == Values(history)[..i] + [history[i].value];
      allValues' := allValues' + [history[i].value];
      i := i + 1;
    }
    assert Values(history)[..|history|] == Values(history);
  }

  /** The defaults of NewWorkloadClassifier. */
  function NewWorkloadClassifier(): (w: WorkloadClassifier)
    ensures w.highVariabilityThreshold == 0.3 && w.spikeDetectionThreshold == 2.0
    ensures w.minDataPointsForClassification == 20
  {
    WorkloadClassifier(0.3, 2.0, 20)
  }

  datatype WorkloadClassifier = WorkloadClassifier(
    highVariabilityThreshold: real,
    spikeDetectionThreshold: real,
    minDataPointsForClassification: int)
  {
    // -------------------------------------------------------------
    // analyzeResourcePattern
    // -------------------------------------------------------------

    /** The summary of pooled samples; the coefficient of variation is set only for a positive mean. */
    function PatternOf(values: seq<real>, sqrt: SqrtFn): ResourcePattern
    {
      var mean := Mean(values);
      var sd := StdDev(values, mean, sqrt);
      var trend := TrendOf(values);
      ResourcePattern(
        mean := mean,
        standardDeviation := sd,
        coefficientOfVariation := Variation(mean, sd),
        trendDirection := trend.direction,
        trendStrength := trend.strength,
        spikeFrequency := SpikeFrequency(values, mean, sd, spikeDetectionThreshold),
        minValue := Least(values),
        maxValue := Greatest(values),
        p95Value := Percentile(values, 95.0))
    }

    /**
     * analyzeResourcePattern: an error for a resource other than CPU or
     * Memory (raised inside the pod loop, so only when there is a pod), an
     * error for fewer pooled samples than the minimum, else the summary.
     */
    function ResourcePatternOf(pods: seq<PodMetrics>, resourceType: string, sqrt: SqrtFn)
      : (r: Result<ResourcePattern, PatternError>)
      ensures r.Err? && r.error.UnsupportedResourceType? <==>
        |pods| > 0 && resourceType != CpuType && resourceType != MemoryType
      ensures r.Err? && r.error.InsufficientDataPoints? <==>
        !(|pods| > 0 && resourceType != CpuType && resourceType != MemoryType)
        && |PooledValues(pods, resourceType)| < minDataPointsForClassification
    {
      if |pods| > 0 && resourceType != CpuType && resourceType != MemoryType then
        Err(UnsupportedResourceType(resourceType))
      else
        var all := PooledValues(pods, resourceType);
        if |all| < minDataPointsForClassification then
          Err(InsufficientDataPoints(resourceType, |all|, minDataPointsForClassification))
        else
          Ok(PatternOf(all, sqrt))
    }

    /** The outcome once the pooled samples are known, for a supported resource or no pods. */
    lemma {:induction false} PooledOutcome(pods: seq<PodMetrics>, resourceType: string, sqrt: SqrtFn, all: seq<real>)
      requires |pods| == 0 || resourceType == CpuType || resourceType == MemoryType
      requires all == PooledValues(pods, resourceType)
      ensures |all| < minDataPointsForClassification ==>
        ResourcePatternOf(pods, resourceType, sqrt) == Err(InsufficientDataPoints(resourceType, |all|, minDataPointsForClassification))
      ensures |all| >= minDataPointsForClassification ==>
        ResourcePatternOf(pods, resourceType, sqrt) == Ok(PatternOf(all, sqrt))
    {
    }

    /** The statistics block of analyzeResourcePattern over the pooled samples. */
    method SummarizePattern(allValues: seq<real>, sqrt: SqrtFn) returns (pattern: ResourcePattern)
      ensures pattern == PatternOf(allValues, sqrt)
    {
      var mean := CalculateMean(allValues);
      var standardDeviation := CalculateStandardDeviation(allValues, mean, sqrt);
      var cv := 0.0;
      if mean > 0.0 {
        cv := standardDeviation / mean;
      }
      var minValue := CalculateMin(allValues);
      var maxValue := CalculateMax(allValues);
      var p95 := CalculatePercentile(allValues, 95.0);
      var trendDirection, trendStrength := AnalyzeTrend(allValues);
      var spikeFrequency := CalculateSpikeFrequency(allValues, mean, standardDeviation, spikeDetectionThreshold);
      pattern := ResourcePattern(mean, standardDeviation, cv, trendDirection, trendStrength, spikeFrequency,
                                 minValue, maxValue, p95);
    }

    method AnalyzeResourcePattern(pods: seq<PodMetrics>, resourceType: string, sqrt: SqrtFn)
      returns (r: Result<ResourcePattern, PatternError>)
      ensures r == ResourcePatternOf(pods, resourceType, sqrt)
    {
      var allValues: seq<real> := [];
      var i := 0;
      while i < |pods|
        invariant 0 <= i <= |pods|
        invariant allValues == PooledValues(pods[..i], resourceType)
        invariant i > 0 ==> resourceType == CpuType || resourceType == MemoryType
      {
        var history;
        if resourceType == CpuType {
          history := pods[i].cpuUsageHistory;
        } else if resourceType == MemoryType {
          history := pods[i].memUsageHistory;
        } else {
          return Err(UnsupportedResourceType(resourceType));
        }
        assert pods[..i + 1][..i] == pods[..i];
        assert PooledValues(pods[..i + 1], resourceType) == allValues + Values(history);
        allValues := AppendValues(allValues, history);
        i := i + 1;
      }
      assert pods[..|pods|] == pods;
      PooledOutcome(pods, resourceType, sqrt, allValues);
      if |allValues| < minDataPointsForClassification {
        return Err(InsufficientDataPoints(resourceType, |allValues|, minDataPointsForClassification));
      }
      var pattern := SummarizePattern(allValues, sqrt);
      r := Ok(pattern);
    }
  
    /** The mean and the 95th percentile of a non-empty sample lie between its extremes. */
    lemma {:induction false} PatternExtremes(values: seq<real>, sqrt: SqrtFn)
      requires |values| > 0
      ensures var p := PatternOf(values, sqrt);
        && p.minValue <= p.mean <= p.maxValue
        && p.minValue <= p.p95Value <= p.maxValue
    {
      MeanWithin(values, Least(values), Greatest(values));
    }

    /** The spread and the variation are not negative, the spike share lies in [0, 1], the trend strength is at most 1. */
    lemma {:induction false} PatternShares(values: seq<real>, sqrt: SqrtFn)
      ensures var p := PatternOf(values, sqrt);
        && 0.0 <= p.standardDeviation && 0.0 <= p.coefficientOfVariation
        && 0.0 <= p.spikeFrequency <= 1.0
        && p.trendStrength <= 1.0
    {
    }

    // -------------------------------------------------------------
    // determineWorkloadClass
    // -------------------------------------------------------------

    /**
     * The class decision, in order: a strong trend (strength above 0.7 in
     * either resource) with an increasing or a decreasing direction in
     * either resource; then high variability, split by spike frequency;
     * otherwise Stable.
     */
    function DetermineWorkloadClass(cpu: ResourcePattern, memory: ResourcePattern): WorkloadClass
    {
      if (cpu.trendStrength > 0.7 || memory.trendStrength > 0.7)
         && (cpu.trendDirection == TrendIncreasing || memory.trendDirection == TrendIncreasing) then
        Growing
      else if (cpu.trendStrength > 0.7 || memory.trendStrength > 0.7)
              && (cpu.trendDirection == TrendDecreasing || memory.trendDirection == TrendDecreasing) then
        Shrinking
      else if cpu.coefficientOfVariation > highVariabilityThreshold
              || memory.coefficientOfVariation > highVariabilityThreshold then
        if 0.1 < cpu.spikeFrequency < 0.3 then Periodic
        else if cpu.spikeFrequency > 0.3 || memory.spikeFrequency > 0.3 then Bursty
        else Unpredictable
      else
        Stable
    }

    /**
     * What each class says about the two patterns: a trend class needs a
     * strong trend, a variability class needs a coefficient of variation
     * above the threshold, and Stable holds exactly when neither applies.
     */
    lemma {:induction false} ClassMeaning(cpu: ResourcePattern, memory: ResourcePattern)
      ensures var c := DetermineWorkloadClass(cpu, memory);
        var strong := cpu.trendStrength > 0.7 || memory.trendStrength > 0.7;
        var directed := cpu.trendDirection != TrendStable || memory.trendDirection != TrendStable;
        var variable := cpu.coefficientOfVariation > highVariabilityThreshold
                        || memory.coefficientOfVariation > highVariabilityThreshold;
        && (c == Growing || c == Shrinking <==> strong && directed)
        && (c == Periodic || c == Bursty || c == Unpredictable <==> !(strong && directed) && variable)
        && (c == Stable <==> !(strong && directed) && !variable)
        && (c == Periodic ==> 0.1 < cpu.spikeFrequency < 0.3)
        && (c == Bursty ==> cpu.spikeFrequency > 0.3 || memory.spikeFrequency > 0.3)
    {
    }

    /**
     * The direction is not tied to the resource whose trend is strong: a
     * strongly decreasing CPU trend and a weakly increasing memory trend
     * classify as Growing.
     */
    lemma {:induction false} DirectionUntiedFromStrength(cpu: ResourcePattern, memory: ResourcePattern)
      requires cpu.trendStrength == 0.9 && cpu.trendDirection == TrendDecreasing
      requires memory.trendStrength == 0.01 && memory.trendDirection == TrendIncreasing
      ensures DetermineWorkloadClass(cpu, memory) == Growing
    {
    }

    /**
     * A workload whose CPU samples and memory samples are each one repeated
     * non-negative value is Stable, for any threshold that is not negative.
     */
    lemma {:induction false} ConstantWorkloadIsStable(cpuValues: seq<real>, memValues: seq<real>, c: real, d: real, sqrt: SqrtFn)
      requires sqrt(0.0) == 0.0 && 0.0 <= highVariabilityThreshold
      requires |cpuValues| > 0 && 0.0 <= c && forall i :: 0 <= i < |cpuValues| ==> cpuValues[i] == c
      requires |memValues| > 0 && 0.0 <= d && forall i :: 0 <= i < |memValues| ==> memValues[i] == d
      ensures DetermineWorkloadClass(PatternOf(cpuValues, sqrt), PatternOf(memValues, sqrt)) == Stable
    {
      ConstantPattern(cpuValues, c, sqrt);
      ConstantPattern(memValues, d, sqrt);
    }

    /** The summary of a constant series has no variation and no trend. */
    lemma {:induction false} ConstantPattern(values: seq<real>, c: real, sqrt: SqrtFn)
      requires sqrt(0.0) == 0.0
      requires |values| > 0 && 0.0 <= c && forall i :: 0 <= i < |values| ==> values[i] == c
      ensures PatternOf(values, sqrt).coefficientOfVariation == 0.0
      ensures PatternOf(values, sqrt).trendStrength == 0.0
    {
      ConstantVariation(values, c, sqrt);
      TrendOfConstant(values, c);
    }

    lemma {:induction false} ConstantVariation(values: seq<real>, c: real, sqrt: SqrtFn)
      requires sqrt(0.0) == 0.0
      requires |values| > 0 && forall i :: 0 <= i < |values| ==> values[i] == c
      ensures PatternOf(values, sqrt).coefficientOfVariation == 0.0
    {
      ConstantSeries(values, c, sqrt);
      NoSpreadNoVariation(values, sqrt);
    }

    lemma {:induction false} NoSpreadNoVariation(values: seq<real>, sqrt: SqrtFn)
      requires StdDev(values, Mean(values), sqrt) == 0.0
      ensures PatternOf(values, sqrt).coefficientOfVariation == 0.0
    {
      assert PatternOf(values, sqrt).coefficientOfVariation == Variation(Mean(values), StdDev(values, Mean(values), sqrt));
    }

    // -------------------------------------------------------------
    // ClassifyWorkload
    // -------------------------------------------------------------

    /** The classification of two patterns, with the recommendations its class and variabilities call for. */
    function Classified(workload: WorkloadMetrics, now: int, cpu: ResourcePattern, memory: ResourcePattern)
      : WorkloadClassification
    {
      var c := DetermineWorkloadClass(cpu, memory);
      WorkloadClassification(
        workloadName := workload.workloadName,
        workloadType := workload.workloadType,
        namespace := workload.namespace,
        workloadClass := c,
        confidence := ClassificationConfidence(cpu, memory),
        cpuPattern := cpu,
        memoryPattern := memory,
        recommendations := ClassificationRecommendations(c, cpu.coefficientOfVariation, memory.coefficientOfVariation),
        analysisTime := now)
    }

    /** ClassifyWorkload: an error without pods or when either pattern fails, else the classification. */
    function Classification(workload: WorkloadMetrics, now: int, sqrt: SqrtFn)
      : Result<WorkloadClassification, ClassificationError>
    {
      if |workload.pods| == 0 then Err(NoPodMetricsAvailable)
      else match ResourcePatternOf(workload.pods, CpuType, sqrt)
        case Err(e) => Err(CpuPatternFailed(e))
        case Ok(cpu) =>
          match ResourcePatternOf(workload.pods, MemoryType, sqrt)
          case Err(e) => Err(MemoryPatternFailed(e))
          case Ok(memory) => Ok(Classified(workload, now, cpu, memory))
    }

    method ClassifyWorkload(workload: WorkloadMetrics, now: int, sqrt: SqrtFn)
      returns (r: Result<WorkloadClassification, ClassificationError>)
      ensures r == Classification(workload, now, sqrt)
    {
      if |workload.pods| == 0 {
        return Err(NoPodMetricsAvailable);
      }
      var cpuPattern := AnalyzeResourcePattern(workload.pods, CpuType, sqrt);
      if cpuPattern.Err? {
        return Err(CpuPatternFailed(cpuPattern.error));
      }
      var memPattern := AnalyzeResourcePattern(workload.pods, MemoryType, sqrt);
      if memPattern.Err? {
        return Err(MemoryPatternFailed(memPattern.error));
      }
      var cpu, memory := cpuPattern.value, memPattern.value;
      var workloadClass := DetermineWorkloadClass(cpu, memory);
      var confidence := CalculateClassificationConfidence(cpu, memory);
      var classification := WorkloadClassification(
        workload.workloadName, workload.workloadType, workload.namespace, workloadClass, confidence, cpu, memory, [], now);
      var recommendations := GenerateClassificationRecommendations(classification);
      r := Ok(classification.(recommendations := recommendations));
    }

    /**
     * Classification fails for no pods, and otherwise succeeds exactly when
     * both resources pool at least the minimum number of samples.
     */
    lemma {:induction false} ClassificationOutcome(workload: WorkloadMetrics, now: int, sqrt: SqrtFn)
      ensures Classification(workload, now, sqrt) == Err(NoPodMetricsAvailable) <==> |workload.pods| == 0
      ensures Classification(workload, now, sqrt).Ok? <==>
        && |workload.pods| > 0
        && |PooledValues(workload.pods, CpuType)| >= minDataPointsForClassification
        && |PooledValues(workload.pods, MemoryType)| >= minDataPointsForClassification
    {
    }

    /**
     * A classification has a confidence in (0, 1] and at least one
     * recommendation, none of whose fields is empty.
     */
    lemma {:induction false} ClassifiedShape(workload: WorkloadMetrics, now: int, cpu: ResourcePattern, memory: ResourcePattern)
      ensures var c := Classified(workload, now, cpu, memory);
        && 0.0 < c.confidence <= 1.0
        && |c.recommendations| >= 1
        && forall i :: 0 <= i < |c.recommendations| ==> Complete(c.recommendations[i])
    {
      var c := DetermineWorkloadClass(cpu, memory);
      RecommendationCount(c, cpu.coefficientOfVariation, memory.coefficientOfVariation);
      RecommendationsComplete(c, cpu.coefficientOfVariation, memory.coefficientOfVariation);
    }
  }

  // ---------------------------------------------------------------
  // calculateClassificationConfidence
  // ---------------------------------------------------------------

  /**
   * The four factors applied to the starting confidence 1.0: 0.7 for CVs
   * more than 0.5 apart, 0.8 for different directions with both strengths
   * above 0.5, 1.2 for both CVs below 0.1, 1.1 for both CVs above 0.8.
   */
  function ConfidenceProduct(cpu: ResourcePattern, memory: ResourcePattern): real
  {
    1.0
      * (if AbsReal(cpu.coefficientOfVariation - memory.coefficientOfVariation) > 0.5 then 0.7 else 1.0)
      * (if cpu.trendDirection != memory.trendDirection && cpu.trendStrength > 0.5 && memory.trendStrength > 0.5
         then 0.8 else 1.0)
      * (if cpu.coefficientOfVariation < 0.1 && memory.coefficientOfVariation < 0.1 then 1.2 else 1.0)
      * (if cpu.coefficientOfVariation > 0.8 && memory.coefficientOfVariation > 0.8 then 1.1 else 1.0)
  }

  /** The product clamped to [0.1, 1.0]. */
  function ClassificationConfidence(cpu: ResourcePattern, memory: ResourcePattern): (c: real)
    ensures 0.1 <= c <= 1.0
  {
    MinReal(MaxReal(ConfidenceProduct(cpu, memory), 0.1), 1.0)
  }

  method CalculateClassificationConfidence(cpu: ResourcePattern, memory: ResourcePattern) returns (c: real)
    ensures c == ClassificationConfidence(cpu, memory)
  {
    c := 1.0;
    var cpuCV := cpu.coefficientOfVariation;
    var memCV := memory.coefficientOfVariation;
    if AbsReal(cpuCV - memCV) > 0.5 {
      c := c * 0.7;
    }
    if cpu.trendDirection != memory.trendDirection && cpu.trendStrength > 0.5 && memory.trendStrength > 0.5 {
      c := c * 0.8;
    }
    if cpuCV < 0.1 && memCV < 0.1 {
      c := c * 1.2;
    }
    if cpuCV > 0.8 && memCV > 0.8 {
      c := c * 1.1;
    }
    c := MinReal(MaxReal(c, 0.1), 1.0);
  }

  /**
   * The lower clamp never applies: the factors 0.7 and 1.2 exclude each
   * other, so the product is at least 0.7 · 0.8 = 0.56.
   */
  lemma {:induction false} ConfidenceAtLeast(cpu: ResourcePattern, memory: ResourcePattern)
    ensures ClassificationConfidence(cpu, memory) >= 0.56
    ensures ConfidenceProduct(cpu, memory) >= 0.56
  {
  }

  /** Two very steady patterns (CVs in [0, 0.1)) without opposed strong trends give full confidence. */
  lemma {:induction false} SteadyPatternsFullConfidence(cpu: ResourcePattern, memory: ResourcePattern)
    requires 0.0 <= cpu.coefficientOfVariation && 0.0 <= memory.coefficientOfVariation
    requires cpu.coefficientOfVariation < 0.1 && memory.coefficientOfVariation < 0.1
    requires !(cpu.trendDirection != memory.trendDirection && cpu.trendStrength > 0.5 && memory.trendStrength > 0.5)
    ensures ClassificationConfidence(cpu, memory) == 1.0
  {
  }

  /** For CVs that are not negative, as a pattern's are, CVs more than 0.5 apart cap the confidence at 0.7 · 1.1 = 0.77. */
  lemma {:induction false} InconsistentVariabilityConfidence(cpu: ResourcePattern, memory: ResourcePattern)
    requires 0.0 <= cpu.coefficientOfVariation && 0.0 <= memory.coefficientOfVariation
    requires AbsReal(cpu.coefficientOfVariation - memory.coefficientOfVariation) > 0.5
    ensures ClassificationConfidence(cpu, memory) <= 0.77
  {
  }

  // ---------------------------------------------------------------
  // generateClassificationRecommendations
  // ---------------------------------------------------------------

  const StableAdvice := ClassificationRecommendation("Resource Optimization", "Medium",
    "Stable workload with predictable resource usage",
    "Right-size resources based on 95th percentile with small safety margin (10-15%)")
  const BurstyScalingAdvice := ClassificationRecommendation("Scaling Strategy", "High",
    "Bursty workload with significant resource spikes",
    "Implement Horizontal Pod Autoscaler (HPA) and consider larger safety margins (25-30%)")
  const BurstyLimitsAdvice := ClassificationRecommendation("Resource Limits", "High",
    "Set appropriate resource limits to handle spikes",
    "Set limits based on 99th percentile to prevent resource starvation")
  const PeriodicAdvice := ClassificationRecommendation("Predictive Scaling", "High",
    "Workload shows periodic usage patterns",
    "Consider implementing Vertical Pod Autoscaler (VPA) or scheduled scaling")
  const GrowingAdvice := ClassificationRecommendation("Growth Planning", "High",
    "Workload shows increasing resource usage trend",
    "Monitor growth rate and plan for capacity increases. Consider implementing HPA.")
  const ShrinkingAdvice := ClassificationRecommendation("Resource Reduction", "Medium",
    "Workload shows decreasing resource usage trend",
    "Gradually reduce resource allocations and monitor for performance impact")
  const UnpredictableAdvice := ClassificationRecommendation("Monitoring", "High",
    "Unpredictable workload requires careful monitoring",
    "Implement robust monitoring and alerting. Use conservative resource limits.")
  const CpuManagementAdvice := ClassificationRecommendation("CPU Management", "Medium",
    "High CPU usage variability detected",
    "Consider CPU-based HPA or review application efficiency")
  const MemoryManagementAdvice := ClassificationRecommendation("Memory Management", "High",
    "Variable memory usage may indicate memory leaks or inefficient allocation",
    "Review application memory management and consider memory-based monitoring")

  /** The items the class itself calls for. */
  function ClassAdvice(c: WorkloadClass): seq<ClassificationRecommendation>
  {
    match c
    case Stable => [StableAdvice]
    case Bursty => [BurstyScalingAdvice, BurstyLimitsAdvice]
    case Periodic => [PeriodicAdvice]
    case Growing => [GrowingAdvice]
    case Shrinking => [ShrinkingAdvice]
    case Unpredictable => [UnpredictableAdvice]
  }

  /** The class's items, then a CPU item for a CPU CV above 0.5, then a memory item for a memory CV above 0.3. */
  function ClassificationRecommendations(c: WorkloadClass, cpuCV: real, memCV: real): seq<ClassificationRecommendation>
  {
    ClassAdvice(c)
      + (if cpuCV > 0.5 then [CpuManagementAdvice] else [])
      + (if memCV > 0.3 then [MemoryManagementAdvice] else [])
  }

  method GenerateClassificationRecommendations(classification: WorkloadClassification)
    returns (recommendations: seq<ClassificationRecommendation>)
    ensures recommendations == ClassificationRecommendations(
      classification.workloadClass,
      classification.cpuPattern.coefficientOfVariation,
      classification.memoryPattern.coefficientOfVariation)
  {
    recommendations := [];
    match classification.workloadClass {
      case Stable =>
        recommendations := recommendations + [StableAdvice];
      case Bursty =>
        recommendations := recommendations + [BurstyScalingAdvice];
        recommendations := recommendations + [BurstyLimitsAdvice];
      case Periodic =>
        recommendations := recommendations + [PeriodicAdvice];
      case Growing =>
        recommendations := recommendations + [GrowingAdvice];
      case Shrinking =>
        recommendations := recommendations + [ShrinkingAdvice];
      case Unpredictable =>
        recommendations := recommendations + [UnpredictableAdvice];
    }
    if classification.cpuPattern.coefficientOfVariation > 0.5 {
      recommendations := recommendations + [CpuManagementAdvice];
    }
    if classification.memoryPattern.coefficientOfVariation > 0.3 {
      recommendations := recommendations + [MemoryManagementAdvice];
    }
  }

  predicate Complete(r: ClassificationRecommendation)
  {
    |r.recommendationType| > 0 && |r.priority| > 0 && |r.description| > 0 && |r.action| > 0
  }

  /** Two items for Bursty and one for every other class, plus one per variability item. */
  lemma {:induction false} RecommendationCount(c: WorkloadClass, cpuCV: real, memCV: real)
    ensures |ClassificationRecommendations(c, cpuCV, memCV)|
      == (if c == Bursty then 2 else 1) + (if cpuCV > 0.5 then 1 else 0) + (if memCV > 0.3 then 1 else 0)
  {
  }

  /** The CPU item appears exactly for a CPU CV above 0.5, the memory item exactly for a memory CV above 0.3. */
  lemma {:induction false} VariabilityItems(c: WorkloadClass, cpuCV: real, memCV: real)
    ensures CpuManagementAdvice in ClassificationRecommendations(c, cpuCV, memCV) <==> cpuCV > 0.5
    ensures MemoryManagementAdvice in ClassificationRecommendations(c, cpuCV, memCV) <==> memCV > 0.3
  {
  }

  /** No item has an empty field. */
  lemma {:induction false} RecommendationsComplete(c: WorkloadClass, cpuCV: real, memCV: real)
    ensures forall i :: 0 <= i < |ClassificationRecommendations(c, cpuCV, memCV)| ==>
      Complete(ClassificationRecommendations(c, cpuCV, memCV)[i])
  {
  }
}
