/**
 * The recommendation engine of recommendation_engine.go: per pod, the CPU
 * and memory samples are sorted, a percentile of them is raised by a
 * safety margin and clamped to the configured bounds, the result is
 * quantised to millicores or bytes, and the pod is recommended only when
 * both series are steady enough. The AdvancedAnalyzer summaries of the
 * same file follow at the end.
 */
module Engine {
  import opened Common
  import opened Types
  import opened Stats
  import opened Cost

  /** The two usage series the engine analyses; the Go code has one function for each. */
  datatype Usage = CpuUsage | MemoryUsage

  function ResourceOf(u: Usage): ResourceName
  {
    if u == CpuUsage then Cpu else Memory
  }

  function UsageName(u: Usage): string
  {
    if u == CpuUsage then "CPU" else "memory"
  }

  datatype AnalysisError = InsufficientData(usage: Usage, points: int, required: int)

  datatype PodError = CpuAnalysisFailed(cpu: AnalysisError) | MemoryAnalysisFailed(memory: AnalysisError)

  datatype EngineError = NoPodMetrics

  /** ResourceRecommendation; its Request is never set by the engine and is left out. */
  datatype ResourceRecommendation = ResourceRecommendation(
    limit: int,
    percentile: real,
    confidence: int,
    dataPoints: int,
    reason: string)

  // ---------------------------------------------------------------
  // Percentile and confidence
  // ---------------------------------------------------------------

  /**
   * calculatePercentile: 0 for no samples, the first sample at or below
   * the 0th percentile, the last at or above the 100th, and the linear
   * interpolation between the neighbouring order statistics otherwise.
   */
  function CalculatePercentile(sortedValues: seq<real>, percentile: real): (r: real)
    ensures |sortedValues| == 0 ==> r == 0.0
    ensures |sortedValues| > 0 && percentile <= 0.0 ==> r == sortedValues[0]
    ensures |sortedValues| > 0 && percentile >= 100.0 ==> r == sortedValues[|sortedValues| - 1]
    ensures 0.0 < percentile < 100.0 && |sortedValues| > 0 ==> r == Interpolate(sortedValues, percentile)
    ensures |sortedValues| > 0 && Sorted(sortedValues) ==> sortedValues[0] <= r <= sortedValues[|sortedValues| - 1]
  {
    if |sortedValues| == 0 then 0.0
    else if percentile <= 0.0 then sortedValues[0]
    else if percentile >= 100.0 then sortedValues[|sortedValues| - 1]
    else Interpolate(sortedValues, percentile)
  }

  /** The test values: 1 to 10 give 5.5, 9.1 and 9.55 at the 50th, 90th and 95th percentile. */
  lemma {:induction false} PercentileExamples()
    ensures CalculatePercentile([1.0, 2.0, 3.0, 4.0, 5.0, 6.0, 7.0, 8.0, 9.0, 10.0], 50.0) == 5.5
    ensures CalculatePercentile([1.0, 2.0, 3.0, 4.0, 5.0, 6.0, 7.0, 8.0, 9.0, 10.0], 90.0) == 9.1
    ensures CalculatePercentile([1.0, 2.0, 3.0, 4.0, 5.0, 6.0, 7.0, 8.0, 9.0, 10.0], 95.0) == 9.55
  {
    assert Rank(10, 50.0) == 4.5 && (4.5).Floor == 4 && Ceil(4.5) == 5;
    assert Rank(10, 90.0) == 8.1 && (8.1).Floor == 8 && Ceil(8.1) == 9;
    assert Rank(10, 95.0) == 8.55 && (8.55).Floor == 8 && Ceil(8.55) == 9;
  }

  /** The coefficient of variation as calculateConfidence takes it: 0 unless the mean is positive. */
  function CoefficientOfVariation(values: seq<real>, sqrt: SqrtFn): (cv: real)
    ensures Mean(values) <= 0.0 ==> cv == 0.0
    ensures 0.0 <= cv
  {
    var mean := Mean(values);
    if mean > 0.0 then StdDev(values, mean, sqrt) / mean else 0.0
  }

  /** The confidence band of a coefficient of variation, before the boost for the number of samples. */
  function BandScore(cv: real): (score: int)
    ensures cv > 0.5 ==> 30 <= score <= 49
    ensures 0.3 < cv <= 0.5 ==> 70 <= score <= 94
    ensures 0.1 < cv <= 0.3 ==> 95 <= score <= 99
    ensures cv <= 0.1 ==> score == 100
  {
    if cv > 0.5 then
      var x := 20.0 * (1.0 - MinReal(cv - 0.5, 0.5) / 0.5);
      assert 0.0 <= x < 20.0;
      30 + Trunc(x)
    else if cv > 0.3 then
      var x := 25.0 * (1.0 - (cv - 0.3) / 0.2);
      assert 0.0 <= x < 25.0;
      70 + Trunc(x)
    else if cv > 0.1 then
      var x := 5.0 * (1.0 - (cv - 0.1) / 0.2);
      assert 0.0 <= x < 5.0;
      95 + Trunc(x)
    else 100
  }

  /** The boost for the number of samples: one percent per hundred samples, at most 10%. */
  function DataPointBoost(n: nat): real
  {
    MinReal(n as real / 100.0, 0.1)
  }

  /** A score raised by the boost and capped at 100. */
  function Boosted(score: int, n: nat): int
  {
    Trunc(MinReal(score as real * (1.0 + DataPointBoost(n)), 100.0))
  }

  /** calculateConfidence: 50 for fewer than two samples, else the boosted band of the variation. */
  function Confidence(values: seq<real>, sqrt: SqrtFn): int
  {
    if |values| < 2 then 50 else Boosted(BandScore(CoefficientOfVariation(values, sqrt)), |values|)
  }

  lemma {:induction false} BoostBounds(score: int, n: nat)
    requires 0 <= score <= 100
    ensures score <= Boosted(score, n) <= 100
    ensures Boosted(score, n) as real <= score as real * 1.1
  {
    var b := DataPointBoost(n);
    var y := score as real * (1.0 + b);
    assert score as real <= y <= score as real * 1.1 by {
      NonNegativeProduct(score as real, b);
      NonNegativeProduct(score as real, 0.1 - b);
    }
    TruncBetween(MinReal(y, 100.0), score, 100);
  }

  /** With two samples or more the confidence lies between 30 and 100. */
  lemma {:induction false} ConfidenceBounds(values: seq<real>, sqrt: SqrtFn)
    ensures |values| < 2 ==> Confidence(values, sqrt) == 50
    ensures 30 <= Confidence(values, sqrt) <= 100
  {
    if |values| >= 2 {
      BoostBounds(BandScore(CoefficientOfVariation(values, sqrt)), |values|);
    }
  }

  /** Steady samples, and samples whose mean is not positive, get full confidence. */
  lemma {:induction false} ConfidenceFull(values: seq<real>, sqrt: SqrtFn)
    requires |values| >= 2
    requires CoefficientOfVariation(values, sqrt) <= 0.1 || Mean(values) <= 0.0
    ensures Confidence(values, sqrt) == 100
  {
    BoostBounds(100, |values|);
  }

  /** Two samples or more reach a confidence of 70 exactly when the variation is at most 0.5. */
  lemma {:induction false} ConfidenceGate(values: seq<real>, sqrt: SqrtFn)
    requires |values| >= 2
    ensures Confidence(values, sqrt) >= 70 <==> CoefficientOfVariation(values, sqrt) <= 0.5
  {
    var score := BandScore(CoefficientOfVariation(values, sqrt));
    BoostBounds(score, |values|);
  }

  /** calculateConfidence over the accumulator loops of calculateMean and calculateStandardDeviation. */
  method CalculateConfidence(values: seq<real>, sqrt: SqrtFn) returns (confidence: int)
    ensures confidence == Confidence(values, sqrt)
  {
    if |values| < 2 {
      return 50;
    }
    var mean := CalculateMean(values);
    var stdDev := CalculateStandardDeviation(values, mean, sqrt);
    var cv := 0.0;
    if mean > 0.0 {
      cv := stdDev / mean;
    }
    assert cv == CoefficientOfVariation(values, sqrt);
    var score := BandScore(cv);
    confidence := Boosted(score, |values|);
  }

  // ---------------------------------------------------------------
  // Limits
  // ---------------------------------------------------------------

  /** The percentile a series is judged at: the configured one when positive, else the 95th. */
  function EffectivePercentile(u: Usage, t: ResourceThresholds): (p: int)
    ensures p > 0
  {
    var configured := if u == CpuUsage then t.cpuUtilizationPercentile else t.memoryUtilizationPercentile;
    if configured > 0 then configured else 95
  }

  function MinBound(u: Usage, t: ResourceThresholds): int
  {
    if u == CpuUsage then t.minCPU else t.minMemory
  }

  function MaxBound(u: Usage, t: ResourceThresholds): int
  {
    if u == CpuUsage then t.maxCPU else t.maxMemory
  }

  /** A value raised by a safety margin in percent. */
  function Raise(value: real, margin: int): real
  {
    value * (1.0 + margin as real / 100.0)
  }

  /**
   * The min-then-max clamp: a non-zero minimum raises the limit, then a
   * non-zero maximum lowers it, so the maximum wins when the two cross.
   */
  function ClampLimit(limit: real, minQ: int, maxQ: int, name: ResourceName): (r: real)
    ensures minQ == 0 && maxQ == 0 ==> r == limit
    ensures maxQ != 0 ==> r <= ApproximateFloat(name, maxQ)
    ensures minQ != 0 && (maxQ == 0 || minQ <= maxQ) ==> ApproximateFloat(name, minQ) <= r
    ensures minQ != 0 && maxQ != 0 && minQ > maxQ ==> r == ApproximateFloat(name, maxQ)
    ensures (minQ == 0 || ApproximateFloat(name, minQ) <= limit) && (maxQ == 0 || limit <= ApproximateFloat(name, maxQ))
      ==> r == limit
    ensures minQ != 0 && limit < ApproximateFloat(name, minQ) && (maxQ == 0 || minQ <= maxQ)
      ==> r == ApproximateFloat(name, minQ)
    ensures maxQ != 0 && ApproximateFloat(name, maxQ) < limit && (minQ == 0 || ApproximateFloat(name, minQ) <= limit)
      ==> r == ApproximateFloat(name, maxQ)
  {
    var lo := ApproximateFloat(name, minQ);
    var hi := ApproximateFloat(name, maxQ);
    var raised := if minQ != 0 && limit < lo then lo else limit;
    if maxQ != 0 && raised > hi then hi else raised
  }

  /** A clamped limit stays within the bounds once quantised, as both are whole millicores or bytes. */
  lemma {:induction false} QuantisedClamp(u: Usage, limit: real, lo: int, hi: int)
    ensures var q := Quantise(u, ClampLimit(limit, lo, hi, ResourceOf(u)));
      && (hi != 0 ==> q <= hi)
      && (lo != 0 && (hi == 0 || lo <= hi) ==> lo <= q)
      && (lo != 0 && hi != 0 && lo > hi ==> q == hi)
  {
    var r := ClampLimit(limit, lo, hi, ResourceOf(u));
    var x := if u == CpuUsage then r * 1000.0 else r;
    assert Quantise(u, r) == Trunc(x);
    if hi != 0 {
      assert x <= hi as real;
    }
    if lo != 0 && (hi == 0 || lo <= hi) {
      assert lo as real <= x;
    }
  }

  /** The clamp as the analysis applies it: the minimum first, then the maximum. */
  method ClampInSteps(raised: real, minQ: int, maxQ: int, name: ResourceName) returns (limit: real)
    ensures limit == ClampLimit(raised, minQ, maxQ, name)
  {
    limit := raised;
    if minQ != 0 {
      var lo := ApproximateFloat(name, minQ);
      if limit < lo {
        limit := lo;
      }
    }
    if maxQ != 0 {
      var hi := ApproximateFloat(name, maxQ);
      if limit > hi {
        limit := hi;
      }
    }
  }

  /** The limit as a quantity: int64 of the cores times 1000 as millicores, or of the bytes. */
  function Quantise(u: Usage, limit: real): int
  {
    if u == CpuUsage then Trunc(limit * 1000.0) else Trunc(limit)
  }

  /** A bound read back as a float and quantised again is the bound itself. */
  lemma {:induction false} QuantiseBound(u: Usage, q: int)
    ensures Quantise(u, ApproximateFloat(ResourceOf(u), q)) == q
  {
    var x := if u == CpuUsage then ApproximateFloat(ResourceOf(u), q) * 1000.0 else ApproximateFloat(ResourceOf(u), q);
    assert x == q as real;
    TruncBetween(x, q, q);
  }

  /** The request derived from a limit quantity: the limit as a float, times the multiplier, truncated. */
  function RequestFor(u: Usage, limitQ: int, multiplier: real): int
  {
    if u == CpuUsage then Trunc(ApproximateFloat(Cpu, limitQ) * multiplier * 1000.0)
    else Trunc(ApproximateFloat(Memory, limitQ) as real * multiplier)
  }

  /** With a multiplier in [0, 1] a non-negative limit gives a request between 0 and the limit. */
  lemma {:induction false} RequestWithinLimit(u: Usage, limitQ: int, multiplier: real)
    requires 0.0 <= multiplier <= 1.0 && 0 <= limitQ
    ensures 0 <= RequestFor(u, limitQ, multiplier) <= limitQ
  {
    var l := limitQ as real;
    var x := l * multiplier;
    NonNegativeProduct(l, multiplier);
    NonNegativeProduct(l, 1.0 - multiplier);
    ProductDistributes(l, multiplier);
    if u == CpuUsage {
      MilliRoundTrip(l, multiplier);
    }
    TruncBetween(x, 0, limitQ);
  }

  /** With a multiplier strictly between 0 and 1, a negative limit gives a request above it. */
  lemma {:induction false} RequestAboveNegativeLimit(u: Usage, limitQ: int, multiplier: real)
    requires 0.0 < multiplier < 1.0 && limitQ < 0
    ensures RequestFor(u, limitQ, multiplier) > limitQ
  {
    var l := limitQ as real;
    var x := l * multiplier;
    NegativeProduct(l, 1.0 - multiplier);
    ProductDistributes(l, multiplier);
    if u == CpuUsage {
      MilliRoundTrip(l, multiplier);
    }
    TruncAboveNegative(x, limitQ);
  }

  lemma {:induction false} ProductDistributes(l: real, m: real)
    ensures l * (1.0 - m) == l - l * m
  {
  }

  lemma {:induction false} MilliRoundTrip(l: real, m: real)
    ensures (l / 1000.0) * m * 1000.0 == l * m
  {
  }

  lemma {:induction false} TruncAboveNegative(x: real, n: int)
    requires n < 0 && n as real < x
    ensures Trunc(x) > n
  {
  }

  function BasedOn(percentile: int, points: int): string
  {
    "Based on " + IntToString(percentile) + "th percentile of " + IntToString(points) + " data points"
  }

  function MarginSentence(margin: int): string
  {
    "Applied " + IntToString(margin) + "% safety margin."
  }

  const ReasonHead: string := "Recommendations based on historical usage analysis. "

  /** The loop that copies the sample values of a history into a fresh slice. */
  method CopyValues(history: seq<ResourceUsage>) returns (a: array<real>)
    ensures fresh(a)
    ensures a[..] == Values(history)
  {
    a := new real[|history|];
    var i := 0;
    while i < |history|
      invariant 0 <= i <= |history|
      invariant a[..i] == Values(history)[..i]
    {
      a[i] := history[i].value;
      i := i + 1;
    }
  }

  /** The placeholder current requests the engine prices its recommendation against: 100m CPU and 128Mi. */
  const PlaceholderCurrent: ResourceRequirements := ResourceRequirements(map[Cpu := 100, Memory := 134217728], map[])

  // ---------------------------------------------------------------
  // The engine
  // ---------------------------------------------------------------

  datatype RecommendationEngine = RecommendationEngine(
    defaultSafetyMargin: int,
    defaultConfidenceThreshold: int,
    minDataPoints: int,
    cpuRequestMultiplier: real,
    memoryRequestMultiplier: real)
  {
    /** The safety margin in percent: the configured one when positive, else the default. */
    function EffectiveMargin(t: ResourceThresholds): (m: int)
      ensures t.safetyMargin > 0 ==> m == t.safetyMargin
      ensures t.safetyMargin <= 0 ==> m == defaultSafetyMargin
    {
      if t.safetyMargin > 0 then t.safetyMargin else defaultSafetyMargin
    }

    function Multiplier(u: Usage): real
    {
      if u == CpuUsage then cpuRequestMultiplier else memoryRequestMultiplier
    }

    /** The limit before quantisation: the percentile raised by the margin, then clamped. */
    function RecommendedLimit(u: Usage, sortedValues: seq<real>, t: ResourceThresholds): real
    {
      var percentileValue := CalculatePercentile(sortedValues, EffectivePercentile(u, t) as real);
      var raised := Raise(percentileValue, EffectiveMargin(t));
      ClampLimit(raised, MinBound(u, t), MaxBound(u, t), ResourceOf(u))
    }

    /** analyzeCPUUsage / analyzeMemoryUsage on the values of a usage history. */
    function Analysis(u: Usage, values: seq<real>, t: ResourceThresholds, sqrt: SqrtFn)
      : (r: Result<ResourceRecommendation, AnalysisError>)
      ensures r.Err? <==> |values| < minDataPoints
      ensures r.Err? ==> r.error == InsufficientData(u, |values|, minDataPoints)
      ensures r.Ok? ==> r.value.dataPoints == |values| && r.value.confidence == Confidence(SortAscending(values), sqrt)
    {
      if |values| < minDataPoints then Err(InsufficientData(u, |values|, minDataPoints))
      else
        var sortedValues := SortAscending(values);
        var percentile := EffectivePercentile(u, t);
        Ok(ResourceRecommendation(
          limit := Quantise(u, RecommendedLimit(u, sortedValues, t)),
          percentile := CalculatePercentile(sortedValues, percentile as real),
          confidence := Confidence(sortedValues, sqrt),
          dataPoints := |values|,
          reason := BasedOn(percentile, |values|)))
    }

    /**
     * The percentile of the sorted samples, raised by the safety margin and
     * clamped, as the analysis reassigns recommendedLimit step by step.
     */
    method LimitOf(u: Usage, values: seq<real>, t: ResourceThresholds)
      returns (percentile: int, percentileValue: real, recommendedLimit: real)
      ensures percentile == EffectivePercentile(u, t)
      ensures percentileValue == CalculatePercentile(values, percentile as real)
      ensures recommendedLimit == RecommendedLimit(u, values, t)
    {
      percentile := 95;
      var configured := if u == CpuUsage then t.cpuUtilizationPercentile else t.memoryUtilizationPercentile;
      if configured > 0 {
        percentile := configured;
      }
      percentileValue := CalculatePercentile(values, percentile as real);
      var safetyMargin := defaultSafetyMargin;
      if t.safetyMargin > 0 {
        safetyMargin := t.safetyMargin;
      }
      assert safetyMargin == EffectiveMargin(t);
      recommendedLimit := ClampInSteps(Raise(percentileValue, safetyMargin), MinBound(u, t), MaxBound(u, t), ResourceOf(u));
    }

    /**
     * The usage analysis: fewer samples than the minimum is an error with
     * confidence 0; otherwise the samples are copied, sorted in place and
     * analysed.
     */
    method AnalyzeUsage(u: Usage, history: seq<ResourceUsage>, t: ResourceThresholds, sqrt: SqrtFn)
      returns (r: Result<ResourceRecommendation, AnalysisError>, confidence: int)
      ensures r == Analysis(u, Values(history), t, sqrt)
      ensures r.Err? ==> confidence == 0
      ensures r.Ok? ==> confidence == r.value.confidence
    {
      if |history| < minDataPoints {
        return Err(InsufficientData(u, |history|, minDataPoints)), 0;
      }
      var a := CopyValues(history);
      SortFloat64s(a);
      var values := a[..];
      assert values == SortAscending(Values(history));

      var percentile, percentileValue, recommendedLimit := LimitOf(u, values, t);
      confidence := CalculateConfidence(values, sqrt);
      var limit := if u == CpuUsage then Trunc(recommendedLimit * 1000.0) else Trunc(recommendedLimit);
      assert limit == Quantise(u, RecommendedLimit(u, values, t));
      r := Ok(ResourceRecommendation(limit, percentileValue, confidence, |history|, BasedOn(percentile, |history|)));
    }

    /**
     * buildReasonString: the fixed opening, the CPU and memory reasons when
     * present, and the effective safety margin.
     */
    function BuildReasonString(cpuRec: Option<ResourceRecommendation>, memRec: Option<ResourceRecommendation>, t: ResourceThresholds)
      : (s: string)
      ensures HasPrefix(s, ReasonHead)
      ensures HasSuffix(s, MarginSentence(EffectiveMargin(t)))
    {
      var reasons := (if cpuRec.Some? then ["CPU: " + cpuRec.value.reason] else [])
        + (if memRec.Some? then ["Memory: " + memRec.value.reason] else []);
      var body := if |reasons| > 0 then reasons[0] + ". " + (if |reasons| > 1 then reasons[1] + ". " else "") else "";
      var s := ReasonHead + body + MarginSentence(EffectiveMargin(t));
      assert s[..|ReasonHead|] == ReasonHead;
      assert s[|s| - |MarginSentence(EffectiveMargin(t))|..] == MarginSentence(EffectiveMargin(t));
      s
    }

    /** The reason text determines the effective margin it was built with. */
    lemma {:induction false} ReasonNamesMargin(cpuRec: Option<ResourceRecommendation>, memRec: Option<ResourceRecommendation>,
                            t1: ResourceThresholds, t2: ResourceThresholds)
      requires BuildReasonString(cpuRec, memRec, t1) == BuildReasonString(cpuRec, memRec, t2)
      ensures EffectiveMargin(t1) == EffectiveMargin(t2)
    {
      var s := BuildReasonString(cpuRec, memRec, t1);
      var x1 := IntToString(EffectiveMargin(t1));
      var x2 := IntToString(EffectiveMargin(t2));
      IntToStringChars(EffectiveMargin(t1));
      IntToStringChars(EffectiveMargin(t2));
      if |x1| == |x2| {
        var m1 := MarginSentence(EffectiveMargin(t1));
        var m2 := MarginSentence(EffectiveMargin(t2));
        assert m1 == s[|s| - |m1|..] == m2;
        assert x1 == m1[8..8 + |x1|] && x2 == m2[8..8 + |x2|];
        IntToStringInjective(EffectiveMargin(t1), EffectiveMargin(t2));
      } else if |x1| < |x2| {
        MarginSentencesDiffer(s, x1, x2);
      } else {
        MarginSentencesDiffer(s, x2, x1);
      }
    }

    /**
     * When a text ends in the margin sentences of two renderings of
     * different lengths, the longer rendering holds the space after "Applied".
     */
    static lemma MarginSentencesDiffer(s: string, x1: string, x2: string)
      requires |x1| < |x2|
      requires HasSuffix(s, "Applied " + x1 + "% safety margin.")
      requires HasSuffix(s, "Applied " + x2 + "% safety margin.")
      ensures x2[|x2| - |x1| - 1] == ' '
    {
      var m1 := "Applied " + x1 + "% safety margin.";
      var m2 := "Applied " + x2 + "% safety margin.";
      var d := |x2| - |x1|;
      assert m1 == s[|s| - |m1|..] == m2[d..];
      assert m1[7] == ' ' && m2[d + 7] == x2[d - 1];
    }

    /** generatePodRecommendation: an analysis error ends the pod, low confidence skips it. */
    function PodOutcome(pod: PodMetrics, t: ResourceThresholds, sqrt: SqrtFn): Result<Option<PodRecommendation>, PodError>
    {
      match Analysis(CpuUsage, Values(pod.cpuUsageHistory), t, sqrt)
      case Err(e) => Err(CpuAnalysisFailed(e))
      case Ok(cpuRec) =>
        match Analysis(MemoryUsage, Values(pod.memUsageHistory), t, sqrt)
        case Err(e) => Err(MemoryAnalysisFailed(e))
        case Ok(memRec) =>
          var overall := Min(cpuRec.confidence, memRec.confidence);
          if overall < defaultConfidenceThreshold then Ok(None)
          else Ok(Some(RecommendationFor(pod, cpuRec, memRec, overall, t)))
    }

    /** The pod recommendation built from the two analyses. */
    function RecommendationFor(pod: PodMetrics, cpuRec: ResourceRecommendation, memRec: ResourceRecommendation,
                               overall: int, t: ResourceThresholds): PodRecommendation
    {
      var recommended := ResourceRequirements(
        requests := map[Cpu := RequestFor(CpuUsage, cpuRec.limit, cpuRequestMultiplier),
                        Memory := RequestFor(MemoryUsage, memRec.limit, memoryRequestMultiplier)],
        limits := map[Cpu := cpuRec.limit, Memory := memRec.limit]);
      PodRecommendation(
        podReference := PodReference(pod.podName, pod.namespace, "", ""),
        currentResources := NoRequirements,
        recommendedResources := recommended,
        reason := BuildReasonString(Some(cpuRec), Some(memRec), t),
        confidence := overall,
        potentialSavings := NewCostCalculator().CalculateSavings(PlaceholderCurrent, recommended),
        applied := false,
        appliedTime := None)
    }

    method GeneratePodRecommendation(pod: PodMetrics, t: ResourceThresholds, sqrt: SqrtFn)
      returns (r: Result<Option<PodRecommendation>, PodError>)
      ensures r == PodOutcome(pod, t, sqrt)
    {
      var cpuRec, cpuConfidence := AnalyzeUsage(CpuUsage, pod.cpuUsageHistory, t, sqrt);
      if cpuRec.Err? {
        return Err(CpuAnalysisFailed(cpuRec.error));
      }
      var memRec, memoryConfidence := AnalyzeUsage(MemoryUsage, pod.memUsageHistory, t, sqrt);
      if memRec.Err? {
        return Err(MemoryAnalysisFailed(memRec.error));
      }
      var overallConfidence := Min(cpuConfidence, memoryConfidence);
      if overallConfidence < defaultConfidenceThreshold {
        return Ok(None);
      }
      r := Ok(Some(RecommendationFor(pod, cpuRec.value, memRec.value, overallConfidence, t)));
    }

    /** The recommendations of the pods in order, skipping the pods that fail or are not confident enough. */
    function Recommendations(pods: seq<PodMetrics>, t: ResourceThresholds, sqrt: SqrtFn): seq<PodRecommendation>
      decreases |pods|
    {
      if pods == [] then []
      else
        var outcome := PodOutcome(pods[|pods| - 1], t, sqrt);
        Recommendations(pods[..|pods| - 1], t, sqrt)
          + (if outcome.Ok? && outcome.value.Some? then [outcome.value.value] else [])
    }

    /** GenerateRecommendations: an error for no pods, else the recommendations of the pods in order. */
    method GenerateRecommendations(workloadMetrics: WorkloadMetrics, t: ResourceThresholds, sqrt: SqrtFn)
      returns (r: Result<seq<PodRecommendation>, EngineError>)
      ensures r.Err? <==> |workloadMetrics.pods| == 0
      ensures r.Ok? ==> r.value == Recommendations(workloadMetrics.pods, t, sqrt)
    {
      var pods := workloadMetrics.pods;
      if |pods| == 0 {
        return Err(NoPodMetrics);
      }
      var recommendations: seq<PodRecommendation> := [];
      var i := 0;
      while i < |pods|
        invariant 0 <= i <= |pods|
        invariant recommendations == Recommendations(pods[..i], t, sqrt)
      {
        assert pods[..i + 1][..i] == pods[..i];
        var recommendation := GeneratePodRecommendation(pods[i], t, sqrt);
        i := i + 1;
        if recommendation.Err? {
          continue;
        }
        if recommendation.value.Some? {
          recommendations := recommendations + [recommendation.value.value];
        }
      }
      assert pods[..|pods|] == pods;
      r := Ok(recommendations);
    }

    // -------------------------------------------------------------
    // Properties of the engine
    // -------------------------------------------------------------

    /** Too few CPU samples, or enough CPU and too few memory samples, is an error for the pod. */
    lemma {:induction false} InsufficientSamplesFail(pod: PodMetrics, t: ResourceThresholds, sqrt: SqrtFn)
      ensures |pod.cpuUsageHistory| < minDataPoints ==>
        PodOutcome(pod, t, sqrt) == Err(CpuAnalysisFailed(InsufficientData(CpuUsage, |pod.cpuUsageHistory|, minDataPoints)))
      ensures |pod.cpuUsageHistory| >= minDataPoints && |pod.memUsageHistory| < minDataPoints ==>
        PodOutcome(pod, t, sqrt) == Err(MemoryAnalysisFailed(InsufficientData(MemoryUsage, |pod.memUsageHistory|, minDataPoints)))
      ensures PodOutcome(pod, t, sqrt).Ok? <==>
        |pod.cpuUsageHistory| >= minDataPoints && |pod.memUsageHistory| >= minDataPoints
    {
    }

    /** A recommendation is made only with confidence at least the threshold, for the pod's name and namespace. */
    lemma {:induction false} RecommendationShape(pod: PodMetrics, t: ResourceThresholds, sqrt: SqrtFn)
      requires PodOutcome(pod, t, sqrt).Ok? && PodOutcome(pod, t, sqrt).value.Some?
      ensures var rec := PodOutcome(pod, t, sqrt).value.value;
        && rec.confidence >= defaultConfidenceThreshold
        && rec.podReference.name == pod.podName && rec.podReference.namespace == pod.namespace
        && rec.recommendedResources.limits.Keys == {Cpu, Memory}
        && rec.recommendedResources.requests.Keys == {Cpu, Memory}
        && !rec.applied
        && HasSuffix(rec.reason, MarginSentence(EffectiveMargin(t)))
    {
    }

    /**
     * Each limit lies within the configured bounds: at most a non-zero
     * maximum, at least a non-zero minimum that does not exceed it, and
     * exactly the maximum when the minimum does. Its value is the raised
     * percentile when that lies within the bounds, the minimum when the
     * raised percentile falls below it, and the maximum when it rises above.
     */
    lemma {:induction false} LimitWithinBounds(u: Usage, values: seq<real>, t: ResourceThresholds, sqrt: SqrtFn)
      requires Analysis(u, values, t, sqrt).Ok?
      ensures var limit := Analysis(u, values, t, sqrt).value.limit;
        && (MaxBound(u, t) != 0 ==> limit <= MaxBound(u, t))
        && (MinBound(u, t) != 0 && (MaxBound(u, t) == 0 || MinBound(u, t) <= MaxBound(u, t)) ==> MinBound(u, t) <= limit)
        && (MinBound(u, t) != 0 && MaxBound(u, t) != 0 && MinBound(u, t) > MaxBound(u, t) ==> limit == MaxBound(u, t))
      ensures var limit := Analysis(u, values, t, sqrt).value.limit;
        var raised := Raise(CalculatePercentile(SortAscending(values), EffectivePercentile(u, t) as real), EffectiveMargin(t));
        var lo := ApproximateFloat(ResourceOf(u), MinBound(u, t));
        var hi := ApproximateFloat(ResourceOf(u), MaxBound(u, t));
        && ((MinBound(u, t) == 0 || lo <= raised) && (MaxBound(u, t) == 0 || raised <= hi) ==> limit == Quantise(u, raised))
        && (MinBound(u, t) != 0 && raised < lo && (MaxBound(u, t) == 0 || MinBound(u, t) <= MaxBound(u, t)) ==> limit == MinBound(u, t))
        && (MaxBound(u, t) != 0 && hi < raised && (MinBound(u, t) == 0 || lo <= raised) ==> limit == MaxBound(u, t))
    {
      QuantisedClamp(u, RecommendedLimit(u, SortAscending(values), t), MinBound(u, t), MaxBound(u, t));
      QuantiseBound(u, MinBound(u, t));
      QuantiseBound(u, MaxBound(u, t));
    }

    /** The pod's gate: with enough samples, a pod is skipped exactly when a series varies by more than 0.5. */
    lemma {:induction false} GateIffVariable(pod: PodMetrics, t: ResourceThresholds, sqrt: SqrtFn)
      requires defaultConfidenceThreshold == 70 && minDataPoints >= 2
      requires |pod.cpuUsageHistory| >= minDataPoints && |pod.memUsageHistory| >= minDataPoints
      ensures PodOutcome(pod, t, sqrt) == Ok(None) <==>
        || CoefficientOfVariation(SortAscending(Values(pod.cpuUsageHistory)), sqrt) > 0.5
        || CoefficientOfVariation(SortAscending(Values(pod.memUsageHistory)), sqrt) > 0.5
    {
      ConfidenceGate(SortAscending(Values(pod.cpuUsageHistory)), sqrt);
      ConfidenceGate(SortAscending(Values(pod.memUsageHistory)), sqrt);
    }

    /** Recommendations over a concatenation of pod lists are the concatenation of the recommendations. */
    lemma {:induction false} RecommendationsAppend(a: seq<PodMetrics>, b: seq<PodMetrics>, t: ResourceThresholds, sqrt: SqrtFn)
      ensures Recommendations(a + b, t, sqrt) == Recommendations(a, t, sqrt) + Recommendations(b, t, sqrt)
      decreases |b|
    {
      if b == [] {
        assert a + b == a;
      } else {
        var b' := b[..|b| - 1];
        assert (a + b)[..|a + b| - 1] == a + b';
        assert (a + b)[|a + b| - 1] == b[|b| - 1];
        RecommendationsAppend(a, b', t, sqrt);
      }
    }

    /** Every recommendation is confident enough and names one of the pods; there are at most as many as pods. */
    lemma {:induction false} RecommendationsGated(pods: seq<PodMetrics>, t: ResourceThresholds, sqrt: SqrtFn)
      ensures |Recommendations(pods, t, sqrt)| <= |pods|
      ensures forall r :: r in Recommendations(pods, t, sqrt) ==>
        r.confidence >= defaultConfidenceThreshold && exists p :: p in pods && p.podName == r.podReference.name
      decreases |pods|
    {
      if pods != [] {
        var init := pods[..|pods| - 1];
        var last := pods[|pods| - 1];
        RecommendationsGated(init, t, sqrt);
        forall r | r in Recommendations(pods, t, sqrt)
          ensures r.confidence >= defaultConfidenceThreshold && exists p :: p in pods && p.podName == r.podReference.name
        {
          if r in Recommendations(init, t, sqrt) {
            var p :| p in init && p.podName == r.podReference.name;
            assert p in pods;
          } else {
            RecommendationShape(last, t, sqrt);
            assert last in pods;
          }
        }
      }
    }
  }

  /** The engine's defaults: a 20% margin, a confidence threshold of 70, 10 samples, requests at 80% and 90%. */
  function NewRecommendationEngine(): (e: RecommendationEngine)
    ensures e.minDataPoints == 10 && e.defaultConfidenceThreshold == 70 && e.defaultSafetyMargin == 20
    ensures 0.0 < e.cpuRequestMultiplier == 0.8 < 1.0 && 0.0 < e.memoryRequestMultiplier == 0.9 < 1.0
  {
    RecommendationEngine(20, 70, 10, 0.8, 0.9)
  }

  /** With the default engine, a pod's request is at most its limit exactly when the limit is not negative. */
  lemma {:induction false} DefaultRequestsWithinLimits(u: Usage, limitQ: int)
    ensures RequestFor(u, limitQ, NewRecommendationEngine().Multiplier(u)) <= limitQ <==> 0 <= limitQ
  {
    var m := NewRecommendationEngine().Multiplier(u);
    if 0 <= limitQ {
      RequestWithinLimit(u, limitQ, m);
    } else {
      RequestAboveNegativeLimit(u, limitQ, m);
    }
  }

  /** Without a configured margin the default engine's reason ends "Applied 20% safety margin.". */
  lemma {:induction false} DefaultMarginReason(cpuRec: Option<ResourceRecommendation>, memRec: Option<ResourceRecommendation>, t: ResourceThresholds)
    requires t.safetyMargin <= 0
    ensures HasSuffix(NewRecommendationEngine().BuildReasonString(cpuRec, memRec, t), "Applied 20% safety margin.")
  {
    var e := NewRecommendationEngine();
    assert e.EffectiveMargin(t) == 20;
    assert IntToString(20) == "20" by {
      assert NatToString(20) == NatToString(2) + [DigitChar(0)];
    }
    assert MarginSentence(20) == "Applied 20% safety margin.";
  }
}
