/**
 * The AdvancedAnalyzer of recommendation_engine.go: workload-wide
 * statistics per resource, a coarse classification of each long series by
 * its variation and its spikes, and workload-level advice. The divisions
 * stdDev/mean here are not guarded, so a zero mean yields an IEEE infinity
 * or NaN; `Quotient` keeps those outcomes.
 */
module AdvancedAnalysis {
  import opened Common
  import opened Types
  import opened Stats
  import opened Engine

  /** The value of a float64 division: a zero divisor gives an infinity, or NaN for 0/0. */
  datatype Quotient = Finite(value: real) | PosInfinity | NegInfinity | NotANumber

  function Divide(x: real, y: real): Quotient
  {
    if y != 0.0 then Finite(x / y)
    else if x > 0.0 then PosInfinity
    else if x < 0.0 then NegInfinity
    else NotANumber
  }

  /** `q > bound` in float64: NaN compares false with everything. */
  predicate Exceeds(q: Quotient, bound: real)
  {
    match q
    case Finite(v) => v > bound
    case PosInfinity => true
    case _ => false
  }

  datatype PatternType = Steady | Moderate | Variable

  datatype SpikePattern = NoSpikes | Occasional | Frequent

  /** The "Low" / "Medium" / "High" strings of priorities and impacts. */
  datatype Level = Low | Medium | High

  /** UsagePattern; its Description text is left out. */
  datatype UsagePattern = UsagePattern(
    podName: string,
    resourceType: string,
    patternType: PatternType,
    spikePattern: SpikePattern,
    confidence: int)

  datatype PodResourceAnalysis = PodResourceAnalysis(
    podName: string,
    min: real,
    max: real,
    mean: real,
    p50: real,
    p95: real,
    p99: real,
    standardDev: real,
    dataPoints: int)

  datatype ResourceAnalysis = ResourceAnalysis(
    resourceType: string,
    unit: string,
    totalDataPoints: int,
    workloadMin: real,
    workloadMax: real,
    workloadMean: real,
    workloadP50: real,
    workloadP95: real,
    workloadP99: real,
    workloadStdDev: real,
    podAnalyses: seq<PodResourceAnalysis>)

  /** WorkloadRecommendation; its Description text is left out. */
  datatype WorkloadRecommendation = WorkloadRecommendation(recommendationType: string, priority: Level, impact: Level)

  datatype WorkloadAnalysis = WorkloadAnalysis(
    workloadName: string,
    workloadType: string,
    namespace: string,
    analysisTime: int,
    totalPods: int,
    analysisWindow: int,
    cpuAnalysis: Option<ResourceAnalysis>,
    memoryAnalysis: Option<ResourceAnalysis>,
    usagePatterns: seq<UsagePattern>,
    recommendations: seq<WorkloadRecommendation>)

  datatype PatternsError = NoDataAvailable(resourceType: string)

  datatype WorkloadAnalysisError =
    | NoPodsProvided
    | CpuPatternsFailed(cpu: PatternsError)
    | MemoryPatternsFailed(memory: PatternsError)

  /** The resource names and units analyzeCPUPatterns and analyzeMemoryPatterns pass on. */
  const CpuType: string := "CPU"
  const MemoryType: string := "Memory"
  const CoresUnit: string := "cores"
  const BytesUnit: string := "bytes"

  /** The getter the analysis of one resource is given. */
  function History(u: Usage, pod: PodMetrics): seq<ResourceUsage>
  {
    if u == CpuUsage then pod.cpuUsageHistory else pod.memUsageHistory
  }

  // ---------------------------------------------------------------
  // analyzeTimeSeries
  // ---------------------------------------------------------------

  /** The number of samples above a bound. */
  function CountAbove(values: seq<real>, bound: real): (k: nat)
    ensures k <= |values|
    ensures k == 0 <==> forall i :: 0 <= i < |values| ==> values[i] <= bound
    decreases |values|
  {
    if values == [] then 0
    else CountAbove(values[..|values| - 1], bound) + (if values[|values| - 1] > bound then 1 else 0)
  }

  function PatternTypeOf(cv: Quotient): PatternType
  {
    if Exceeds(cv, 0.3) then Variable else if Exceeds(cv, 0.1) then Moderate else Steady
  }

  function SpikePatternOf(spikes: int, n: int): SpikePattern
  {
    if spikes > n / 10 then Frequent else if spikes > 0 then Occasional else NoSpikes
  }

  /** The spike threshold: two standard deviations above the mean. */
  function SpikeBound(values: seq<real>, sqrt: SqrtFn): real
  {
    Mean(values) + 2.0 * StdDev(values, Mean(values), sqrt)
  }

  /** analyzeTimeSeries: nothing below 24 samples, else the pattern of the unsorted samples. */
  function TimeSeriesPattern(usage: seq<ResourceUsage>, resourceType: string, sqrt: SqrtFn): (p: Option<UsagePattern>)
    ensures p.None? <==> |usage| < 24
    ensures p.Some? ==> p.value.resourceType == resourceType && p.value.podName == ""
    ensures p.Some? ==> p.value.confidence == Confidence(Values(usage), sqrt)
  {
    if |usage| < 24 then None
    else
      var values := Values(usage);
      var mean := Mean(values);
      var cv := Divide(StdDev(values, mean, sqrt), mean);
      Some(UsagePattern(
        podName := "",
        resourceType := resourceType,
        patternType := PatternTypeOf(cv),
        spikePattern := SpikePatternOf(CountAbove(values, SpikeBound(values, sqrt)), |values|),
        confidence := Confidence(values, sqrt)))
  }

  /** The spike-counting loop of analyzeTimeSeries. */
  method CountSpikes(values: seq<real>, bound: real) returns (spikes: nat)
    ensures spikes == CountAbove(values, bound)
  {
    spikes := 0;
    var i := 0;
    while i < |values|
      invariant 0 <= i <= |values|
      invariant spikes == CountAbove(values[..i], bound)
    {
      assert values[..i + 1][..i] == values[..i];
      if values[i] > bound {
        spikes := spikes + 1;
      }
      i := i + 1;
    }
    assert values[..|values|] == values;
  }

  method AnalyzeTimeSeries(usage: seq<ResourceUsage>, resourceType: string, sqrt: SqrtFn) returns (pattern: Option<UsagePattern>)
    ensures pattern == TimeSeriesPattern(usage, resourceType, sqrt)
  {
    if |usage| < 24 {
      return None;
    }
    var a := CopyValues(usage);
    var values := a[..];
    var mean := CalculateMean(values);
    var stdDev := CalculateStandardDeviation(values, mean, sqrt);
    var cv := Divide(stdDev, mean);

    var patternType := Steady;
    if Exceeds(cv, 0.3) {
      patternType := Variable;
    } else if Exceeds(cv, 0.1) {
      patternType := Moderate;
    }
    assert patternType == PatternTypeOf(Divide(StdDev(values, Mean(values), sqrt), Mean(values)));

    var bound := mean + 2.0 * stdDev;
    assert bound == SpikeBound(values, sqrt);
    var spikes := CountSpikes(values, bound);

    var spikePattern := NoSpikes;
    if spikes > |values| / 10 {
      spikePattern := Frequent;
    } else if spikes > 0 {
      spikePattern := Occasional;
    }
    assert spikePattern == SpikePatternOf(CountAbove(values, SpikeBound(values, sqrt)), |values|);
    var confidence := CalculateConfidence(values, sqrt);
    pattern := Some(UsagePattern("", resourceType, patternType, spikePattern, confidence));
  }

  /** With a positive mean the pattern type follows the coefficient of variation at the cuts 0.1 and 0.3. */
  lemma {:induction false} PatternTypeByVariation(usage: seq<ResourceUsage>, resourceType: string, sqrt: SqrtFn)
    requires |usage| >= 24 && Mean(Values(usage)) > 0.0
    ensures var p := TimeSeriesPattern(usage, resourceType, sqrt).value.patternType;
      var cv := CoefficientOfVariation(Values(usage), sqrt);
      && (p == Variable <==> cv > 0.3)
      && (p == Moderate <==> 0.1 < cv <= 0.3)
      && (p == Steady <==> cv <= 0.1)
  {
  }

  /**
   * With a zero mean the division gives +Inf for any spread, which is
   * variable, and NaN without spread, which is steady; a negative mean
   * gives a non-positive quotient, which is steady.
   */
  lemma {:induction false} PatternTypeWithoutPositiveMean(usage: seq<ResourceUsage>, resourceType: string, sqrt: SqrtFn)
    requires |usage| >= 24 && Mean(Values(usage)) <= 0.0
    ensures var values := Values(usage);
      var p := TimeSeriesPattern(usage, resourceType, sqrt).value.patternType;
      && (Mean(values) < 0.0 ==> p == Steady)
      && (Mean(values) == 0.0 ==> (p == Variable <==> StdDev(values, 0.0, sqrt) > 0.0) && p != Moderate)
  {
    var values := Values(usage);
    var mean := Mean(values);
    var sd := StdDev(values, mean, sqrt);
    PatternTypeIs(usage, resourceType, sqrt);
    assert 0.0 <= sd;
    if mean < 0.0 {
      NegativeDivisor(sd, mean);
    }
  }

  /** A non-negative value over a negative one is a finite non-positive quotient. */
  lemma {:induction false} NegativeDivisor(x: real, y: real)
    requires 0.0 <= x && y < 0.0
    ensures Divide(x, y).Finite? && Divide(x, y).value <= 0.0
  {
    assert x / y <= 0.0;
  }

  lemma {:induction false} PatternTypeIs(usage: seq<ResourceUsage>, resourceType: string, sqrt: SqrtFn)
    requires |usage| >= 24
    ensures TimeSeriesPattern(usage, resourceType, sqrt).value.patternType
      == PatternTypeOf(Divide(StdDev(Values(usage), Mean(Values(usage)), sqrt), Mean(Values(usage))))
  {
  }

  /** The spike pattern: frequent above a tenth of the samples (integer division), occasional for any spike. */
  lemma {:induction false} SpikeCuts(usage: seq<ResourceUsage>, resourceType: string, sqrt: SqrtFn)
    requires |usage| >= 24
    ensures var values := Values(usage);
      var spikes := CountAbove(values, SpikeBound(values, sqrt));
      var sp := TimeSeriesPattern(usage, resourceType, sqrt).value.spikePattern;
      && (sp == Frequent <==> spikes > |values| / 10)
      && (sp == Occasional <==> 0 < spikes <= |values| / 10)
      && (sp == NoSpikes <==> forall i :: 0 <= i < |usage| ==> usage[i].value <= SpikeBound(values, sqrt))
  {
  }

  /** A long series of one non-negative value is steady, has no spikes and full confidence. */
  lemma {:induction false} ConstantSeriesIsSteady(usage: seq<ResourceUsage>, c: real, resourceType: string, sqrt: SqrtFn)
    requires |usage| >= 24 && forall i :: 0 <= i < |usage| ==> usage[i].value == c
    requires sqrt(0.0) == 0.0
    ensures var p := TimeSeriesPattern(usage, resourceType, sqrt).value;
      p.patternType == Steady && p.spikePattern == NoSpikes && p.confidence == 100
  {
    var values := Values(usage);
    ConstantSeries(values, c, sqrt);
    assert SpikeBound(values, sqrt) == c;
    ConfidenceFull(values, sqrt);
  }

  // ---------------------------------------------------------------
  // detectUsagePatterns
  // ---------------------------------------------------------------

  /** The pattern of a series, if any, attributed to a pod. */
  function Attributed(p: Option<UsagePattern>, podName: string): seq<UsagePattern>
  {
    if p.Some? then [p.value.(podName := podName)] else []
  }

  /** A pod's patterns: CPU, then memory, each for a series of more than 24 samples. */
  function PodPatterns(pod: PodMetrics, sqrt: SqrtFn): seq<UsagePattern>
  {
    (if |pod.cpuUsageHistory| > 24 then Attributed(TimeSeriesPattern(pod.cpuUsageHistory, CpuType, sqrt), pod.podName) else [])
    + (if |pod.memUsageHistory| > 24 then Attributed(TimeSeriesPattern(pod.memUsageHistory, MemoryType, sqrt), pod.podName) else [])
  }

  function UsagePatterns(pods: seq<PodMetrics>, sqrt: SqrtFn): seq<UsagePattern>
    decreases |pods|
  {
    if pods == [] then [] else UsagePatterns(pods[..|pods| - 1], sqrt) + PodPatterns(pods[|pods| - 1], sqrt)
  }

  method DetectUsagePatterns(pods: seq<PodMetrics>, sqrt: SqrtFn) returns (patterns: seq<UsagePattern>)
    ensures patterns == UsagePatterns(pods, sqrt)
  {
    patterns := [];
    var i := 0;
    while i < |pods|
      invariant 0 <= i <= |pods|
      invariant patterns == UsagePatterns(pods[..i], sqrt)
    {
      assert pods[..i + 1][..i] == pods[..i];
      patterns := AppendPodPatterns(patterns, pods[i], sqrt);
      i := i + 1;
    }
    assert pods[..|pods|] == pods;
  }

  /** One pass of the loop of detectUsagePatterns: the CPU series, then the memory series. */
  method AppendPodPatterns(patterns: seq<UsagePattern>, pod: PodMetrics, sqrt: SqrtFn) returns (patterns': seq<UsagePattern>)
    ensures patterns' == patterns + PodPatterns(pod, sqrt)
  {
    patterns' := patterns;
    if |pod.cpuUsageHistory| > 24 {
      var pattern := AnalyzeTimeSeries(pod.cpuUsageHistory, CpuType, sqrt);
      if pattern.Some? {
        patterns' := patterns' + [pattern.value.(podName := pod.podName)];
      }
    }
    if |pod.memUsageHistory| > 24 {
      var pattern := AnalyzeTimeSeries(pod.memUsageHistory, MemoryType, sqrt);
      if pattern.Some? {
        patterns' := patterns' + [pattern.value.(podName := pod.podName)];
      }
    }
  }

  /** A pod yields one pattern per series of more than 24 samples, named after the pod. */
  lemma {:induction false} PodPatternsShape(pod: PodMetrics, sqrt: SqrtFn)
    ensures |PodPatterns(pod, sqrt)| == (if |pod.cpuUsageHistory| > 24 then 1 else 0) + (if |pod.memUsageHistory| > 24 then 1 else 0)
    ensures forall q :: q in PodPatterns(pod, sqrt) ==>
      q.podName == pod.podName
      && (q.resourceType == CpuType ==> |pod.cpuUsageHistory| > 24)
      && (q.resourceType == MemoryType ==> |pod.memUsageHistory| > 24)
      && (q.resourceType == CpuType || q.resourceType == MemoryType)
  {
  }

  /** At most two patterns per pod, each named after one of the pods. */
  lemma {:induction false} UsagePatternsFromPods(pods: seq<PodMetrics>, sqrt: SqrtFn)
    ensures |UsagePatterns(pods, sqrt)| <= 2 * |pods|
    ensures forall q :: q in UsagePatterns(pods, sqrt) ==> exists p :: p in pods && q.podName == p.podName
    decreases |pods|
  {
    if pods != [] {
      var init := pods[..|pods| - 1];
      var last := pods[|pods| - 1];
      UsagePatternsFromPods(init, sqrt);
      PodPatternsShape(last, sqrt);
      forall q | q in UsagePatterns(pods, sqrt)
        ensures exists p :: p in pods && q.podName == p.podName
      {
        if q in UsagePatterns(init, sqrt) {
          var p :| p in init && q.podName == p.podName;
          assert p in pods;
        } else {
          assert last in pods;
        }
      }
    }
  }

  // ---------------------------------------------------------------
  // analyzeResourcePatterns
  // ---------------------------------------------------------------

  /** Every sample of every pod, in pod order and then sample order. */
  function AllValues(pods: seq<PodMetrics>, u: Usage): seq<real>
    decreases |pods|
  {
    if pods == [] then [] else AllValues(pods[..|pods| - 1], u) + Values(History(u, pods[|pods| - 1]))
  }

  /** The summary of one pod's samples, taken on their ascending arrangement. */
  function Summary(podName: string, values: seq<real>, sqrt: SqrtFn): PodResourceAnalysis
    requires |values| > 0
  {
    var s := SortAscending(values);
    PodResourceAnalysis(
      podName := podName,
      min := s[0],
      max := s[|s| - 1],
      mean := Mean(s),
      p50 := CalculatePercentile(s, 50.0),
      p95 := CalculatePercentile(s, 95.0),
      p99 := CalculatePercentile(s, 99.0),
      standardDev := StdDev(s, Mean(s), sqrt),
      dataPoints := |s|)
  }

  /** The summaries of the pods that have samples, in pod order. */
  function PodAnalyses(pods: seq<PodMetrics>, u: Usage, sqrt: SqrtFn): seq<PodResourceAnalysis>
    decreases |pods|
  {
    if pods == [] then []
    else
      var last := pods[|pods| - 1];
      PodAnalyses(pods[..|pods| - 1], u, sqrt)
        + (if |History(u, last)| == 0 then [] else [Summary(last.podName, Values(History(u, last)), sqrt)])
  }

  /** The workload-wide statistics, on the ascending arrangement of all samples. */
  function WorkloadStatistics(resourceType: string, unit: string, all: seq<real>,
                              podAnalyses: seq<PodResourceAnalysis>, sqrt: SqrtFn): ResourceAnalysis
    requires |all| > 0
  {
    var s := SortAscending(all);
    ResourceAnalysis(
      resourceType := resourceType,
      unit := unit,
      totalDataPoints := |s|,
      workloadMin := s[0],
      workloadMax := s[|s| - 1],
      workloadMean := Mean(s),
      workloadP50 := CalculatePercentile(s, 50.0),
      workloadP95 := CalculatePercentile(s, 95.0),
      workloadP99 := CalculatePercentile(s, 99.0),
      workloadStdDev := StdDev(s, Mean(s), sqrt),
      podAnalyses := podAnalyses)
  }

  /** analyzeResourcePatterns: an error without samples, else the summaries of the pods and of the workload. */
  function ResourcePatterns(pods: seq<PodMetrics>, resourceType: string, unit: string, u: Usage, sqrt: SqrtFn)
    : Result<ResourceAnalysis, PatternsError>
  {
    var all := AllValues(pods, u);
    if |all| == 0 then Err(NoDataAvailable(resourceType))
    else Ok(WorkloadStatistics(resourceType, unit, all, PodAnalyses(pods, u, sqrt), sqrt))
  }

  /** The summary of one pod's samples as the loop body computes it, on the in-place sorted copy. */
  method SummarizePod(podName: string, podValues: array<real>, sqrt: SqrtFn) returns (analysis: PodResourceAnalysis)
    requires podValues.Length > 0
    modifies podValues
    ensures analysis == Summary(podName, old(podValues[..]), sqrt)
  {
    SortFloat64s(podValues);
    var sorted := podValues[..];
    var mean := CalculateMean(sorted);
    var standardDev := CalculateStandardDeviation(sorted, mean, sqrt);
    analysis := PodResourceAnalysis(
      podName, sorted[0], sorted[|sorted| - 1], mean,
      CalculatePercentile(sorted, 50.0), CalculatePercentile(sorted, 95.0), CalculatePercentile(sorted, 99.0),
      standardDev, |sorted|);
  }

  /** The copy loop of one pod, which also appends every sample to the workload's samples. */
  method CollectPodValues(history: seq<ResourceUsage>, allValues: seq<real>)
    returns (podValues: array<real>, allValues': seq<real>)
    ensures fresh(podValues)
    ensures podValues[..] == Values(history)
    ensures allValues' == allValues + Values(history)
  {
    podValues := new real[|history|];
    allValues' := allValues;
    var i := 0;
    while i < |history|
      invariant 0 <= i <= |history|
      invariant podValues[..i] == Values(history)[..i]
      invariant allValues' == allValues + Values(history)[..i]
    {
      assert Values(history)[..i + 1] == Values(history)[..i] + [history[i].value];
      podValues[i] := history[i].value;
      allValues' := allValues' + [history[i].value];
      i := i + 1;
    }
    assert Values(history)[..|history|] == Values(history);
  }

  /** One pass of the loop of analyzeResourcePatterns: a pod without samples is skipped. */
  method AnalyzePod(pod: PodMetrics, u: Usage, allValues: seq<real>, podAnalyses: seq<PodResourceAnalysis>, sqrt: SqrtFn)
    returns (allValues': seq<real>, podAnalyses': seq<PodResourceAnalysis>)
    ensures allValues' == allValues + Values(History(u, pod))
    ensures podAnalyses' == podAnalyses
      + (if |History(u, pod)| == 0 then [] else [Summary(pod.podName, Values(History(u, pod)), sqrt)])
  {
    var usageHistory := History(u, pod);
    if |usageHistory| == 0 {
      assert Values(usageHistory) == [];
      return allValues, podAnalyses;
    }
    var podValues;
    podValues, allValues' := CollectPodValues(usageHistory, allValues);
    var podAnalysis := SummarizePod(pod.podName, podValues, sqrt);
    podAnalyses' := podAnalyses + [podAnalysis];
  }

  method AnalyzeResourcePatterns(pods: seq<PodMetrics>, resourceType: string, unit: string, u: Usage, sqrt: SqrtFn)
    returns (r: Result<ResourceAnalysis, PatternsError>)
    ensures r == ResourcePatterns(pods, resourceType, unit, u, sqrt)
  {
    var allValues: seq<real> := [];
    var podAnalyses: seq<PodResourceAnalysis> := [];
    var i := 0;
    while i < |pods|
      invariant 0 <= i <= |pods|
      invariant allValues == AllValues(pods[..i], u)
      invariant podAnalyses == PodAnalyses(pods[..i], u, sqrt)
    {
      assert pods[..i + 1][..i] == pods[..i];
      assert AllValues(pods[..i + 1], u) == allValues + Values(History(u, pods[i]));
      allValues, podAnalyses := AnalyzePod(pods[i], u, allValues, podAnalyses, sqrt);
      i := i + 1;
    }
    assert pods[..|pods|] == pods;

    if |allValues| == 0 {
      return Err(NoDataAvailable(resourceType));
    }
    var analysis := SummarizeWorkload(resourceType, unit, allValues, podAnalyses, sqrt);
    r := Ok(analysis);
  }

  /** The tail of analyzeResourcePatterns: sort all samples in place and summarise them. */
  method SummarizeWorkload(resourceType: string, unit: string, allValues: seq<real>,
                           podAnalyses: seq<PodResourceAnalysis>, sqrt: SqrtFn) returns (analysis: ResourceAnalysis)
    requires |allValues| > 0
    ensures analysis == WorkloadStatistics(resourceType, unit, allValues, podAnalyses, sqrt)
  {
    var a := new real[|allValues|](k requires 0 <= k < |allValues| => allValues[k]);
    assert a[..] == allValues;
    SortFloat64s(a);
    var sorted := a[..];
    var mean := CalculateMean(sorted);
    var standardDev := CalculateStandardDeviation(sorted, mean, sqrt);
    analysis := ResourceAnalysis(
      resourceType, unit, |sorted|, sorted[0], sorted[|sorted| - 1], mean,
      CalculatePercentile(sorted, 50.0), CalculatePercentile(sorted, 95.0), CalculatePercentile(sorted, 99.0),
      standardDev, podAnalyses);
  }

  /** The workload's samples are empty exactly when every pod's history is. */
  lemma {:induction false} AllValuesEmpty(pods: seq<PodMetrics>, u: Usage)
    ensures |AllValues(pods, u)| == 0 <==> forall i :: 0 <= i < |pods| ==> |History(u, pods[i])| == 0
    decreases |pods|
  {
    if pods != [] {
      var init := pods[..|pods| - 1];
      AllValuesEmpty(init, u);
      assert forall i :: 0 <= i < |init| ==> pods[i] == init[i];
    }
  }

  /** Every sample of every pod is among the workload's samples. */
  lemma {:induction false} AllValuesHoldsEverySample(pods: seq<PodMetrics>, u: Usage)
    ensures forall i, j :: 0 <= i < |pods| && 0 <= j < |History(u, pods[i])| ==> History(u, pods[i])[j].value in AllValues(pods, u)
    decreases |pods|
  {
    if pods != [] {
      var init := pods[..|pods| - 1];
      AllValuesHoldsEverySample(init, u);
      forall i, j | 0 <= i < |pods| && 0 <= j < |History(u, pods[i])|
        ensures History(u, pods[i])[j].value in AllValues(pods, u)
      {
        var h := History(u, pods[i]);
        if i < |init| {
          assert pods[i] == init[i];
          assert h[j].value in AllValues(init, u);
        } else {
          assert Values(h)[j] == h[j].value;
          assert h[j].value in Values(History(u, pods[|pods| - 1]));
        }
      }
    }
  }

  /** The analysis fails exactly when no pod has a sample of the resource. */
  lemma {:induction false} ResourcePatternsFailIff(pods: seq<PodMetrics>, resourceType: string, unit: string, u: Usage, sqrt: SqrtFn)
    ensures ResourcePatterns(pods, resourceType, unit, u, sqrt).Err? <==>
      forall i :: 0 <= i < |pods| ==> |History(u, pods[i])| == 0
    ensures ResourcePatterns(pods, resourceType, unit, u, sqrt).Err? ==>
      ResourcePatterns(pods, resourceType, unit, u, sqrt).error == NoDataAvailable(resourceType)
  {
    AllValuesEmpty(pods, u);
  }

  /** A sorted arrangement's ends are samples, bound every sample, and bound its mean and percentiles. */
  lemma {:induction false} SortedStatisticsBounds(values: seq<real>)
    requires |values| > 0
    ensures var s := SortAscending(values);
      && s[0] in values && s[|s| - 1] in values
      && (forall i :: 0 <= i < |values| ==> s[0] <= values[i] <= s[|s| - 1])
      && s[0] <= Mean(s) <= s[|s| - 1]
      && s[0] <= CalculatePercentile(s, 50.0) <= s[|s| - 1]
      && s[0] <= CalculatePercentile(s, 95.0) <= s[|s| - 1]
      && s[0] <= CalculatePercentile(s, 99.0) <= s[|s| - 1]
  {
    var s := SortAscending(values);
    SortedEnds(values);
    assert AllWithin(s, s[0], s[|s| - 1]) by {
      forall i | 0 <= i < |s| ensures s[0] <= s[i] <= s[|s| - 1] {
        assert s[i] in multiset(values);
        var k :| 0 <= k < |values| && values[k] == s[i];
      }
    }
    MeanWithin(s, s[0], s[|s| - 1]);
  }

  /** Each pod's summary: its ends are its extreme samples, and its mean and percentiles lie between them. */
  lemma {:induction false} PodSummaryBounds(podName: string, values: seq<real>, sqrt: SqrtFn)
    requires |values| > 0
    ensures var a := Summary(podName, values, sqrt);
      && a.min in values && a.max in values && a.dataPoints == |values|
      && (forall i :: 0 <= i < |values| ==> a.min <= values[i] <= a.max)
      && a.min <= a.mean <= a.max
      && a.min <= a.p50 <= a.max && a.min <= a.p95 <= a.max && a.min <= a.p99 <= a.max
  {
    SortedStatisticsBounds(values);
  }

  /** The workload's minimum and maximum are samples and bound every pod's every sample. */
  lemma {:induction false} WorkloadBounds(pods: seq<PodMetrics>, resourceType: string, unit: string, u: Usage, sqrt: SqrtFn)
    requires ResourcePatterns(pods, resourceType, unit, u, sqrt).Ok?
    ensures var a := ResourcePatterns(pods, resourceType, unit, u, sqrt).value;
      && a.workloadMin in AllValues(pods, u) && a.workloadMax in AllValues(pods, u)
      && (forall i, j :: 0 <= i < |pods| && 0 <= j < |History(u, pods[i])| ==>
            a.workloadMin <= History(u, pods[i])[j].value <= a.workloadMax)
      && a.workloadMin <= a.workloadMean <= a.workloadMax
      && a.workloadMin <= a.workloadP95 <= a.workloadMax
      && a.totalDataPoints == |AllValues(pods, u)|
  {
    var all := AllValues(pods, u);
    SortedStatisticsBounds(all);
    AllValuesHoldsEverySample(pods, u);
    forall i, j | 0 <= i < |pods| && 0 <= j < |History(u, pods[i])|
      ensures SortAscending(all)[0] <= History(u, pods[i])[j].value <= SortAscending(all)[|all| - 1]
    {
      var k :| 0 <= k < |all| && all[k] == History(u, pods[i])[j].value;
    }
  }

  /** One summary per pod that has samples, each named after such a pod. */
  lemma {:induction false} PodAnalysesFromPods(pods: seq<PodMetrics>, u: Usage, sqrt: SqrtFn)
    ensures |PodAnalyses(pods, u, sqrt)| <= |pods|
    ensures forall a :: a in PodAnalyses(pods, u, sqrt) ==>
      exists p :: p in pods && a.podName == p.podName && a.dataPoints == |History(u, p)| > 0
    decreases |pods|
  {
    if pods != [] {
      var init := pods[..|pods| - 1];
      var last := pods[|pods| - 1];
      PodAnalysesFromPods(init, u, sqrt);
      forall a | a in PodAnalyses(pods, u, sqrt)
        ensures exists p :: p in pods && a.podName == p.podName && a.dataPoints == |History(u, p)| > 0
      {
        if a in PodAnalyses(init, u, sqrt) {
          var p :| p in init && a.podName == p.podName && a.dataPoints == |History(u, p)| > 0;
          assert p in pods;
        } else {
          assert last in pods;
        }
      }
    }
  }

  // ---------------------------------------------------------------
  // calculateRecommendationPriority and generateWorkloadRecommendations
  // ---------------------------------------------------------------

  function RecommendationPriority(analysis: ResourceAnalysis): Level
  {
    var cv := Divide(analysis.workloadStdDev, analysis.workloadMean);
    if Exceeds(cv, 0.5) then High else if Exceeds(cv, 0.2) then Medium else Low
  }

  /** With a positive mean the priority follows the coefficient of variation at the cuts 0.2 and 0.5. */
  lemma {:induction false} PriorityByVariation(analysis: ResourceAnalysis)
    requires analysis.workloadMean > 0.0
    ensures var cv := analysis.workloadStdDev / analysis.workloadMean;
      var p := RecommendationPriority(analysis);
      && (p == High <==> cv > 0.5)
      && (p == Medium <==> 0.2 < cv <= 0.5)
      && (p == Low <==> cv <= 0.2)
  {
  }

  /** No spread gives low priority whatever the mean; spread around a zero mean gives high priority. */
  lemma {:induction false} PriorityWithoutPositiveMean(analysis: ResourceAnalysis)
    ensures analysis.workloadStdDev == 0.0 ==> RecommendationPriority(analysis) == Low
    ensures analysis.workloadMean == 0.0 && analysis.workloadStdDev > 0.0 ==> RecommendationPriority(analysis) == High
    ensures analysis.workloadMean < 0.0 && analysis.workloadStdDev >= 0.0 ==> RecommendationPriority(analysis) == Low
  {
    if analysis.workloadMean < 0.0 && analysis.workloadStdDev >= 0.0 {
      NegativeDivisor(analysis.workloadStdDev, analysis.workloadMean);
    }
  }

  const ScalingStrategy: WorkloadRecommendation := WorkloadRecommendation("Scaling Strategy", Medium, High)

  /** One scaling-strategy item per variable pattern, in order. */
  function ScalingRecommendations(patterns: seq<UsagePattern>): seq<WorkloadRecommendation>
    decreases |patterns|
  {
    if patterns == [] then []
    else
      ScalingRecommendations(patterns[..|patterns| - 1])
        + (if patterns[|patterns| - 1].patternType == Variable then [ScalingStrategy] else [])
  }

  /** The CPU item, the memory item, then the scaling items. */
  function WorkloadRecommendations(analysis: WorkloadAnalysis): seq<WorkloadRecommendation>
  {
    (if analysis.cpuAnalysis.Some?
     then [WorkloadRecommendation("CPU Optimization", RecommendationPriority(analysis.cpuAnalysis.value), Medium)]
     else [])
    + (if analysis.memoryAnalysis.Some?
       then [WorkloadRecommendation("Memory Optimization", RecommendationPriority(analysis.memoryAnalysis.value), High)]
       else [])
    + ScalingRecommendations(analysis.usagePatterns)
  }

  method GenerateWorkloadRecommendations(analysis: WorkloadAnalysis) returns (recommendations: seq<WorkloadRecommendation>)
    ensures recommendations == WorkloadRecommendations(analysis)
  {
    recommendations := [];
    if analysis.cpuAnalysis.Some? {
      recommendations := recommendations
        + [WorkloadRecommendation("CPU Optimization", RecommendationPriority(analysis.cpuAnalysis.value), Medium)];
    }
    if analysis.memoryAnalysis.Some? {
      recommendations := recommendations
        + [WorkloadRecommendation("Memory Optimization", RecommendationPriority(analysis.memoryAnalysis.value), High)];
    }
    var scaling := ScalingRecommendationsOf(analysis.usagePatterns);
    recommendations := recommendations + scaling;
  }

  /** The loop of generateWorkloadRecommendations over the usage patterns. */
  method ScalingRecommendationsOf(patterns: seq<UsagePattern>) returns (recommendations: seq<WorkloadRecommendation>)
    ensures recommendations == ScalingRecommendations(patterns)
  {
    recommendations := [];
    var i := 0;
    while i < |patterns|
      invariant 0 <= i <= |patterns|
      invariant recommendations == ScalingRecommendations(patterns[..i])
    {
      assert patterns[..i + 1][..i] == patterns[..i];
      if patterns[i].patternType == Variable {
        recommendations := recommendations + [ScalingStrategy];
      }
      i := i + 1;
    }
    assert patterns[..|patterns|] == patterns;
  }

  /** Every scaling item is the same advice, and there is one exactly when some pattern is variable. */
  lemma {:induction false} ScalingRecommendationsFromVariable(patterns: seq<UsagePattern>)
    ensures |ScalingRecommendations(patterns)| <= |patterns|
    ensures forall r :: r in ScalingRecommendations(patterns) ==> r == ScalingStrategy
    ensures |ScalingRecommendations(patterns)| > 0 <==> exists i :: 0 <= i < |patterns| && patterns[i].patternType == Variable
    decreases |patterns|
  {
    if patterns != [] {
      var init := patterns[..|patterns| - 1];
      ScalingRecommendationsFromVariable(init);
      assert forall i :: 0 <= i < |init| ==> patterns[i] == init[i];
      if exists i :: 0 <= i < |init| && init[i].patternType == Variable {
        var i :| 0 <= i < |init| && init[i].patternType == Variable;
        assert patterns[i].patternType == Variable;
      }
    }
  }

  // ---------------------------------------------------------------
  // AnalyzeWorkloadPatterns
  // ---------------------------------------------------------------

  /** AnalyzeWorkloadPatterns, with the clock reading `now` as a parameter. */
  function WorkloadPatterns(workload: WorkloadMetrics, now: int, sqrt: SqrtFn)
    : Result<WorkloadAnalysis, WorkloadAnalysisError>
  {
    var pods := workload.pods;
    if |pods| == 0 then Err(NoPodsProvided)
    else
      match ResourcePatterns(pods, CpuType, CoresUnit, CpuUsage, sqrt)
      case Err(err) => Err(CpuPatternsFailed(err))
      case Ok(cpu) =>
        match ResourcePatterns(pods, MemoryType, BytesUnit, MemoryUsage, sqrt)
        case Err(err) => Err(MemoryPatternsFailed(err))
        case Ok(memory) => Ok(Assembled(workload, now, cpu, memory, UsagePatterns(pods, sqrt)))
  }

  /** The analysis record of a workload, with the recommendations drawn from its own analyses. */
  function Assembled(workload: WorkloadMetrics, now: int, cpu: ResourceAnalysis, memory: ResourceAnalysis,
                     patterns: seq<UsagePattern>): WorkloadAnalysis
  {
    var analysis := WorkloadAnalysis(
      workload.workloadName, workload.workloadType, workload.namespace, now, |workload.pods|,
      workload.endTime - workload.startTime, Some(cpu), Some(memory), patterns, []);
    analysis.(recommendations := WorkloadRecommendations(analysis))
  }

  method AnalyzeWorkloadPatterns(workload: WorkloadMetrics, now: int, sqrt: SqrtFn)
    returns (r: Result<WorkloadAnalysis, WorkloadAnalysisError>)
    ensures r == WorkloadPatterns(workload, now, sqrt)
  {
    var pods := workload.pods;
    if |pods| == 0 {
      return Err(NoPodsProvided);
    }
    var cpuAnalysis := AnalyzeResourcePatterns(pods, CpuType, CoresUnit, CpuUsage, sqrt);
    CpuPatternsStep(workload, now, sqrt, cpuAnalysis);
    if cpuAnalysis.Err? {
      return Err(CpuPatternsFailed(cpuAnalysis.error));
    }
    var memAnalysis := AnalyzeResourcePatterns(pods, MemoryType, BytesUnit, MemoryUsage, sqrt);
    MemoryPatternsStep(workload, now, sqrt, cpuAnalysis, memAnalysis);
    if memAnalysis.Err? {
      return Err(MemoryPatternsFailed(memAnalysis.error));
    }
    var patterns := DetectUsagePatterns(pods, sqrt);
    var analysis := WorkloadAnalysis(
      workload.workloadName, workload.workloadType, workload.namespace, now, |pods|,
      workload.endTime - workload.startTime, Some(cpuAnalysis.value), Some(memAnalysis.value), patterns, []);
    var recommendations := GenerateWorkloadRecommendations(analysis);
    AssembledFrom(workload, now, cpuAnalysis.value, memAnalysis.value, patterns, analysis, recommendations);
    r := Ok(analysis.(recommendations := recommendations));
  }

  // The three lemmas below take the analyses as plain values, so that the
  // method above reasons about them without unfolding the statistics.

  lemma {:induction false} CpuPatternsStep(workload: WorkloadMetrics, now: int, sqrt: SqrtFn, cpu: Result<ResourceAnalysis, PatternsError>)
    requires |workload.pods| > 0
    requires cpu == ResourcePatterns(workload.pods, CpuType, CoresUnit, CpuUsage, sqrt)
    ensures cpu.Err? ==> WorkloadPatterns(workload, now, sqrt) == Err(CpuPatternsFailed(cpu.error))
  {
  }

  lemma {:induction false} MemoryPatternsStep(workload: WorkloadMetrics, now: int, sqrt: SqrtFn,
                           cpu: Result<ResourceAnalysis, PatternsError>, memory: Result<ResourceAnalysis, PatternsError>)
    requires |workload.pods| > 0 && cpu.Ok?
    requires cpu == ResourcePatterns(workload.pods, CpuType, CoresUnit, CpuUsage, sqrt)
    requires memory == ResourcePatterns(workload.pods, MemoryType, BytesUnit, MemoryUsage, sqrt)
    ensures memory.Err? ==> WorkloadPatterns(workload, now, sqrt) == Err(MemoryPatternsFailed(memory.error))
    ensures memory.Ok? ==>
      WorkloadPatterns(workload, now, sqrt) == Ok(Assembled(workload, now, cpu.value, memory.value, UsagePatterns(workload.pods, sqrt)))
  {
  }

  lemma {:induction false} AssembledFrom(workload: WorkloadMetrics, now: int, cpu: ResourceAnalysis, memory: ResourceAnalysis,
                      patterns: seq<UsagePattern>, analysis: WorkloadAnalysis, recommendations: seq<WorkloadRecommendation>)
    requires analysis == WorkloadAnalysis(
      workload.workloadName, workload.workloadType, workload.namespace, now, |workload.pods|,
      workload.endTime - workload.startTime, Some(cpu), Some(memory), patterns, [])
    requires recommendations == WorkloadRecommendations(analysis)
    ensures analysis.(recommendations := recommendations) == Assembled(workload, now, cpu, memory, patterns)
  {
  }

  /** An assembled analysis leads with the CPU item of medium impact and the memory item of high impact. */
  lemma {:induction false} AssembledLeadsWithResources(workload: WorkloadMetrics, now: int, cpu: ResourceAnalysis, memory: ResourceAnalysis,
                                    patterns: seq<UsagePattern>)
    ensures var a := Assembled(workload, now, cpu, memory, patterns);
      && a.totalPods == |workload.pods|
      && a.cpuAnalysis == Some(cpu) && a.memoryAnalysis == Some(memory)
      && |a.recommendations| >= 2
      && a.recommendations[0] == WorkloadRecommendation("CPU Optimization", RecommendationPriority(cpu), Medium)
      && a.recommendations[1] == WorkloadRecommendation("Memory Optimization", RecommendationPriority(memory), High)
      && a.recommendations[2..] == ScalingRecommendations(patterns)
  {
  }

  /**
   * The workload analysis succeeds exactly when some pod has CPU samples
   * and some pod has memory samples, and it fails for no pods.
   */
  lemma {:induction false} WorkloadPatternsOutcome(workload: WorkloadMetrics, now: int, sqrt: SqrtFn)
    ensures WorkloadPatterns(workload, now, sqrt) == Err(NoPodsProvided) <==> |workload.pods| == 0
    ensures WorkloadPatterns(workload, now, sqrt).Ok? <==>
      && (exists i :: 0 <= i < |workload.pods| && |workload.pods[i].cpuUsageHistory| > 0)
      && (exists i :: 0 <= i < |workload.pods| && |workload.pods[i].memUsageHistory| > 0)
  {
    var pods := workload.pods;
    if |pods| > 0 {
      var cpu := ResourcePatterns(pods, CpuType, CoresUnit, CpuUsage, sqrt);
      var memory := ResourcePatterns(pods, MemoryType, BytesUnit, MemoryUsage, sqrt);
      PatternsOkIffSamples(pods, CpuType, CoresUnit, CpuUsage, sqrt);
      PatternsOkIffSamples(pods, MemoryType, BytesUnit, MemoryUsage, sqrt);
      CpuPatternsStep(workload, now, sqrt, cpu);
      if cpu.Ok? {
        MemoryPatternsStep(workload, now, sqrt, cpu, memory);
      }
    }
  }

  /** The statistics of one resource exist exactly when some pod has a sample of it. */
  lemma {:induction false} PatternsOkIffSamples(pods: seq<PodMetrics>, resourceType: string, unit: string, u: Usage, sqrt: SqrtFn)
    ensures ResourcePatterns(pods, resourceType, unit, u, sqrt).Ok? <==>
      exists i :: 0 <= i < |pods| && |(if u == CpuUsage then pods[i].cpuUsageHistory else pods[i].memUsageHistory)| > 0
  {
    ResourcePatternsFailIff(pods, resourceType, unit, u, sqrt);
    assert forall i :: 0 <= i < |pods| ==>
      History(u, pods[i]) == (if u == CpuUsage then pods[i].cpuUsageHistory else pods[i].memUsageHistory);
  }
}
