/**
 * The Prometheus-backed metrics client and the Metrics Server stub
 * (pkg/metrics/prometheus.go). A range query is supplied by the caller as
 * an oracle from query text and time range to a result; the clock is the
 * `now` parameter; strconv.ParseFloat is a supplied FloatParser.
 */
module PromMetrics {
  import opened Common
  import opened Types
  import opened Stats
  import Engine

  // ---------------------------------------------------------------
  // Query results
  // ---------------------------------------------------------------

  datatype SamplePair = SamplePair(timestamp: int, value: real)

  /** One series of a matrix: its label set and its samples. */
  datatype SampleStream = SampleStream(metric: map<string, string>, values: seq<SamplePair>)

  /** A range query's value: a matrix, or a value of another kind, which every conversion ignores. */
  datatype QueryValue = Matrix(series: seq<SampleStream>) | OtherValue

  datatype TimeRange = TimeRange(start: int, end: int, step: int)

  /** v1.API.QueryRange, supplied by the caller: the value, or the error text. */
  type RangeQuery = (string, TimeRange) -> Result<QueryValue, string>

  /** strconv.ParseFloat, supplied by the caller: the number, or the error text. */
  type FloatParser = string -> Result<real, string>

  const CoresUnit := "cores"
  const BytesUnit := "bytes"

  function UnitOf(u: Engine.Usage): string
  {
    if u == Engine.CpuUsage then CoresUnit else BytesUnit
  }

  // ---------------------------------------------------------------
  // convertSamplePairToUsageHistory and convertMatrixToUsageHistory
  // ---------------------------------------------------------------

  function UsageOf(p: SamplePair, unit: string): ResourceUsage
  {
    ResourceUsage(p.timestamp, p.value, unit)
  }

  /** The samples of one series as usage entries, appended one by one. */
  function SampleHistory(values: seq<SamplePair>, unit: string): seq<ResourceUsage>
    decreases |values|
  {
    if values == [] then []
    else SampleHistory(values[..|values| - 1], unit) + [UsageOf(values[|values| - 1], unit)]
  }

  /** The conversion keeps length and order, and tags every entry with the unit. */
  lemma {:induction false} SampleHistoryPointwise(values: seq<SamplePair>, unit: string)
    ensures |SampleHistory(values, unit)| == |values|
    ensures forall i :: 0 <= i < |values| ==>
      SampleHistory(values, unit)[i] == ResourceUsage(values[i].timestamp, values[i].value, unit)
    decreases |values|
  {
    if values != [] {
      var init := values[..|values| - 1];
      SampleHistoryPointwise(init, unit);
      assert forall i :: 0 <= i < |init| ==> init[i] == values[i];
    }
  }

  method ConvertSamplePairToUsageHistory(values: seq<SamplePair>, unit: string) returns (history: seq<ResourceUsage>)
    ensures history == SampleHistory(values, unit)
  {
    history := [];
    var i := 0;
    while i < |values|
      invariant 0 <= i <= |values|
      invariant history == SampleHistory(values[..i], unit)
    {
      assert values[..i + 1][..i] == values[..i];
      history := history + [UsageOf(values[i], unit)];
      i := i + 1;
    }
    assert values[..|values|] == values;
  }

  /** The samples of every series, series after series. */
  function SeriesHistory(series: seq<SampleStream>, unit: string): seq<ResourceUsage>
    decreases |series|
  {
    if series == [] then []
    else SeriesHistory(series[..|series| - 1], unit) + SampleHistory(series[|series| - 1].values, unit)
  }

  function MatrixHistory(result: QueryValue, unit: string): seq<ResourceUsage>
  {
    match result
    case Matrix(series) => SeriesHistory(series, unit)
    case OtherValue => []
  }

  /** The number of samples over all series. */
  function SampleCount(series: seq<SampleStream>): nat
    decreases |series|
  {
    if series == [] then 0 else SampleCount(series[..|series| - 1]) + |series[|series| - 1].values|
  }

  /** Concatenating two runs of series concatenates their histories. */
  lemma {:induction false} SeriesHistoryAppend(a: seq<SampleStream>, b: seq<SampleStream>, unit: string)
    ensures SeriesHistory(a + b, unit) == SeriesHistory(a, unit) + SeriesHistory(b, unit)
    decreases |b|
  {
    if b == [] {
      assert a + b == a;
    } else {
      var init, last := b[..|b| - 1], SampleHistory(b[|b| - 1].values, unit);
      SeriesHistoryAppend(a, init, unit);
      assert (a + b)[..|a + b| - 1] == a + init;
      assert (a + b)[|a + b| - 1] == b[|b| - 1];
      calc {
        SeriesHistory(a + b, unit);
        SeriesHistory(a + init, unit) + last;
        (SeriesHistory(a, unit) + SeriesHistory(init, unit)) + last;
        SeriesHistory(a, unit) + (SeriesHistory(init, unit) + last);
        SeriesHistory(a, unit) + SeriesHistory(b, unit);
      }
    }
  }

  /** Concatenating two runs of series adds their sample counts. */
  lemma {:induction false} SampleCountAppend(a: seq<SampleStream>, b: seq<SampleStream>)
    ensures SampleCount(a + b) == SampleCount(a) + SampleCount(b)
    decreases |b|
  {
    if b == [] {
      assert a + b == a;
    } else {
      var init := b[..|b| - 1];
      SampleCountAppend(a, init);
      assert (a + b)[..|a + b| - 1] == a + init;
      assert (a + b)[|a + b| - 1] == b[|b| - 1];
    }
  }

  /** The matrix history holds every sample once, each tagged with the unit. */
  lemma {:induction false} SeriesHistoryShape(series: seq<SampleStream>, unit: string)
    ensures |SeriesHistory(series, unit)| == SampleCount(series)
    ensures forall i :: 0 <= i < |SeriesHistory(series, unit)| ==> SeriesHistory(series, unit)[i].unit == unit
    decreases |series|
  {
    if series != [] {
      SeriesHistoryShape(series[..|series| - 1], unit);
      SampleHistoryPointwise(series[|series| - 1].values, unit);
    }
  }

  /** Every entry of a converted query result carries the unit. */
  lemma {:induction false} MatrixHistoryUnits(result: QueryValue, unit: string)
    ensures forall i :: 0 <= i < |MatrixHistory(result, unit)| ==> MatrixHistory(result, unit)[i].unit == unit
  {
    if result.Matrix? {
      SeriesHistoryShape(result.series, unit);
    }
  }

  method ConvertMatrixToUsageHistory(result: QueryValue, unit: string) returns (history: seq<ResourceUsage>)
    ensures history == MatrixHistory(result, unit)
  {
    history := [];
    if result.Matrix? {
      var series := result.series;
      var i := 0;
      while i < |series|
        invariant 0 <= i <= |series|
        invariant history == SeriesHistory(series[..i], unit)
      {
        assert series[..i + 1][..i] == series[..i];
        ghost var before := history;
        var values := series[i].values;
        var j := 0;
        while j < |values|
          invariant 0 <= j <= |values|
          invariant history == before + SampleHistory(values[..j], unit)
        {
          assert values[..j + 1][..j] == values[..j];
          history := history + [UsageOf(values[j], unit)];
          j := j + 1;
        }
        assert values[..|values|] == values;
        i := i + 1;
      }
      assert series[..|series|] == series;
    }
  }

  // ---------------------------------------------------------------
  // buildWorkloadSelector
  // ---------------------------------------------------------------

  /** The pod label Prometheus carries for each workload kind; app for any other. */
  function SelectorLabel(workloadType: string): (key: string)
    ensures key == "app" <==> workloadType !in {"Deployment", "StatefulSet", "DaemonSet", "Job"}
  {
    match workloadType
    case "Deployment" => "deployment"
    case "StatefulSet" => "statefulset"
    case "DaemonSet" => "daemonset"
    case "Job" => "job_name"
    case _ => "app"
  }

  function WorkloadSelector(workloadName: string, workloadType: string): string
  {
    SelectorLabel(workloadType) + "=\"" + workloadName + "\""
  }

  /** Reads the workload name back out of a selector of a known kind. */
  function SelectorName(selector: string, workloadType: string): string
  {
    TrimSuffix(TrimPrefix(selector, SelectorLabel(workloadType) + "=\""), "\"")
  }

  /** The selector is label="name": the name reads back, so distinct names give distinct selectors. */
  lemma {:induction false} SelectorRoundTrip(workloadName: string, workloadType: string)
    ensures SelectorName(WorkloadSelector(workloadName, workloadType), workloadType) == workloadName
    ensures HasPrefix(WorkloadSelector(workloadName, workloadType), SelectorLabel(workloadType) + "=\"")
  {
    var head := SelectorLabel(workloadType) + "=\"";
    var s := WorkloadSelector(workloadName, workloadType);
    assert s == head + (workloadName + "\"");
    assert s[..|head|] == head;
    var rest := TrimPrefix(s, head);
    assert rest == workloadName + "\"";
    assert rest[|rest| - 1..] == "\"";
    assert rest[..|rest| - 1] == workloadName;
  }

  lemma {:induction false} SelectorInjective(a: string, b: string, workloadType: string)
    requires WorkloadSelector(a, workloadType) == WorkloadSelector(b, workloadType)
    ensures a == b
  {
    SelectorRoundTrip(a, workloadType);
    SelectorRoundTrip(b, workloadType);
  }

  // ---------------------------------------------------------------
  // Query texts
  // ---------------------------------------------------------------

  const ContainerFilter := "container!=\"POD\",container!=\"\""

  function CpuPodQuery(namespace: string, podName: string): string
  {
    "rate(container_cpu_usage_seconds_total{namespace=\"" + namespace + "\",pod=\"" + podName + "\","
      + ContainerFilter + "}[5m])"
  }

  function MemoryPodQuery(namespace: string, podName: string): string
  {
    "container_memory_working_set_bytes{namespace=\"" + namespace + "\",pod=\"" + podName + "\"," + ContainerFilter + "}"
  }

  function CpuWorkloadQuery(namespace: string, selector: string): string
  {
    "sum by (pod) (rate(container_cpu_usage_seconds_total{namespace=\"" + namespace + "\"," + selector + ","
      + ContainerFilter + "}[5m]))"
  }

  function MemoryWorkloadQuery(namespace: string, selector: string): string
  {
    "sum by (pod) (container_memory_working_set_bytes{namespace=\"" + namespace + "\"," + selector + ","
      + ContainerFilter + "})"
  }

  /** The queried range: the window up to now, one sample a minute. */
  function WindowRange(window: int, now: int): TimeRange
  {
    TimeRange(now - window, now, Minute)
  }

  // ---------------------------------------------------------------
  // GetPodMetrics
  // ---------------------------------------------------------------

  const CpuQueryFailed := "failed to query CPU metrics: "
  const MemoryQueryFailed := "failed to query memory metrics: "

  /** The metrics of one pod: both histories from the matrix conversions, or the first query error. */
  function GetPodMetrics(namespace: string, podName: string, window: int, now: int, query: RangeQuery)
    : (r: Result<PodMetrics, string>)
    ensures r.Err? <==>
      query(CpuPodQuery(namespace, podName), WindowRange(window, now)).Err?
      || query(MemoryPodQuery(namespace, podName), WindowRange(window, now)).Err?
    ensures r.Ok? ==>
      && r.value.podName == podName && r.value.namespace == namespace
      && r.value.startTime == now - window && r.value.endTime == now
      && (forall i :: 0 <= i < |r.value.cpuUsageHistory| ==> r.value.cpuUsageHistory[i].unit == CoresUnit)
      && (forall i :: 0 <= i < |r.value.memUsageHistory| ==> r.value.memUsageHistory[i].unit == BytesUnit)
    ensures
      var cpu := query(CpuPodQuery(namespace, podName), WindowRange(window, now));
      var mem := query(MemoryPodQuery(namespace, podName), WindowRange(window, now));
      && (cpu.Err? ==> r == Err(CpuQueryFailed + cpu.error))
      && (cpu.Ok? && mem.Err? ==> r == Err(MemoryQueryFailed + mem.error))
      && (r.Ok? ==> r.value.cpuUsageHistory == MatrixHistory(cpu.value, CoresUnit)
                    && r.value.memUsageHistory == MatrixHistory(mem.value, BytesUnit))
  {
    var range := WindowRange(window, now);
    match query(CpuPodQuery(namespace, podName), range)
    case Err(e) => Err(CpuQueryFailed + e)
    case Ok(cpuResult) =>
      match query(MemoryPodQuery(namespace, podName), range)
      case Err(e) => Err(MemoryQueryFailed + e)
      case Ok(memResult) =>
        MatrixHistoryUnits(cpuResult, CoresUnit);
        MatrixHistoryUnits(memResult, BytesUnit);
        Ok(PodMetrics(podName, namespace, MatrixHistory(cpuResult, CoresUnit), MatrixHistory(memResult, BytesUnit),
                      now - window, now))
  }

  // ---------------------------------------------------------------
  // Grouping series by pod (GetWorkloadMetrics)
  // ---------------------------------------------------------------

  /** The pod label of a series; a missing label reads as the empty string. */
  function PodLabel(s: SampleStream): string
  {
    if "pod" in s.metric then s.metric["pod"] else ""
  }

  function SeriesOf(result: QueryValue): seq<SampleStream>
  {
    if result.Matrix? then result.series else []
  }

  /** The entry a pod gets when first seen: both histories empty. */
  function BaseOf(m: map<string, PodMetrics>, pod: string, namespace: string, start: int, end: int): PodMetrics
  {
    if pod in m then m[pod] else PodMetrics(pod, namespace, [], [], start, end)
  }

  function WithHistory(p: PodMetrics, u: Engine.Usage, h: seq<ResourceUsage>): PodMetrics
  {
    if u == Engine.CpuUsage then p.(cpuUsageHistory := h) else p.(memUsageHistory := h)
  }

  /** One series: skipped without a pod label, else the pod's entry (created if absent) gets its history. */
  function AddSeries(m: map<string, PodMetrics>, s: SampleStream, u: Engine.Usage, namespace: string, start: int, end: int)
    : map<string, PodMetrics>
  {
    var pod := PodLabel(s);
    if pod == "" then m
    else m[pod := WithHistory(BaseOf(m, pod, namespace, start, end), u, SampleHistory(s.values, UnitOf(u)))]
  }

  function AddAll(m: map<string, PodMetrics>, series: seq<SampleStream>, u: Engine.Usage, namespace: string, start: int, end: int)
    : map<string, PodMetrics>
    decreases |series|
  {
    if series == [] then m
    else AddSeries(AddAll(m, series[..|series| - 1], u, namespace, start, end), series[|series| - 1], u, namespace, start, end)
  }

  /** The last series labelled with the pod, if any; the empty label matches nothing. */
  function LastFor(series: seq<SampleStream>, pod: string): Option<SampleStream>
    decreases |series|
  {
    if series == [] || pod == "" then None
    else if PodLabel(series[|series| - 1]) == pod then Some(series[|series| - 1])
    else LastFor(series[..|series| - 1], pod)
  }

  /** LastFor finds a series exactly when some series carries the label. */
  lemma {:induction false} LastForFound(series: seq<SampleStream>, pod: string)
    ensures LastFor(series, pod).Some? <==> pod != "" && exists i :: 0 <= i < |series| && PodLabel(series[i]) == pod
    ensures LastFor(series, pod).Some? ==> LastFor(series, pod).value in series && PodLabel(LastFor(series, pod).value) == pod
    decreases |series|
  {
    if series != [] && pod != "" {
      var init := series[..|series| - 1];
      LastForFound(init, pod);
      if exists i :: 0 <= i < |init| && PodLabel(init[i]) == pod {
        var i :| 0 <= i < |init| && PodLabel(init[i]) == pod;
        assert series[i] == init[i];
      }
      if exists i :: 0 <= i < |series| && PodLabel(series[i]) == pod {
        var i :| 0 <= i < |series| && PodLabel(series[i]) == pod;
        if i < |init| {
          assert init[i] == series[i];
        }
      }
    }
  }

  /** Setting the same history twice keeps the second. */
  lemma {:induction false} WithHistoryTwice(p: PodMetrics, u: Engine.Usage, h1: seq<ResourceUsage>, h2: seq<ResourceUsage>)
    ensures WithHistory(WithHistory(p, u, h1), u, h2) == WithHistory(p, u, h2)
  {
  }

  /**
   * After a run of series, a pod has an entry exactly when it had one or
   * some series names it; its history for the run's resource is the last
   * such series', and every other field is what it was, or the fresh
   * entry's.
   */
  lemma {:induction false} AddAllEntry(m: map<string, PodMetrics>, series: seq<SampleStream>, u: Engine.Usage,
                                       namespace: string, start: int, end: int, pod: string)
    ensures pod in AddAll(m, series, u, namespace, start, end) <==> pod in m || LastFor(series, pod).Some?
    ensures pod in AddAll(m, series, u, namespace, start, end) ==>
      AddAll(m, series, u, namespace, start, end)[pod] ==
        match LastFor(series, pod)
        case None => m[pod]
        case Some(s) => WithHistory(BaseOf(m, pod, namespace, start, end), u, SampleHistory(s.values, UnitOf(u)))
    decreases |series|
  {
    if series != [] {
      var init := series[..|series| - 1];
      var last := series[|series| - 1];
      AddAllEntry(m, init, u, namespace, start, end, pod);
      var before := AddAll(m, init, u, namespace, start, end);
      if PodLabel(last) == pod && pod != "" {
        if LastFor(init, pod).Some? {
          WithHistoryTwice(BaseOf(m, pod, namespace, start, end), u,
                           SampleHistory(LastFor(init, pod).value.values, UnitOf(u)), SampleHistory(last.values, UnitOf(u)));
        }
      }
    }
  }

  /** The pods of the two query results, keyed by pod name. */
  function Grouped(cpuResult: QueryValue, memResult: QueryValue, namespace: string, start: int, end: int)
    : map<string, PodMetrics>
  {
    AddAll(AddAll(map[], SeriesOf(cpuResult), Engine.CpuUsage, namespace, start, end),
           SeriesOf(memResult), Engine.MemoryUsage, namespace, start, end)
  }

  /**
   * One entry per distinct non-empty pod label over both results. Its CPU
   * history is the last CPU series' samples for that pod, or empty when no
   * CPU series names it; likewise memory. Name, namespace and range are
   * the fresh entry's.
   */
  lemma {:induction false} GroupedEntry(cpuResult: QueryValue, memResult: QueryValue, namespace: string, start: int, end: int, pod: string)
    ensures pod in Grouped(cpuResult, memResult, namespace, start, end) <==>
      LastFor(SeriesOf(cpuResult), pod).Some? || LastFor(SeriesOf(memResult), pod).Some?
    ensures pod in Grouped(cpuResult, memResult, namespace, start, end) ==>
      var p := Grouped(cpuResult, memResult, namespace, start, end)[pod];
      && p.podName == pod && p.namespace == namespace && p.startTime == start && p.endTime == end
      && p.cpuUsageHistory == (match LastFor(SeriesOf(cpuResult), pod)
                               case None => []
                               case Some(s) => SampleHistory(s.values, CoresUnit))
      && p.memUsageHistory == (match LastFor(SeriesOf(memResult), pod)
                               case None => []
                               case Some(s) => SampleHistory(s.values, BytesUnit))
  {
    var cpuMap := AddAll(map[], SeriesOf(cpuResult), Engine.CpuUsage, namespace, start, end);
    AddAllEntry(map[], SeriesOf(cpuResult), Engine.CpuUsage, namespace, start, end, pod);
    AddAllEntry(cpuMap, SeriesOf(memResult), Engine.MemoryUsage, namespace, start, end, pod);
  }

  /** A method over the map: insert-if-absent, then overwrite one history. */
  method AddSeriesInPlace(m: map<string, PodMetrics>, order: seq<string>, s: SampleStream, u: Engine.Usage,
                          namespace: string, start: int, end: int)
    returns (m': map<string, PodMetrics>, order': seq<string>)
    requires forall k :: k in m <==> k in order
    requires forall i, j :: 0 <= i < j < |order| ==> order[i] != order[j]
    ensures m' == AddSeries(m, s, u, namespace, start, end)
    ensures forall k :: k in m' <==> k in order'
    ensures forall i, j :: 0 <= i < j < |order'| ==> order'[i] != order'[j]
  {
    m', order' := m, order;
    var podName := PodLabel(s);
    if podName == "" {
      return;
    }
    if podName !in m' {
      m' := m'[podName := PodMetrics(podName, namespace, [], [], start, end)];
      order' := order' + [podName];
    }
    var history := ConvertSamplePairToUsageHistory(s.values, UnitOf(u));
    m' := m'[podName := WithHistory(m'[podName], u, history)];
  }

  /** One podMetricsMap loop of GetWorkloadMetrics: every series of one result, in order. */
  method AddAllInPlace(m: map<string, PodMetrics>, order: seq<string>, series: seq<SampleStream>, u: Engine.Usage,
                       namespace: string, start: int, end: int)
    returns (m': map<string, PodMetrics>, order': seq<string>)
    requires forall k :: k in m <==> k in order
    requires forall i, j :: 0 <= i < j < |order| ==> order[i] != order[j]
    ensures m' == AddAll(m, series, u, namespace, start, end)
    ensures forall k :: k in m' <==> k in order'
    ensures forall i, j :: 0 <= i < j < |order'| ==> order'[i] != order'[j]
  {
    m', order' := m, order;
    var i := 0;
    while i < |series|
      invariant 0 <= i <= |series|
      invariant m' == AddAll(m, series[..i], u, namespace, start, end)
      invariant forall k :: k in m' <==> k in order'
      invariant forall a, b :: 0 <= a < b < |order'| ==> order'[a] != order'[b]
    {
      assert series[..i + 1][..i] == series[..i];
      m', order' := AddSeriesInPlace(m', order', series[i], u, namespace, start, end);
      i := i + 1;
    }
    assert series[..|series|] == series;
  }

  /** The podMetricsMap loops of GetWorkloadMetrics, then the map's values as a slice. */
  method GroupByPod(cpuResult: QueryValue, memResult: QueryValue, namespace: string, start: int, end: int)
    returns (pods: seq<PodMetrics>)
    ensures forall k :: k in Grouped(cpuResult, memResult, namespace, start, end) <==>
      exists i :: 0 <= i < |pods| && pods[i].podName == k
    ensures forall i :: 0 <= i < |pods| ==>
      pods[i].podName in Grouped(cpuResult, memResult, namespace, start, end)
      && pods[i] == Grouped(cpuResult, memResult, namespace, start, end)[pods[i].podName]
    ensures forall i, j :: 0 <= i < j < |pods| ==> pods[i].podName != pods[j].podName
  {
    var podMetricsMap, order := AddAllInPlace(map[], [], SeriesOf(cpuResult), Engine.CpuUsage, namespace, start, end);
    podMetricsMap, order := AddAllInPlace(podMetricsMap, order, SeriesOf(memResult), Engine.MemoryUsage, namespace, start, end);
    ghost var grouped := Grouped(cpuResult, memResult, namespace, start, end);
    assert podMetricsMap == grouped;
    NamesAreKeys(grouped, namespace, start, end);
    pods := ValuesInOrder(podMetricsMap, order);
    EntriesInOrder(grouped, order, pods);
  }

  /** The entries of a map with distinct keys, taken key by key, name each key once. */
  lemma {:induction false} EntriesInOrder(grouped: map<string, PodMetrics>, order: seq<string>, pods: seq<PodMetrics>)
    requires forall k :: k in grouped ==> grouped[k].podName == k
    requires forall k :: k in grouped <==> k in order
    requires forall i, j :: 0 <= i < j < |order| ==> order[i] != order[j]
    requires |pods| == |order| && forall a :: 0 <= a < |order| ==> pods[a] == grouped[order[a]]
    ensures forall k :: k in grouped <==> exists i :: 0 <= i < |pods| && pods[i].podName == k
    ensures forall i :: 0 <= i < |pods| ==> pods[i].podName in grouped && pods[i] == grouped[pods[i].podName]
    ensures forall i, j :: 0 <= i < j < |pods| ==> pods[i].podName != pods[j].podName
  {
    forall k | k in grouped
      ensures exists i :: 0 <= i < |pods| && pods[i].podName == k
    {
      var i :| 0 <= i < |order| && order[i] == k;
      assert pods[i].podName == k;
    }
  }

  /** The map's entries, one per key of the order, in that order. */
  method ValuesInOrder(m: map<string, PodMetrics>, order: seq<string>) returns (pods: seq<PodMetrics>)
    requires forall k :: k in order ==> k in m
    ensures |pods| == |order|
    ensures forall a :: 0 <= a < |order| ==> pods[a] == m[order[a]]
  {
    pods := [];
    var j := 0;
    while j < |order|
      invariant 0 <= j <= |order|
      invariant |pods| == j
      invariant forall a :: 0 <= a < j ==> pods[a] == m[order[a]]
    {
      pods := pods + [m[order[j]]];
      j := j + 1;
    }
  }

  /** Every grouped entry is filed under its own pod name. */
  lemma {:induction false} NamesAreKeys(grouped: map<string, PodMetrics>, namespace: string, start: int, end: int)
    requires exists cpuResult: QueryValue, memResult: QueryValue :: grouped == Grouped(cpuResult, memResult, namespace, start, end)
    ensures forall k :: k in grouped ==> grouped[k].podName == k
  {
    var cpuResult: QueryValue, memResult: QueryValue :| grouped == Grouped(cpuResult, memResult, namespace, start, end);
    forall k | k in grouped
      ensures grouped[k].podName == k
    {
      GroupedEntry(cpuResult, memResult, namespace, start, end, k);
    }
  }

  // ---------------------------------------------------------------
  // GetWorkloadMetrics
  // ---------------------------------------------------------------

  const WorkloadCpuQueryFailed := "failed to query workload CPU metrics: "
  const WorkloadMemoryQueryFailed := "failed to query workload memory metrics: "

  /**
   * The CPU query, then the memory query, each error ending the call; on
   * success one PodMetrics per pod named by a series, as Grouped describes.
   */
  method GetWorkloadMetrics(namespace: string, workloadName: string, workloadType: string, window: int, now: int,
                            query: RangeQuery)
    returns (r: Result<WorkloadMetrics, string>)
    ensures var selector := WorkloadSelector(workloadName, workloadType);
      var cpu := query(CpuWorkloadQuery(namespace, selector), WindowRange(window, now));
      var mem := query(MemoryWorkloadQuery(namespace, selector), WindowRange(window, now));
      && (cpu.Err? ==> r == Err(WorkloadCpuQueryFailed + cpu.error))
      && (cpu.Ok? && mem.Err? ==> r == Err(WorkloadMemoryQueryFailed + mem.error))
      && (cpu.Ok? && mem.Ok? ==>
            && r.Ok?
            && r.value.workloadName == workloadName && r.value.workloadType == workloadType
            && r.value.namespace == namespace && r.value.startTime == now - window && r.value.endTime == now
            && var grouped := Grouped(cpu.value, mem.value, namespace, now - window, now);
               && (forall k :: k in grouped <==> exists i :: 0 <= i < |r.value.pods| && r.value.pods[i].podName == k)
               && (forall i :: 0 <= i < |r.value.pods| ==>
                     r.value.pods[i].podName in grouped && r.value.pods[i] == grouped[r.value.pods[i].podName])
               && (forall i, j :: 0 <= i < j < |r.value.pods| ==> r.value.pods[i].podName != r.value.pods[j].podName))
  {
    var endTime := now;
    var startTime := endTime - window;
    var labelSelector := WorkloadSelector(workloadName, workloadType);
    var range := TimeRange(startTime, endTime, Minute);
    var cpuResult := query(CpuWorkloadQuery(namespace, labelSelector), range);
    if cpuResult.Err? {
      return Err(WorkloadCpuQueryFailed + cpuResult.error);
    }
    var memResult := query(MemoryWorkloadQuery(namespace, labelSelector), range);
    if memResult.Err? {
      return Err(WorkloadMemoryQueryFailed + memResult.error);
    }
    var pods := GroupByPod(cpuResult.value, memResult.value, namespace, startTime, endTime);
    r := Ok(WorkloadMetrics(workloadName, workloadType, namespace, pods, startTime, endTime));
  }

  // ---------------------------------------------------------------
  // The Metrics Server stub
  // ---------------------------------------------------------------

  /** 50m CPU and 64Mi memory, the stub's one sample of each. */
  const StubCpu: real := 0.05
  const StubMemory: real := 67108864.0

  /** The zero time.Time, which the workload stub leaves in its pod's range. */
  const ZeroTime: int := 0

  function StubPod(podName: string, namespace: string, now: int, start: int, end: int): PodMetrics
  {
    PodMetrics(podName, namespace, [ResourceUsage(now, StubCpu, CoresUnit)], [ResourceUsage(now, StubMemory, BytesUnit)],
               start, end)
  }

  /** MetricsServerClient.GetPodMetrics: one CPU and one memory sample at now. */
  function MetricsServerPodMetrics(namespace: string, podName: string, window: int, now: int): (p: PodMetrics)
    ensures p.podName == podName && p.namespace == namespace
    ensures |p.cpuUsageHistory| == 1 && |p.memUsageHistory| == 1
  {
    StubPod(podName, namespace, now, now - window, now)
  }

  /** MetricsServerClient.GetWorkloadMetrics: one pod, <workload>-sample-pod, with one sample of each. */
  function MetricsServerWorkloadMetrics(namespace: string, workloadName: string, workloadType: string, window: int, now: int)
    : (w: WorkloadMetrics)
    ensures w.workloadName == workloadName && w.workloadType == workloadType && w.namespace == namespace
    ensures |w.pods| == 1 && w.pods[0].podName == workloadName + "-sample-pod"
    ensures forall i :: 0 <= i < |w.pods| ==> |w.pods[i].cpuUsageHistory| == 1 && |w.pods[i].memUsageHistory| == 1
  {
    WorkloadMetrics(workloadName, workloadType, namespace,
                    [StubPod(workloadName + "-sample-pod", namespace, now, ZeroTime, ZeroTime)], now - window, now)
  }

  /**
   * The stub's single sample is below the default engine's minimum of ten,
   * so its pods always fail the CPU analysis and the metrics-server source
   * never yields a recommendation.
   */
  lemma {:induction false} StubNeverRecommends(namespace: string, workloadName: string, workloadType: string, window: int, now: int,
                            t: ResourceThresholds, sqrt: SqrtFn)
    ensures var w := MetricsServerWorkloadMetrics(namespace, workloadName, workloadType, window, now);
      && Engine.NewRecommendationEngine().PodOutcome(w.pods[0], t, sqrt)
           == Err(Engine.CpuAnalysisFailed(Engine.InsufficientData(Engine.CpuUsage, 1, 10)))
      && Engine.NewRecommendationEngine().Recommendations(w.pods, t, sqrt) == []
  {
    var e := Engine.NewRecommendationEngine();
    var w := MetricsServerWorkloadMetrics(namespace, workloadName, workloadType, window, now);
    e.InsufficientSamplesFail(w.pods[0], t, sqrt);
    assert w.pods[..0] == [];
  }

  // ---------------------------------------------------------------
  // parseQuantity
  // ---------------------------------------------------------------

  const Kibi: real := 1024.0
  const Mebi: real := 1048576.0
  const Gibi: real := 1073741824.0
  const Milli: real := 0.001

  /** The binary suffix multiplier, when the last two characters are one. */
  function BinaryMultiplier(suffix: string): Option<real>
  {
    match suffix
    case "Ki" => Some(Kibi)
    case "Mi" => Some(Mebi)
    case "Gi" => Some(Gibi)
    case _ => None
  }

  /**
   * The number text and its multiplier: a binary suffix is stripped when
   * the text is longer than two characters; then a trailing m, when it is
   * longer than one, overrides that.
   */
  function QuantityParts(quantity: string): (string, real)
  {
    var n := |quantity|;
    var binary := if n > 2 then BinaryMultiplier(quantity[n - 2..]) else None;
    var (value, multiplier) := if binary.Some? then (quantity[..n - 2], binary.value) else (quantity, 1.0);
    if n > 1 && quantity[n - 1..] == "m" then (quantity[..n - 1], Milli) else (value, multiplier)
  }

  const EmptyQuantity := "empty quantity"

  function ParseQuantity(quantity: string, parseFloat: FloatParser): Result<real, string>
  {
    if quantity == "" then Err(EmptyQuantity)
    else
      var (value, multiplier) := QuantityParts(quantity);
      match parseFloat(value)
      case Err(e) => Err("failed to parse quantity " + quantity + ": " + e)
      case Ok(parsed) => Ok(parsed * multiplier)
  }

  /** The parse of a number text, scaled: what a suffixed quantity should read as. */
  function Scaled(quantity: string, number: string, multiplier: real, parseFloat: FloatParser): Result<real, string>
  {
    match parseFloat(number)
    case Err(e) => Err("failed to parse quantity " + quantity + ": " + e)
    case Ok(x) => Ok(x * multiplier)
  }

  /**
   * A non-empty number followed by Ki, Mi, Gi or m reads as that number
   * times 1024, 1024^2, 1024^3 or 0.001.
   */
  lemma {:induction false} ParseQuantitySuffixes(number: string, parseFloat: FloatParser)
    requires |number| >= 1
    ensures ParseQuantity(number + "Ki", parseFloat) == Scaled(number + "Ki", number, Kibi, parseFloat)
    ensures ParseQuantity(number + "Mi", parseFloat) == Scaled(number + "Mi", number, Mebi, parseFloat)
    ensures ParseQuantity(number + "Gi", parseFloat) == Scaled(number + "Gi", number, Gibi, parseFloat)
    ensures ParseQuantity(number + "m", parseFloat) == Scaled(number + "m", number, Milli, parseFloat)
  {
    SuffixParts(number, "Ki");
    SuffixParts(number, "Mi");
    SuffixParts(number, "Gi");
    var q := number + "m";
    assert q[|q| - 1..] == "m" && q[..|q| - 1] == number;
  }

  lemma {:induction false} SuffixParts(number: string, suffix: string)
    requires |number| >= 1 && BinaryMultiplier(suffix).Some?
    ensures QuantityParts(number + suffix) == (number, BinaryMultiplier(suffix).value)
  {
    var q := number + suffix;
    assert q[|q| - 2..] == suffix && q[..|q| - 2] == number;
    assert q[|q| - 1..] == [suffix[1]];
  }

  /**
   * A text with no recognised suffix is parsed whole, unscaled; so are
   * "m", "Ki", "Mi" and "Gi" on their own, which the length guards keep.
   */
  lemma {:induction false} ParseQuantityPlain(quantity: string, parseFloat: FloatParser)
    requires quantity != ""
    requires !(|quantity| > 2 && BinaryMultiplier(quantity[|quantity| - 2..]).Some?)
    requires !(|quantity| > 1 && quantity[|quantity| - 1] == 'm')
    ensures ParseQuantity(quantity, parseFloat) == Scaled(quantity, quantity, 1.0, parseFloat)
  {
    var n := |quantity|;
    if n > 1 {
      assert quantity[n - 1..] == [quantity[n - 1]];
      assert quantity[n - 1..] != "m";
    }
    assert QuantityParts(quantity) == (quantity, 1.0);
  }

  /** The empty text is the one error that does not consult the parser. */
  lemma {:induction false} ParseQuantityEmpty(parseFloat: FloatParser)
    ensures ParseQuantity("", parseFloat) == Err(EmptyQuantity)
    ensures forall q :: q != "" && ParseQuantity(q, parseFloat).Err? ==> parseFloat(QuantityParts(q).0).Err?
  {
  }
}
