/**
 * The PodRightSizing custom resource (group rightsizing, version v1alpha1)
 * and the metrics records the analyzers consume.
 *
 * Quantities are integers: under the Cpu key a quantity counts millicores,
 * under the Memory key it counts bytes. Times and durations are integers
 * counting nanoseconds, as Go's time.Duration does.
 */
module Types {
  import opened Common

  // ---------------------------------------------------------------
  // Resources
  // ---------------------------------------------------------------

  datatype ResourceName = Cpu | Memory | OtherResource(name: string)

  /** corev1.ResourceList: resource name to quantity. */
  type ResourceList = map<ResourceName, int>

  /** corev1.ResourceRequirements (requests and limits). */
  datatype ResourceRequirements = ResourceRequirements(requests: ResourceList, limits: ResourceList)

  const NoRequirements: ResourceRequirements := ResourceRequirements(map[], map[])

  /** Quantity.AsApproximateFloat64: cores for CPU, bytes for memory. */
  function ApproximateFloat(name: ResourceName, q: int): real
  {
    if name == Cpu then q as real / 1000.0 else q as real
  }

  const Nanosecond: int := 1
  const Second: int := 1_000_000_000
  const Minute: int := 60 * Second
  const Hour: int := 60 * Minute

  const MaxInt32: int := 0x7fff_ffff

  /** time.ParseDuration, supplied by the caller: nanoseconds, or the parser's error text. */
  type DurationParser = string -> Result<int, string>

  /** cron.ParseStandard, supplied by the caller: None when the expression parses, else the error text. */
  type CronParser = string -> Option<string>

  // ---------------------------------------------------------------
  // Enumerations. The three string-typed fields keep the raw text of a
  // value the API does not know, because the admission webhook judges it.
  // ---------------------------------------------------------------

  datatype Phase = Initializing | Analyzing | Recommending | Updating | Completed | Error

  datatype UpdateStrategy = StrategyUnset | Immediate | Gradual | Manual | UnknownStrategy(raw: string)

  function StrategyFromString(s: string): UpdateStrategy
  {
    match s
    case "" => StrategyUnset
    case "immediate" => Immediate
    case "gradual" => Gradual
    case "manual" => Manual
    case _ => UnknownStrategy(s)
  }

  function StrategyName(u: UpdateStrategy): string
  {
    match u
    case StrategyUnset => ""
    case Immediate => "immediate"
    case Gradual => "gradual"
    case Manual => "manual"
    case UnknownStrategy(raw) => raw
  }

  datatype MetricsSourceType = SourceUnset | Prometheus | MetricsServer | UnknownSource(raw: string)

  function SourceTypeFromString(s: string): MetricsSourceType
  {
    match s
    case "" => SourceUnset
    case "prometheus" => Prometheus
    case "metrics-server" => MetricsServer
    case _ => UnknownSource(s)
  }

  function SourceTypeName(t: MetricsSourceType): string
  {
    match t
    case SourceUnset => ""
    case Prometheus => "prometheus"
    case MetricsServer => "metrics-server"
    case UnknownSource(raw) => raw
  }

  datatype AuthType = AuthUnset | AuthNone | AuthBasic | AuthBearer | UnknownAuth(raw: string)

  function AuthTypeFromString(s: string): AuthType
  {
    match s
    case "" => AuthUnset
    case "none" => AuthNone
    case "basic" => AuthBasic
    case "bearer" => AuthBearer
    case _ => UnknownAuth(s)
  }

  function AuthTypeName(t: AuthType): string
  {
    match t
    case AuthUnset => ""
    case AuthNone => "none"
    case AuthBasic => "basic"
    case AuthBearer => "bearer"
    case UnknownAuth(raw) => raw
  }

  /** Reading a field from its JSON text and writing it back gives the same text. */
  lemma {:induction false} EnumTextRoundTrip(s: string)
    ensures StrategyName(StrategyFromString(s)) == s
    ensures SourceTypeName(SourceTypeFromString(s)) == s
    ensures AuthTypeName(AuthTypeFromString(s)) == s
  {
  }

  // ---------------------------------------------------------------
  // Spec
  // ---------------------------------------------------------------

  datatype LabelSelectorRequirement = LabelSelectorRequirement(key: string, operator: string, values: seq<string>)

  /** metav1.LabelSelector; parsing and matching are supplied by the caller. */
  datatype LabelSelector = LabelSelector(matchLabels: map<string, string>, matchExpressions: seq<LabelSelectorRequirement>)

  datatype TargetSpec = TargetSpec(
    namespace: string,
    labelSelector: Option<LabelSelector>,
    namespaceSelector: Option<LabelSelector>,
    excludeNamespaces: seq<string>,
    includeWorkloadTypes: seq<string>)

  datatype IntOrString = IntValue(i: int) | StringValue(s: string)

  datatype UpdatePolicy = UpdatePolicy(
    strategy: UpdateStrategy,
    maxUnavailable: Option<IntOrString>,
    maxSurge: Option<IntOrString>,
    backoffLimit: int,
    minStabilityPeriod: string)

  /** Percentile and margin fields are plain ints; the four bounds are quantities. */
  datatype ResourceThresholds = ResourceThresholds(
    cpuUtilizationPercentile: int,
    memoryUtilizationPercentile: int,
    minCPU: int,
    maxCPU: int,
    minMemory: int,
    maxMemory: int,
    safetyMargin: int,
    minChangeThreshold: int)

  datatype SecretReference = SecretReference(name: string, namespace: string)

  datatype AuthConfig = AuthConfig(authType: AuthType, secretRef: Option<SecretReference>)

  datatype PrometheusConfig = PrometheusConfig(url: string, insecureSkipTLSVerify: bool, authConfig: Option<AuthConfig>)

  datatype MetricsSourceSpec = MetricsSourceSpec(sourceType: MetricsSourceType, prometheusConfig: Option<PrometheusConfig>)

  datatype PodRightSizingSpec = PodRightSizingSpec(
    target: TargetSpec,
    analysisWindow: string,
    updatePolicy: UpdatePolicy,
    thresholds: ResourceThresholds,
    metricsSource: MetricsSourceSpec,
    schedule: string,
    dryRun: bool)

  // ---------------------------------------------------------------
  // Status
  // ---------------------------------------------------------------

  datatype PodReference = PodReference(name: string, namespace: string, workloadType: string, workloadName: string)

  /**
   * ResourceSavings. The cost text "$<amount>/month" is represented by its
   * amount: None stands for an empty CostSavings string.
   */
  datatype ResourceSavings = ResourceSavings(cpuSavings: Option<int>, memorySavings: Option<int>, costSavings: Option<real>)

  datatype PodRecommendation = PodRecommendation(
    podReference: PodReference,
    currentResources: ResourceRequirements,
    recommendedResources: ResourceRequirements,
    reason: string,
    confidence: int,
    potentialSavings: ResourceSavings,
    applied: bool,
    appliedTime: Option<int>)

  datatype Condition = Condition(conditionType: string, status: string, reason: string, message: string)

  /** PodRightSizingStatus; a phase of None is the unset (empty) phase. */
  datatype Status = Status(
    phase: Option<Phase>,
    message: string,
    lastAnalysisTime: Option<int>,
    lastUpdateTime: Option<int>,
    targetedPods: int,
    updatedPods: int,
    recommendations: seq<PodRecommendation>,
    conditions: seq<Condition>)

  // ---------------------------------------------------------------
  // Metrics records
  // ---------------------------------------------------------------

  datatype ResourceUsage = ResourceUsage(timestamp: int, value: real, unit: string)

  datatype PodMetrics = PodMetrics(
    podName: string,
    namespace: string,
    cpuUsageHistory: seq<ResourceUsage>,
    memUsageHistory: seq<ResourceUsage>,
    startTime: int,
    endTime: int)

  datatype WorkloadMetrics = WorkloadMetrics(
    workloadName: string,
    workloadType: string,
    namespace: string,
    pods: seq<PodMetrics>,
    startTime: int,
    endTime: int)

  /** The sample values of a usage history, in order. */
  function Values(h: seq<ResourceUsage>): (v: seq<real>)
    ensures |v| == |h|
    ensures forall i :: 0 <= i < |h| ==> v[i] == h[i].value
  {
    seq(|h|, i requires 0 <= i < |h| => h[i].value)
  }
}
