/**
 * Admission validation of a PodRightSizing spec
 * (api/v1alpha1/podrightsizing_webhook.go): six validators, each growing a
 * list of field errors by conditional appends, and their concatenation.
 * time.ParseDuration and cron.ParseStandard are supplied by the caller.
 * Enumerations are judged by their JSON text, as the source compares
 * strings.
 */
module Webhook {
  import opened Common
  import opened Types

  // ---------------------------------------------------------------
  // field.Path and field.Error
  // ---------------------------------------------------------------

  datatype PathElement = Child(name: string) | Index(i: int)

  type FieldPath = seq<PathElement>

  datatype ErrorType = Required | Invalid

  /** The offending value an error quotes; a quantity is quoted by its integer count. */
  datatype BadValue = NoValue | TextValue(text: string) | IntegerValue(n: int) | QuantityValue(q: int)

  datatype FieldError = FieldError(errorType: ErrorType, field: FieldPath, badValue: BadValue, detail: string)

  /** field.Required: no value is quoted. */
  function RequiredError(path: FieldPath, detail: string): (e: FieldError)
    ensures e.errorType == Required && e.field == path && e.badValue == NoValue
  {
    FieldError(Required, path, NoValue, detail)
  }

  /** field.Invalid: the offending value is quoted. */
  function InvalidError(path: FieldPath, value: BadValue, detail: string): (e: FieldError)
    ensures e.errorType == Invalid && e.field == path && e.badValue == value
  {
    FieldError(Invalid, path, value, detail)
  }

  /** A child of a path: the path one element longer. */
  function ChildPath(base: FieldPath, name: string): (p: FieldPath)
    ensures |p| == |base| + 1 && p[|base|] == Child(name)
  {
    base + [Child(name)]
  }

  /** A list holding the error when the condition holds, nothing otherwise. */
  function When(condition: bool, e: FieldError): (r: seq<FieldError>)
    ensures r == [] <==> !condition
    ensures condition ==> r == [e]
  {
    if condition then [e] else []
  }

  /** Appending an error under a condition is appending the list When builds. */
  lemma {:induction false} AppendWhen(acc: seq<FieldError>, condition: bool, e: FieldError)
    ensures (if condition then acc + [e] else acc) == acc + When(condition, e)
    ensures [] + When(condition, e) == When(condition, e)
  {
    if !condition {
      assert acc + When(condition, e) == acc;
    }
  }

  /** Whether some error of the list reports the given field. */
  predicate Reports(errs: seq<FieldError>, path: FieldPath)
  {
    exists i :: 0 <= i < |errs| && errs[i].field == path
  }

  /** A concatenation reports a field when either part does. */
  lemma {:induction false} ReportsAppend(a: seq<FieldError>, b: seq<FieldError>, path: FieldPath)
    ensures Reports(a + b, path) <==> Reports(a, path) || Reports(b, path)
  {
    if Reports(a, path) {
      var i :| 0 <= i < |a| && a[i].field == path;
      assert (a + b)[i] == a[i];
    }
    if Reports(b, path) {
      var i :| 0 <= i < |b| && b[i].field == path;
      assert (a + b)[|a| + i] == b[i];
    }
    if Reports(a + b, path) {
      var i :| 0 <= i < |a + b| && (a + b)[i].field == path;
      if i < |a| {
        assert (a + b)[i] == a[i];
      } else {
        assert (a + b)[i] == b[i - |a|];
      }
    }
  }

  lemma {:induction false} ReportsWhen(condition: bool, e: FieldError, path: FieldPath)
    ensures Reports(When(condition, e), path) <==> condition && e.field == path
  {
    if condition {
      assert When(condition, e)[0] == e;
    }
  }

  // ---------------------------------------------------------------
  // validateTarget
  // ---------------------------------------------------------------

  const SpecPath: FieldPath := [Child("spec")]
  const TargetPath: FieldPath := ChildPath(SpecPath, "target")
  const TargetNamespacePath: FieldPath := ChildPath(TargetPath, "namespace")
  const WorkloadTypesPath: FieldPath := ChildPath(TargetPath, "includeWorkloadTypes")

  const TargetRequiredDetail := "must specify at least one of: namespace, labelSelector, or namespaceSelector"
  const BothNamespacesDetail := "cannot specify both namespace and namespaceSelector"
  const WorkloadTypeDetail := "must be one of: Deployment, StatefulSet, DaemonSet, Job, CronJob"

  const ValidWorkloadTypes: set<string> := {"Deployment", "StatefulSet", "DaemonSet", "Job", "CronJob"}

  /** The target selects nothing. */
  function NoSelectorError(): FieldError
  {
    RequiredError(TargetPath, TargetRequiredDetail)
  }

  function BothNamespacesError(namespace: string): FieldError
  {
    InvalidError(TargetNamespacePath, TextValue(namespace), BothNamespacesDetail)
  }

  /** The error for entry i of includeWorkloadTypes, naming that index. */
  function WorkloadTypeError(i: int, workloadType: string): FieldError
  {
    InvalidError(WorkloadTypesPath + [Index(i)], TextValue(workloadType), WorkloadTypeDetail)
  }

  /** One error per unknown workload type, at that entry's index, in order. */
  function WorkloadTypeErrors(types: seq<string>): seq<FieldError>
    decreases |types|
  {
    if types == [] then []
    else
      var i := |types| - 1;
      WorkloadTypeErrors(types[..i]) + When(types[i] !in ValidWorkloadTypes, WorkloadTypeError(i, types[i]))
  }

  lemma {:induction false} WorkloadTypeStep(types: seq<string>, i: int)
    requires 0 <= i < |types|
    ensures WorkloadTypeErrors(types[..i + 1])
      == WorkloadTypeErrors(types[..i]) + When(types[i] !in ValidWorkloadTypes, WorkloadTypeError(i, types[i]))
  {
    assert types[..i + 1][..i] == types[..i];
  }

  function TargetErrors(t: TargetSpec): seq<FieldError>
  {
    When(t.namespace == "" && t.labelSelector.None? && t.namespaceSelector.None?, NoSelectorError())
      + When(t.namespace != "" && t.namespaceSelector.Some?, BothNamespacesError(t.namespace))
      + WorkloadTypeErrors(t.includeWorkloadTypes)
  }

  /**
   * Every workload-type error names an unknown entry, at its index and
   * with its text, and every unknown entry has one.
   */
  lemma {:induction false} WorkloadTypeErrorsExact(types: seq<string>)
    ensures forall e :: e in WorkloadTypeErrors(types) ==>
      exists k :: 0 <= k < |types| && types[k] !in ValidWorkloadTypes && e == WorkloadTypeError(k, types[k])
    ensures forall k :: 0 <= k < |types| && types[k] !in ValidWorkloadTypes ==>
      WorkloadTypeError(k, types[k]) in WorkloadTypeErrors(types)
    decreases |types|
  {
    if types != [] {
      var i := |types| - 1;
      WorkloadTypeErrorsExact(types[..i]);
      assert forall k :: 0 <= k < i ==> types[..i][k] == types[k];
    }
  }

  /** validateTarget accepts exactly a target with some selection, not both namespace forms, and known types. */
  lemma {:induction false} TargetErrorsEmptyIff(t: TargetSpec)
    ensures TargetErrors(t) == [] <==>
      && (t.namespace != "" || t.labelSelector.Some? || t.namespaceSelector.Some?)
      && !(t.namespace != "" && t.namespaceSelector.Some?)
      && forall k :: 0 <= k < |t.includeWorkloadTypes| ==> t.includeWorkloadTypes[k] in ValidWorkloadTypes
  {
    var types := t.includeWorkloadTypes;
    WorkloadTypeErrorsExact(types);
    if exists k :: 0 <= k < |types| && types[k] !in ValidWorkloadTypes {
      var k :| 0 <= k < |types| && types[k] !in ValidWorkloadTypes;
      assert WorkloadTypeError(k, types[k]) in WorkloadTypeErrors(types);
    } else if WorkloadTypeErrors(types) != [] {
      assert WorkloadTypeErrors(types)[0] in WorkloadTypeErrors(types);
    }
  }

  method ValidateTarget(t: TargetSpec) returns (allErrs: seq<FieldError>)
    ensures allErrs == TargetErrors(t)
  {
    allErrs := [];
    AppendWhen(allErrs, t.namespace == "" && t.labelSelector.None? && t.namespaceSelector.None?, NoSelectorError());
    if t.namespace == "" && t.labelSelector.None? && t.namespaceSelector.None? {
      allErrs := allErrs + [NoSelectorError()];
    }
    AppendWhen(allErrs, t.namespace != "" && t.namespaceSelector.Some?, BothNamespacesError(t.namespace));
    if t.namespace != "" && t.namespaceSelector.Some? {
      allErrs := allErrs + [BothNamespacesError(t.namespace)];
    }
    if |t.includeWorkloadTypes| > 0 {
      allErrs := AppendWorkloadTypeErrors(allErrs, t.includeWorkloadTypes);
    } else {
      assert allErrs + WorkloadTypeErrors([]) == allErrs;
    }
  }

  /** The loop over includeWorkloadTypes: one error appended per unknown entry, naming its index. */
  method AppendWorkloadTypeErrors(head: seq<FieldError>, types: seq<string>) returns (allErrs: seq<FieldError>)
    ensures allErrs == head + WorkloadTypeErrors(types)
  {
    allErrs := head;
    var i := 0;
    assert types[..0] == [];
    assert head + WorkloadTypeErrors([]) == head;
    while i < |types|
      invariant 0 <= i <= |types|
      invariant allErrs == head + WorkloadTypeErrors(types[..i])
    {
      var e := WorkloadTypeError(i, types[i]);
      WorkloadTypeStep(types, i);
      AppendWhen(allErrs, types[i] !in ValidWorkloadTypes, e);
      assert head + WorkloadTypeErrors(types[..i + 1]) == allErrs + When(types[i] !in ValidWorkloadTypes, e);
      if types[i] !in ValidWorkloadTypes {
        allErrs := allErrs + [e];
      }
      i := i + 1;
    }
    assert types[..|types|] == types;
  }

  // ---------------------------------------------------------------
  // validateThresholds
  // ---------------------------------------------------------------

  const ThresholdsPath: FieldPath := ChildPath(SpecPath, "thresholds")

  const CpuPercentileField := "cpuUtilizationPercentile"
  const MemoryPercentileField := "memoryUtilizationPercentile"
  const SafetyMarginField := "safetyMargin"
  const MinChangeField := "minChangeThreshold"
  const MinCpuField := "minCpu"
  const MinMemoryField := "minMemory"

  const PercentileDetail := "must be between 0 and 100"
  const SafetyMarginDetail := "must be between 0 and 1000 (percentage)"
  const MinChangeDetail := "must be between 0 and 100 (percentage)"
  const MinCpuDetail := "minCpu cannot be greater than maxCpu"
  const MinMemoryDetail := "minMemory cannot be greater than maxMemory"

  predicate OutOfRange(x: int, lo: int, hi: int) { x < lo || x > hi }

  /** A minimum above its maximum, judged only when both quantities are set. */
  predicate Inverted(min: int, max: int) { min != 0 && max != 0 && min > max }

  function ThresholdError(field: string, value: BadValue, detail: string): FieldError
  {
    InvalidError(ChildPath(ThresholdsPath, field), value, detail)
  }

  function ThresholdErrors(t: ResourceThresholds): seq<FieldError>
  {
    When(OutOfRange(t.cpuUtilizationPercentile, 0, 100),
         ThresholdError(CpuPercentileField, IntegerValue(t.cpuUtilizationPercentile), PercentileDetail))
      + When(OutOfRange(t.memoryUtilizationPercentile, 0, 100),
             ThresholdError(MemoryPercentileField, IntegerValue(t.memoryUtilizationPercentile), PercentileDetail))
      + When(OutOfRange(t.safetyMargin, 0, 1000),
             ThresholdError(SafetyMarginField, IntegerValue(t.safetyMargin), SafetyMarginDetail))
      + When(OutOfRange(t.minChangeThreshold, 0, 100),
             ThresholdError(MinChangeField, IntegerValue(t.minChangeThreshold), MinChangeDetail))
      + When(Inverted(t.minCPU, t.maxCPU), ThresholdError(MinCpuField, QuantityValue(t.minCPU), MinCpuDetail))
      + When(Inverted(t.minMemory, t.maxMemory), ThresholdError(MinMemoryField, QuantityValue(t.minMemory), MinMemoryDetail))
  }

  /**
   * validateThresholds accepts exactly percentiles in [0, 100], a margin in
   * [0, 1000], a change threshold in [0, 100], and bounds that are ordered
   * whenever both of a pair are set.
   */
  lemma {:induction false} ThresholdErrorsEmptyIff(t: ResourceThresholds)
    ensures ThresholdErrors(t) == [] <==>
      && 0 <= t.cpuUtilizationPercentile <= 100
      && 0 <= t.memoryUtilizationPercentile <= 100
      && 0 <= t.safetyMargin <= 1000
      && 0 <= t.minChangeThreshold <= 100
      && (t.minCPU == 0 || t.maxCPU == 0 || t.minCPU <= t.maxCPU)
      && (t.minMemory == 0 || t.maxMemory == 0 || t.minMemory <= t.maxMemory)
  {
  }

  /** Each threshold field is reported exactly when its own rule is broken. */
  lemma {:induction false} ThresholdReported(t: ResourceThresholds, field: string)
    ensures Reports(ThresholdErrors(t), ChildPath(ThresholdsPath, field)) <==>
      || (field == CpuPercentileField && OutOfRange(t.cpuUtilizationPercentile, 0, 100))
      || (field == MemoryPercentileField && OutOfRange(t.memoryUtilizationPercentile, 0, 100))
      || (field == SafetyMarginField && OutOfRange(t.safetyMargin, 0, 1000))
      || (field == MinChangeField && OutOfRange(t.minChangeThreshold, 0, 100))
      || (field == MinCpuField && Inverted(t.minCPU, t.maxCPU))
      || (field == MinMemoryField && Inverted(t.minMemory, t.maxMemory))
  {
    var path := ChildPath(ThresholdsPath, field);
    var a := When(OutOfRange(t.cpuUtilizationPercentile, 0, 100),
         ThresholdError(CpuPercentileField, IntegerValue(t.cpuUtilizationPercentile), PercentileDetail));
    var b := When(OutOfRange(t.memoryUtilizationPercentile, 0, 100),
             ThresholdError(MemoryPercentileField, IntegerValue(t.memoryUtilizationPercentile), PercentileDetail));
    var c := When(OutOfRange(t.safetyMargin, 0, 1000),
             ThresholdError(SafetyMarginField, IntegerValue(t.safetyMargin), SafetyMarginDetail));
    var d := When(OutOfRange(t.minChangeThreshold, 0, 100),
             ThresholdError(MinChangeField, IntegerValue(t.minChangeThreshold), MinChangeDetail));
    var e := When(Inverted(t.minCPU, t.maxCPU), ThresholdError(MinCpuField, QuantityValue(t.minCPU), MinCpuDetail));
    var f := When(Inverted(t.minMemory, t.maxMemory), ThresholdError(MinMemoryField, QuantityValue(t.minMemory), MinMemoryDetail));
    ReportsAppend(a + b + c + d + e, f, path);
    ReportsAppend(a + b + c + d, e, path);
    ReportsAppend(a + b + c, d, path);
    ReportsAppend(a + b, c, path);
    ReportsAppend(a, b, path);
    ReportsWhen(OutOfRange(t.cpuUtilizationPercentile, 0, 100),
         ThresholdError(CpuPercentileField, IntegerValue(t.cpuUtilizationPercentile), PercentileDetail), path);
    ReportsWhen(OutOfRange(t.memoryUtilizationPercentile, 0, 100),
             ThresholdError(MemoryPercentileField, IntegerValue(t.memoryUtilizationPercentile), PercentileDetail), path);
    ReportsWhen(OutOfRange(t.safetyMargin, 0, 1000),
             ThresholdError(SafetyMarginField, IntegerValue(t.safetyMargin), SafetyMarginDetail), path);
    ReportsWhen(OutOfRange(t.minChangeThreshold, 0, 100),
             ThresholdError(MinChangeField, IntegerValue(t.minChangeThreshold), MinChangeDetail), path);
    ReportsWhen(Inverted(t.minCPU, t.maxCPU), ThresholdError(MinCpuField, QuantityValue(t.minCPU), MinCpuDetail), path);
    ReportsWhen(Inverted(t.minMemory, t.maxMemory), ThresholdError(MinMemoryField, QuantityValue(t.minMemory), MinMemoryDetail), path);
    forall g | g in [CpuPercentileField, MemoryPercentileField, SafetyMarginField, MinChangeField, MinCpuField, MinMemoryField]
      ensures ChildPath(ThresholdsPath, g) == path <==> g == field
    {
      assert ChildPath(ThresholdsPath, g)[|ThresholdsPath|] == Child(g);
      assert path[|ThresholdsPath|] == Child(field);
    }
  }

  /** One range check of validateThresholds: the error joins the list when x is outside [lo, hi]. */
  method CheckRange(allErrs: seq<FieldError>, x: int, lo: int, hi: int, e: FieldError) returns (r: seq<FieldError>)
    ensures r == allErrs + When(OutOfRange(x, lo, hi), e)
  {
    AppendWhen(allErrs, OutOfRange(x, lo, hi), e);
    r := allErrs;
    if x < lo || x > hi {
      r := r + [e];
    }
  }

  /** One bound check of validateThresholds: the error joins the list when both are set and min exceeds max. */
  method CheckOrdered(allErrs: seq<FieldError>, min: int, max: int, e: FieldError) returns (r: seq<FieldError>)
    ensures r == allErrs + When(Inverted(min, max), e)
  {
    AppendWhen(allErrs, Inverted(min, max), e);
    r := allErrs;
    if min != 0 && max != 0 {
      if min > max {
        r := r + [e];
      }
    }
  }

  method ValidateThresholds(t: ResourceThresholds) returns (allErrs: seq<FieldError>)
    ensures allErrs == ThresholdErrors(t)
  {
    allErrs := [];
    var e := ThresholdError(CpuPercentileField, IntegerValue(t.cpuUtilizationPercentile), PercentileDetail);
    allErrs := CheckRange(allErrs, t.cpuUtilizationPercentile, 0, 100, e);
    assert allErrs == When(OutOfRange(t.cpuUtilizationPercentile, 0, 100), e);
    allErrs := CheckRange(allErrs, t.memoryUtilizationPercentile, 0, 100,
      ThresholdError(MemoryPercentileField, IntegerValue(t.memoryUtilizationPercentile), PercentileDetail));
    allErrs := CheckRange(allErrs, t.safetyMargin, 0, 1000,
      ThresholdError(SafetyMarginField, IntegerValue(t.safetyMargin), SafetyMarginDetail));
    allErrs := CheckRange(allErrs, t.minChangeThreshold, 0, 100,
      ThresholdError(MinChangeField, IntegerValue(t.minChangeThreshold), MinChangeDetail));
    allErrs := CheckOrdered(allErrs, t.minCPU, t.maxCPU, ThresholdError(MinCpuField, QuantityValue(t.minCPU), MinCpuDetail));
    allErrs := CheckOrdered(allErrs, t.minMemory, t.maxMemory,
      ThresholdError(MinMemoryField, QuantityValue(t.minMemory), MinMemoryDetail));
  }

  // ---------------------------------------------------------------
  // validateAnalysisWindow and validateSchedule
  // ---------------------------------------------------------------

  const WindowPath: FieldPath := ChildPath(SpecPath, "analysisWindow")
  const SchedulePath: FieldPath := ChildPath(SpecPath, "schedule")

  const MaxWindow: int := 90 * 24 * Hour

  const InvalidDurationPrefix := "invalid duration format: "
  const InvalidCronPrefix := "invalid cron expression: "
  const WindowTooShortDetail := "analysis window must be at least 1 hour"
  const WindowTooLongDetail := "analysis window must not exceed 90 days"

  function WindowErrors(window: string, parse: DurationParser): seq<FieldError>
  {
    if window == "" then []
    else match parse(window)
      case Err(msg) => [InvalidError(WindowPath, TextValue(window), InvalidDurationPrefix + msg)]
      case Ok(d) =>
        When(d < Hour, InvalidError(WindowPath, TextValue(window), WindowTooShortDetail))
          + When(d > MaxWindow, InvalidError(WindowPath, TextValue(window), WindowTooLongDetail))
  }

  /**
   * At most one window error: none for an empty window or one that parses
   * within [1h, 90 days]; exactly one for a window that does not parse.
   */
  lemma {:induction false} WindowErrorsShape(window: string, parse: DurationParser)
    ensures |WindowErrors(window, parse)| <= 1
    ensures WindowErrors(window, parse) == [] <==>
      window == "" || (parse(window).Ok? && Hour <= parse(window).value <= MaxWindow)
    ensures window != "" && parse(window).Err? ==> |WindowErrors(window, parse)| == 1
  {
  }

  method ValidateAnalysisWindow(window: string, parse: DurationParser) returns (allErrs: seq<FieldError>)
    ensures allErrs == WindowErrors(window, parse)
  {
    allErrs := [];
    if window == "" {
      return;
    }
    var parsed := parse(window);
    if parsed.Err? {
      allErrs := allErrs + [InvalidError(WindowPath, TextValue(window), InvalidDurationPrefix + parsed.error)];
      return;
    }
    var duration := parsed.value;
    if duration < Hour {
      allErrs := allErrs + [InvalidError(WindowPath, TextValue(window), WindowTooShortDetail)];
    }
    if duration > MaxWindow {
      allErrs := allErrs + [InvalidError(WindowPath, TextValue(window), WindowTooLongDetail)];
    }
  }

  function ScheduleErrors(schedule: string, cron: CronParser): seq<FieldError>
  {
    if schedule == "" then []
    else match cron(schedule)
      case None => []
      case Some(msg) => [InvalidError(SchedulePath, TextValue(schedule), InvalidCronPrefix + msg)]
  }

  /** An empty schedule is accepted; any other is rejected, with one error, exactly when it does not parse. */
  lemma {:induction false} ScheduleErrorsShape(schedule: string, cron: CronParser)
    ensures |ScheduleErrors(schedule, cron)| <= 1
    ensures ScheduleErrors(schedule, cron) != [] <==> schedule != "" && cron(schedule).Some?
  {
  }

  method ValidateSchedule(schedule: string, cron: CronParser) returns (allErrs: seq<FieldError>)
    ensures allErrs == ScheduleErrors(schedule, cron)
  {
    allErrs := [];
    if schedule == "" {
      return;
    }
    var err := cron(schedule);
    if err.Some? {
      allErrs := allErrs + [InvalidError(SchedulePath, TextValue(schedule), InvalidCronPrefix + err.value)];
    }
  }

  // ---------------------------------------------------------------
  // validateUpdatePolicy
  // ---------------------------------------------------------------

  const PolicyPath: FieldPath := ChildPath(SpecPath, "updatePolicy")

  const ValidStrategies: set<string> := {"immediate", "gradual", "manual"}

  const StrategyDetail := "must be one of: immediate, gradual, manual"
  const BackoffDetail := "must be non-negative"

  function StrategyError(strategy: string): FieldError
  {
    InvalidError(ChildPath(PolicyPath, "strategy"), TextValue(strategy), StrategyDetail)
  }

  function BackoffError(limit: int): FieldError
  {
    InvalidError(ChildPath(PolicyPath, "backoffLimit"), IntegerValue(limit), BackoffDetail)
  }

  function StabilityError(period: string, msg: string): FieldError
  {
    InvalidError(ChildPath(PolicyPath, "minStabilityPeriod"), TextValue(period), InvalidDurationPrefix + msg)
  }

  function UpdatePolicyErrors(p: UpdatePolicy, parse: DurationParser): seq<FieldError>
  {
    var strategy := StrategyName(p.strategy);
    When(strategy != "" && strategy !in ValidStrategies, StrategyError(strategy))
      + When(p.backoffLimit < 0, BackoffError(p.backoffLimit))
      + (if p.minStabilityPeriod != "" && parse(p.minStabilityPeriod).Err? then
           [StabilityError(p.minStabilityPeriod, parse(p.minStabilityPeriod).error)]
         else [])
  }

  /**
   * validateUpdatePolicy accepts exactly a strategy whose text reads back
   * as unset, immediate, gradual or manual, a backoff limit that is not
   * negative, and a stability period that is empty or parses.
   */
  lemma {:induction false} UpdatePolicyErrorsEmptyIff(p: UpdatePolicy, parse: DurationParser)
    ensures UpdatePolicyErrors(p, parse) == [] <==>
      && !StrategyFromString(StrategyName(p.strategy)).UnknownStrategy?
      && p.backoffLimit >= 0
      && (p.minStabilityPeriod == "" || parse(p.minStabilityPeriod).Ok?)
  {
  }

  method ValidateUpdatePolicy(p: UpdatePolicy, parse: DurationParser) returns (allErrs: seq<FieldError>)
    ensures allErrs == UpdatePolicyErrors(p, parse)
  {
    allErrs := [];
    var strategy := StrategyName(p.strategy);
    if strategy != "" && strategy !in ValidStrategies {
      allErrs := allErrs + [StrategyError(strategy)];
    }
    if p.backoffLimit < 0 {
      allErrs := allErrs + [BackoffError(p.backoffLimit)];
    }
    if p.minStabilityPeriod != "" {
      var parsed := parse(p.minStabilityPeriod);
      if parsed.Err? {
        allErrs := allErrs + [StabilityError(p.minStabilityPeriod, parsed.error)];
      }
    }
  }

  // ---------------------------------------------------------------
  // validateMetricsSource
  // ---------------------------------------------------------------

  const SourcePath: FieldPath := ChildPath(SpecPath, "metricsSource")
  const SourceTypePath: FieldPath := ChildPath(SourcePath, "type")
  const PrometheusPath: FieldPath := ChildPath(SourcePath, "prometheusConfig")
  const UrlPath: FieldPath := ChildPath(PrometheusPath, "url")
  const AuthPath: FieldPath := ChildPath(PrometheusPath, "authConfig")
  const AuthTypePath: FieldPath := ChildPath(AuthPath, "type")
  const SecretRefPath: FieldPath := ChildPath(AuthPath, "secretRef")

  const ValidSourceTypes: set<string> := {"prometheus", "metrics-server"}
  const ValidAuthTypes: set<string> := {"none", "basic", "bearer"}

  const SourceTypeDetail := "must be one of: prometheus, metrics-server"
  const UrlDetail := "Prometheus URL is required when using prometheus metrics source"
  const AuthTypeDetail := "must be one of: none, basic, bearer"
  const SecretRefDetail := "secretRef is required when using basic or bearer authentication"

  function SourceTypeError(sourceType: string): FieldError
  {
    InvalidError(SourceTypePath, TextValue(sourceType), SourceTypeDetail)
  }

  function AuthTypeError(authType: string): FieldError
  {
    InvalidError(AuthTypePath, TextValue(authType), AuthTypeDetail)
  }

  function AuthErrors(auth: AuthConfig): seq<FieldError>
  {
    var authType := AuthTypeName(auth.authType);
    When(authType !in ValidAuthTypes, AuthTypeError(authType))
      + When(authType != "none" && auth.secretRef.None?, RequiredError(SecretRefPath, SecretRefDetail))
  }

  function PrometheusErrors(config: PrometheusConfig): seq<FieldError>
  {
    When(config.url == "", RequiredError(UrlPath, UrlDetail))
      + (if config.authConfig.Some? then AuthErrors(config.authConfig.value) else [])
  }

  function MetricsSourceErrors(m: MetricsSourceSpec): seq<FieldError>
  {
    var sourceType := SourceTypeName(m.sourceType);
    When(sourceType != "" && sourceType !in ValidSourceTypes, SourceTypeError(sourceType))
      + (if sourceType == "prometheus" && m.prometheusConfig.Some? then PrometheusErrors(m.prometheusConfig.value) else [])
  }

  /** The Prometheus block is judged only for the prometheus type with a config present. */
  predicate JudgesPrometheus(m: MetricsSourceSpec)
  {
    SourceTypeName(m.sourceType) == "prometheus" && m.prometheusConfig.Some?
  }

  /** ...and its authentication block only when that config has one. */
  predicate JudgesAuth(m: MetricsSourceSpec)
  {
    JudgesPrometheus(m) && m.prometheusConfig.value.authConfig.Some?
  }

  /** The four paths the metrics-source validator can report are distinct. */
  lemma {:induction false} SourcePathsDistinct()
    ensures SourceTypePath != UrlPath && SourceTypePath != AuthTypePath && SourceTypePath != SecretRefPath
    ensures UrlPath != AuthTypePath && UrlPath != SecretRefPath && AuthTypePath != SecretRefPath
  {
    assert |SourceTypePath| == 3 && |UrlPath| == 4 && |AuthTypePath| == 5 && |SecretRefPath| == 5;
    assert AuthTypePath[4] == Child("type") && SecretRefPath[4] == Child("secretRef");
  }

  /** Which paths a metrics source's errors report, in terms of the fields that decide each rule. */
  lemma {:induction false} MetricsSourceReports(m: MetricsSourceSpec, path: FieldPath)
    ensures Reports(MetricsSourceErrors(m), path) <==>
      || (path == SourceTypePath && SourceTypeName(m.sourceType) != "" && SourceTypeName(m.sourceType) !in ValidSourceTypes)
      || (path == UrlPath && JudgesPrometheus(m) && m.prometheusConfig.value.url == "")
      || (path == AuthTypePath && JudgesAuth(m)
          && AuthTypeName(m.prometheusConfig.value.authConfig.value.authType) !in ValidAuthTypes)
      || (path == SecretRefPath && JudgesAuth(m)
          && AuthTypeName(m.prometheusConfig.value.authConfig.value.authType) != "none"
          && m.prometheusConfig.value.authConfig.value.secretRef.None?)
  {
    var sourceType := SourceTypeName(m.sourceType);
    var head := When(sourceType != "" && sourceType !in ValidSourceTypes, SourceTypeError(sourceType));
    ReportsWhen(sourceType != "" && sourceType !in ValidSourceTypes, SourceTypeError(sourceType), path);
    if JudgesPrometheus(m) {
      var config := m.prometheusConfig.value;
      var url := When(config.url == "", RequiredError(UrlPath, UrlDetail));
      ReportsAppend(head, PrometheusErrors(config), path);
      ReportsWhen(config.url == "", RequiredError(UrlPath, UrlDetail), path);
      if config.authConfig.Some? {
        var auth := config.authConfig.value;
        var authType := AuthTypeName(auth.authType);
        ReportsAppend(url, AuthErrors(auth), path);
        ReportsAppend(When(authType !in ValidAuthTypes, AuthTypeError(authType)),
                      When(authType != "none" && auth.secretRef.None?, RequiredError(SecretRefPath, SecretRefDetail)), path);
        ReportsWhen(authType !in ValidAuthTypes, AuthTypeError(authType), path);
        ReportsWhen(authType != "none" && auth.secretRef.None?, RequiredError(SecretRefPath, SecretRefDetail), path);
      } else {
        assert PrometheusErrors(config) == url;
      }
    } else {
      assert MetricsSourceErrors(m) == head;
    }
  }

  /** The text sets the validator checks are exactly the texts the enumerations read as known values. */
  lemma {:induction false} KnownTexts(s: string)
    ensures AuthTypeFromString(s) in {AuthNone, AuthBasic, AuthBearer} <==> s in ValidAuthTypes
    ensures AuthTypeFromString(s) == AuthNone <==> s == "none"
    ensures SourceTypeFromString(s).UnknownSource? <==> s != "" && s !in ValidSourceTypes
    ensures StrategyFromString(s).UnknownStrategy? <==> s != "" && s !in ValidStrategies
  {
  }

  /**
   * Within a judged Prometheus block the URL is required; an auth type
   * that is empty or unknown is rejected (the empty one too, unlike the
   * source type); and any auth type but none needs a secretRef.
   */
  lemma {:induction false} MetricsSourceRules(m: MetricsSourceSpec)
    ensures Reports(MetricsSourceErrors(m), UrlPath) <==> JudgesPrometheus(m) && m.prometheusConfig.value.url == ""
    ensures Reports(MetricsSourceErrors(m), AuthTypePath) <==>
      JudgesAuth(m) && AuthTypeFromString(AuthTypeName(m.prometheusConfig.value.authConfig.value.authType)) !in {AuthNone, AuthBasic, AuthBearer}
    ensures Reports(MetricsSourceErrors(m), SecretRefPath) <==>
      && JudgesAuth(m)
      && AuthTypeFromString(AuthTypeName(m.prometheusConfig.value.authConfig.value.authType)) != AuthNone
      && m.prometheusConfig.value.authConfig.value.secretRef.None?
    ensures Reports(MetricsSourceErrors(m), SourceTypePath) <==> SourceTypeFromString(SourceTypeName(m.sourceType)).UnknownSource?
  {
    SourcePathsDistinct();
    KnownTexts(SourceTypeName(m.sourceType));
    if JudgesAuth(m) {
      KnownTexts(AuthTypeName(m.prometheusConfig.value.authConfig.value.authType));
    }
    MetricsSourceReports(m, UrlPath);
    MetricsSourceReports(m, AuthTypePath);
    MetricsSourceReports(m, SecretRefPath);
    MetricsSourceReports(m, SourceTypePath);
  }

  method ValidateMetricsSource(m: MetricsSourceSpec) returns (allErrs: seq<FieldError>)
    ensures allErrs == MetricsSourceErrors(m)
  {
    allErrs := [];
    var sourceType := SourceTypeName(m.sourceType);
    if sourceType != "" && sourceType !in ValidSourceTypes {
      allErrs := allErrs + [SourceTypeError(sourceType)];
    }
    if sourceType == "prometheus" && m.prometheusConfig.Some? {
      var config := m.prometheusConfig.value;
      if config.url == "" {
        allErrs := allErrs + [RequiredError(UrlPath, UrlDetail)];
      }
      if config.authConfig.Some? {
        var auth := config.authConfig.value;
        var authType := AuthTypeName(auth.authType);
        if authType !in ValidAuthTypes {
          allErrs := allErrs + [AuthTypeError(authType)];
        }
        if authType != "none" && auth.secretRef.None? {
          allErrs := allErrs + [RequiredError(SecretRefPath, SecretRefDetail)];
        }
      }
    }
  }

  // ---------------------------------------------------------------
  // ValidatePodRightSizing
  // ---------------------------------------------------------------

  /** The six lists, in the order the validators run. */
  function AllErrors(spec: PodRightSizingSpec, parse: DurationParser, cron: CronParser): seq<FieldError>
  {
    TargetErrors(spec.target)
      + ThresholdErrors(spec.thresholds)
      + WindowErrors(spec.analysisWindow, parse)
      + ScheduleErrors(spec.schedule, cron)
      + UpdatePolicyErrors(spec.updatePolicy, parse)
      + MetricsSourceErrors(spec.metricsSource)
  }

  /** nil (None) when no validator reports anything, else every error, in order. */
  function Validation(spec: PodRightSizingSpec, parse: DurationParser, cron: CronParser): (r: Option<seq<FieldError>>)
    ensures r.None? <==>
      && TargetErrors(spec.target) == [] && ThresholdErrors(spec.thresholds) == []
      && WindowErrors(spec.analysisWindow, parse) == [] && ScheduleErrors(spec.schedule, cron) == []
      && UpdatePolicyErrors(spec.updatePolicy, parse) == [] && MetricsSourceErrors(spec.metricsSource) == []
    ensures r.Some? ==> 0 < |r.value| && r.value == AllErrors(spec, parse, cron)
  {
    var errs := AllErrors(spec, parse, cron);
    if |errs| == 0 then None else Some(errs)
  }

  /** Appending a validator's list only when it is non-empty is appending it. */
  lemma {:induction false} AppendNonEmpty(acc: seq<FieldError>, errs: seq<FieldError>)
    ensures (if |errs| > 0 then acc + errs else acc) == acc + errs
  {
    if |errs| == 0 {
      assert acc + errs == acc;
    }
  }

  /** One validator's list joins the accumulated errors only when it is non-empty. */
  method Accumulate(allErrs: seq<FieldError>, errs: seq<FieldError>) returns (r: seq<FieldError>)
    ensures r == allErrs + errs
  {
    AppendNonEmpty(allErrs, errs);
    r := allErrs;
    if |errs| > 0 {
      r := r + errs;
    }
  }

  method ValidatePodRightSizing(spec: PodRightSizingSpec, parse: DurationParser, cron: CronParser)
    returns (r: Option<seq<FieldError>>)
    ensures r == Validation(spec, parse, cron)
  {
    var allErrs: seq<FieldError> := [];
    var errs := ValidateTarget(spec.target);
    allErrs := Accumulate(allErrs, errs);
    assert allErrs == TargetErrors(spec.target);
    errs := ValidateThresholds(spec.thresholds);
    allErrs := Accumulate(allErrs, errs);
    errs := ValidateAnalysisWindow(spec.analysisWindow, parse);
    allErrs := Accumulate(allErrs, errs);
    errs := ValidateSchedule(spec.schedule, cron);
    allErrs := Accumulate(allErrs, errs);
    errs := ValidateUpdatePolicy(spec.updatePolicy, parse);
    allErrs := Accumulate(allErrs, errs);
    errs := ValidateMetricsSource(spec.metricsSource);
    allErrs := Accumulate(allErrs, errs);
    assert allErrs == AllErrors(spec, parse, cron);
    if |allErrs| == 0 {
      return None;
    }
    r := Some(allErrs);
  }

  /** The configuration the tests accept: namespace target, 168h window, gradual updates, Prometheus with a URL. */
  function ExampleSpec(): PodRightSizingSpec
  {
    PodRightSizingSpec(
      target := TargetSpec("test-namespace", None, None, [], []),
      analysisWindow := "168h",
      updatePolicy := UpdatePolicy(Gradual, None, None, 0, ""),
      thresholds := ResourceThresholds(95, 95, 0, 0, 0, 0, 20, 10),
      metricsSource := MetricsSourceSpec(Prometheus, Some(PrometheusConfig("http://prometheus:9090", false, None))),
      schedule := "0 2 * * *",
      dryRun := false)
  }

  /** That configuration is accepted whenever its window parses to 168 hours and its schedule parses. */
  lemma {:induction false} ExampleSpecAccepted(parse: DurationParser, cron: CronParser)
    requires parse("168h") == Ok(168 * Hour) && cron("0 2 * * *").None?
    ensures Validation(ExampleSpec(), parse, cron).None?
  {
    var spec := ExampleSpec();
    TargetErrorsEmptyIff(spec.target);
    assert TargetErrors(spec.target) == [];
    ThresholdErrorsEmptyIff(spec.thresholds);
    assert ThresholdErrors(spec.thresholds) == [];
    WindowErrorsShape(spec.analysisWindow, parse);
    assert WindowErrors(spec.analysisWindow, parse) == [];
    ScheduleErrorsShape(spec.schedule, cron);
    assert ScheduleErrors(spec.schedule, cron) == [];
    assert StrategyName(spec.updatePolicy.strategy) in ValidStrategies;
    assert UpdatePolicyErrors(spec.updatePolicy, parse) == [];
    assert MetricsSourceErrors(spec.metricsSource) == [];
  }

  /** A target that selects nothing is rejected, whatever else the spec says and whatever the parsers answer. */
  lemma {:induction false} UnselectedTargetRejected(spec: PodRightSizingSpec, parse: DurationParser, cron: CronParser)
    requires spec.target.namespace == "" && spec.target.labelSelector.None? && spec.target.namespaceSelector.None?
    ensures Validation(spec, parse, cron).Some?
  {
    TargetErrorsEmptyIff(spec.target);
  }

  /** Both CPU bounds set with the minimum above the maximum is rejected. */
  lemma {:induction false} InvertedCpuBoundsRejected(spec: PodRightSizingSpec, parse: DurationParser, cron: CronParser)
    requires spec.thresholds.minCPU > spec.thresholds.maxCPU > 0
    ensures Validation(spec, parse, cron).Some?
  {
    ThresholdErrorsEmptyIff(spec.thresholds);
  }

  /** An unknown workload type anywhere in the list is rejected. */
  lemma {:induction false} UnknownWorkloadTypeRejected(spec: PodRightSizingSpec, parse: DurationParser, cron: CronParser, k: int)
    requires 0 <= k < |spec.target.includeWorkloadTypes| && spec.target.includeWorkloadTypes[k] !in ValidWorkloadTypes
    ensures Validation(spec, parse, cron).Some?
  {
    TargetErrorsEmptyIff(spec.target);
  }
}
