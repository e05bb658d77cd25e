/**
 * The PodRightSizing reconciler (internal/controller/podrightsizing_controller.go).
 *
 * One pass reads the configuration object, decides whether an analysis
 * is due, discovers the target pods, groups them by workload, asks the
 * metrics source and the recommendation engine for each workload, records
 * the recommendations in the status and, unless in dry-run mode, writes the
 * first recommendation of each workload into its pod template. The cluster
 * is an ApiServer over a Snapshot; the clock is the `now` parameter; the
 * duration and selector parsers and the metrics source are supplied.
 */
module Controller {
  import opened Common
  import opened Types
  import opened Stats
  import opened Cluster
  import Engine

  const WorkloadTypeDeployment := "Deployment"
  const WorkloadTypeStatefulSet := "StatefulSet"
  const WorkloadTypeDaemonSet := "DaemonSet"

  datatype PodRightSizing = PodRightSizing(name: string, namespace: string, spec: PodRightSizingSpec, status: Status)

  /** MetricsClientInterface.GetWorkloadMetrics(namespace, workloadName, workloadType, window). */
  type MetricsSource = (string, string, string, int) -> Result<WorkloadMetrics, string>

  /** What a pass consults besides the cluster. */
  datatype Environment = Environment(
    parseDuration: DurationParser,
    parseSelector: SelectorParser,
    metrics: MetricsSource,
    engine: Engine.RecommendationEngine,
    sqrt: SqrtFn)

  // ---------------------------------------------------------------
  // Scheduling: shouldRunAnalysis and requeueAfter
  // ---------------------------------------------------------------

  const Day: int := 24 * Hour

  /** The window, when it is set and parses. */
  function ParsedWindow(window: string, parse: DurationParser): Option<int>
  {
    if window != "" && parse(window).Ok? then Some(parse(window).value) else None
  }

  /** How long after the last analysis the next one is due. */
  function AnalysisInterval(window: string, parse: DurationParser): int
  {
    match ParsedWindow(window, parse)
    case None => Day
    case Some(d) => if d < Day then Hour else d / 24
  }

  function ShouldRunAnalysis(prs: PodRightSizing, now: int, parse: DurationParser): bool
  {
    match prs.status.lastAnalysisTime
    case None => true
    case Some(last) => now - last >= AnalysisInterval(prs.spec.analysisWindow, parse)
  }

  /** The requeue delay: a day for windows of a day or more, else an hour. */
  function RequeueAfter(spec: PodRightSizingSpec, parse: DurationParser): int
  {
    match ParsedWindow(spec.analysisWindow, parse)
    case Some(d) => if d >= Day then Day else Hour
    case None => Hour
  }

  /**
   * The interval is a day without a usable window, an hour for a window
   * under a day and a 24th of the window otherwise; the requeue is a day
   * exactly for a window of a day or more. The interval is never under an
   * hour.
   */
  lemma {:induction false} ScheduleRules(window: string, parse: DurationParser, spec: PodRightSizingSpec)
    requires spec.analysisWindow == window
    ensures ParsedWindow(window, parse).None? ==> AnalysisInterval(window, parse) == Day && RequeueAfter(spec, parse) == Hour
    ensures ParsedWindow(window, parse).Some? && ParsedWindow(window, parse).value < Day ==>
      AnalysisInterval(window, parse) == Hour && RequeueAfter(spec, parse) == Hour
    ensures ParsedWindow(window, parse).Some? && ParsedWindow(window, parse).value >= Day ==>
      AnalysisInterval(window, parse) == ParsedWindow(window, parse).value / 24 && RequeueAfter(spec, parse) == Day
    ensures AnalysisInterval(window, parse) >= Hour
    ensures RequeueAfter(spec, parse) == Day <==>
      window != "" && parse(window).Ok? && parse(window).value >= Day
  {
  }

  /** An analysis that has just run is not due again; once due, it stays due as time passes. */
  lemma {:induction false} ShouldRunMonotone(prs: PodRightSizing, now: int, later: int, parse: DurationParser)
    requires now <= later
    ensures prs.status.lastAnalysisTime == Some(now) ==> !ShouldRunAnalysis(prs, now, parse)
    ensures ShouldRunAnalysis(prs, now, parse) ==> ShouldRunAnalysis(prs, later, parse)
    ensures prs.status.lastAnalysisTime.None? ==> ShouldRunAnalysis(prs, now, parse)
  {
    ScheduleRules(prs.spec.analysisWindow, parse, prs.spec);
  }

  // ---------------------------------------------------------------
  // Pod filtering: isNamespaceExcluded and shouldIncludePod
  // ---------------------------------------------------------------

  function IsNamespaceExcluded(namespace: string, excludeList: seq<string>): (excluded: bool)
    ensures excluded <==> namespace in excludeList
    decreases |excludeList|
  {
    if excludeList == [] then false
    else if namespace == excludeList[0] then true
    else
      assert excludeList == [excludeList[0]] + excludeList[1..];
      IsNamespaceExcluded(namespace, excludeList[1..])
  }

  predicate HasRequirements(c: Container)
  {
    |c.resources.requests| > 0 || |c.resources.limits| > 0
  }

  /** The scan for a container with requests or limits. */
  function HasResources(containers: seq<Container>): (has: bool)
    ensures has <==> exists i :: 0 <= i < |containers| && HasRequirements(containers[i])
    decreases |containers|
  {
    if containers == [] then false
    else if HasRequirements(containers[0]) then true
    else
      assert forall i :: 1 <= i < |containers| ==> containers[i] == containers[1..][i - 1];
      HasResources(containers[1..])
  }

  /** The workload-type filter passes when it is empty or names the type. */
  predicate TypeAllowed(includeWorkloadTypes: seq<string>, workloadType: string)
  {
    |includeWorkloadTypes| == 0 || workloadType in includeWorkloadTypes
  }

  /** A pod is analysed when running, owned, of an allowed type, and with some container that has resources. */
  function ShouldIncludePod(pod: Pod, target: TargetSpec): (kept: bool)
    ensures kept <==>
      && pod.phase == PodRunning
      && |pod.ownerReferences| > 0
      && TypeAllowed(target.includeWorkloadTypes, GetWorkloadType(pod))
      && exists i :: 0 <= i < |pod.containers| && HasRequirements(pod.containers[i])
  {
    if pod.phase != PodRunning then false
    else if |pod.ownerReferences| == 0 then false
    else if |target.includeWorkloadTypes| > 0 && GetWorkloadType(pod) !in target.includeWorkloadTypes then false
    else HasResources(pod.containers)
  }

  // ---------------------------------------------------------------
  // Workload identity: getWorkloadType, getWorkloadName, the group key
  // ---------------------------------------------------------------

  /** The workload type an owner kind stands for, if the kind is recognised. */
  function KindType(kind: string): Option<string>
  {
    match kind
    case "ReplicaSet" => Some(WorkloadTypeDeployment)
    case "StatefulSet" => Some(WorkloadTypeStatefulSet)
    case "DaemonSet" => Some(WorkloadTypeDaemonSet)
    case "Job" => Some("Job")
    case "CronJob" => Some("CronJob")
    case _ => None
  }

  /** The type of the first owner with a recognised kind, or Pod. */
  function OwnersType(owners: seq<OwnerReference>): (t: string)
    ensures (forall i :: 0 <= i < |owners| ==> KindType(owners[i].kind).None?) ==> t == "Pod"
    ensures forall i :: (0 <= i < |owners| && KindType(owners[i].kind).Some?
                         && (forall j :: 0 <= j < i ==> KindType(owners[j].kind).None?)) ==>
      t == KindType(owners[i].kind).value
    decreases |owners|
  {
    if owners == [] then "Pod"
    else match KindType(owners[0].kind)
      case Some(t) => t
      case None =>
        assert forall i :: 1 <= i < |owners| ==> owners[i] == owners[1..][i - 1];
        OwnersType(owners[1..])
  }

  function GetWorkloadType(pod: Pod): string
  {
    OwnersType(pod.ownerReferences)
  }

  /** The result is Pod, or the type of a recognised kind. */
  lemma {:induction false} WorkloadTypeRange(pod: Pod)
    ensures GetWorkloadType(pod) in {"Pod", WorkloadTypeDeployment, WorkloadTypeStatefulSet, WorkloadTypeDaemonSet, "Job", "CronJob"}
    ensures '/' !in GetWorkloadType(pod)
  {
    var owners := pod.ownerReferences;
    if forall i :: 0 <= i < |owners| ==> KindType(owners[i].kind).None? {
    } else {
      var i := FirstKnown(owners);
      assert KindType(owners[i].kind).Some?;
    }
  }

  /** The position of the first owner of a recognised kind. */
  lemma {:induction false} FirstKnown(owners: seq<OwnerReference>) returns (i: nat)
    requires exists k :: 0 <= k < |owners| && KindType(owners[k].kind).Some?
    ensures i < |owners| && KindType(owners[i].kind).Some?
    ensures forall j :: 0 <= j < i ==> KindType(owners[j].kind).None?
  {
    i := 0;
    while KindType(owners[i].kind).None?
      invariant i < |owners|
      invariant forall j :: 0 <= j < i ==> KindType(owners[j].kind).None?
      invariant exists k :: i <= k < |owners| && KindType(owners[k].kind).Some?
      decreases |owners| - i
    {
      i := i + 1;
    }
  }

  /** The first Deployment among a ReplicaSet's owners. */
  function DeploymentOwner(owners: seq<OwnerReference>): (r: Option<string>)
    ensures r.Some? <==> exists i :: 0 <= i < |owners| && owners[i].kind == "Deployment"
    ensures r.Some? ==> exists i :: (0 <= i < |owners| && owners[i].kind == "Deployment" && owners[i].name == r.value
                                     && forall j :: 0 <= j < i ==> owners[j].kind != "Deployment")
    decreases |owners|
  {
    if owners == [] then None
    else if owners[0].kind == "Deployment" then Some(owners[0].name)
    else
      assert forall i :: 1 <= i < |owners| ==> owners[i] == owners[1..][i - 1];
      var rest := DeploymentOwner(owners[1..]);
      assert rest.Some? ==> exists i :: (1 <= i < |owners| && owners[i].kind == "Deployment" && owners[i].name == rest.value
                                         && forall j :: 0 <= j < i ==> owners[j].kind != "Deployment");
      rest
  }

  /**
   * What one owner says about the workload name: a ReplicaSet names its
   * Deployment, when the ReplicaSet loads and has one; any other owner
   * names itself.
   */
  function OwnerName(owner: OwnerReference, namespace: string, replicaSets: map<(string, string), seq<OwnerReference>>)
    : Option<string>
  {
    if owner.kind == "ReplicaSet" then
      if (namespace, owner.name) in replicaSets then DeploymentOwner(replicaSets[(namespace, owner.name)]) else None
    else Some(owner.name)
  }

  /** The name given by the first owner that gives one, or the fallback. */
  function OwnersName(owners: seq<OwnerReference>, namespace: string,
                      replicaSets: map<(string, string), seq<OwnerReference>>, fallback: string): (name: string)
    ensures (forall i :: 0 <= i < |owners| ==> OwnerName(owners[i], namespace, replicaSets).None?) ==> name == fallback
    ensures forall i :: (0 <= i < |owners| && OwnerName(owners[i], namespace, replicaSets).Some?
                         && (forall j :: 0 <= j < i ==> OwnerName(owners[j], namespace, replicaSets).None?)) ==>
      name == OwnerName(owners[i], namespace, replicaSets).value
    decreases |owners|
  {
    if owners == [] then fallback
    else match OwnerName(owners[0], namespace, replicaSets)
      case Some(n) => n
      case None =>
        assert forall i :: 1 <= i < |owners| ==> owners[i] == owners[1..][i - 1];
        OwnersName(owners[1..], namespace, replicaSets, fallback)
  }

  function GetWorkloadName(pod: Pod, replicaSets: map<(string, string), seq<OwnerReference>>): string
  {
    OwnersName(pod.ownerReferences, pod.namespace, replicaSets, pod.name)
  }

  /**
   * A pod whose first owner is a ReplicaSet owned by a Deployment belongs
   * to that Deployment; a pod whose first owner is of another kind belongs
   * to that owner; a pod no owner names keeps its own name.
   */
  lemma {:induction false} WorkloadIdentity(pod: Pod, replicaSets: map<(string, string), seq<OwnerReference>>, deployment: string)
    ensures (&& |pod.ownerReferences| > 0 && pod.ownerReferences[0].kind == "ReplicaSet"
             && (pod.namespace, pod.ownerReferences[0].name) in replicaSets
             && DeploymentOwner(replicaSets[(pod.namespace, pod.ownerReferences[0].name)]) == Some(deployment)) ==>
      GetWorkloadType(pod) == WorkloadTypeDeployment && GetWorkloadName(pod, replicaSets) == deployment
    ensures |pod.ownerReferences| > 0 && pod.ownerReferences[0].kind != "ReplicaSet" ==>
      GetWorkloadName(pod, replicaSets) == pod.ownerReferences[0].name
      && GetWorkloadType(pod) == (if KindType(pod.ownerReferences[0].kind).Some? then KindType(pod.ownerReferences[0].kind).value
                                  else OwnersType(pod.ownerReferences[1..]))
    ensures |pod.ownerReferences| == 0 ==> GetWorkloadType(pod) == "Pod" && GetWorkloadName(pod, replicaSets) == pod.name
  {
  }

  /** A ReplicaSet that fails to load, as the only owner: the type says Deployment, the name is the pod's own. */
  lemma {:induction false} OrphanReplicaSetPod(pod: Pod, replicaSets: map<(string, string), seq<OwnerReference>>)
    requires |pod.ownerReferences| == 1 && pod.ownerReferences[0].kind == "ReplicaSet"
    requires (pod.namespace, pod.ownerReferences[0].name) !in replicaSets
    ensures GetWorkloadType(pod) == WorkloadTypeDeployment
    ensures GetWorkloadName(pod, replicaSets) == pod.name
  {
  }

  /** The group key namespace/type/name. */
  function WorkloadKey(namespace: string, workloadType: string, workloadName: string): string
  {
    namespace + "/" + workloadType + "/" + workloadName
  }

  function PodWorkloadKey(pod: Pod, replicaSets: map<(string, string), seq<OwnerReference>>): string
  {
    WorkloadKey(pod.namespace, GetWorkloadType(pod), GetWorkloadName(pod, replicaSets))
  }

  function RecommendationKey(rec: PodRecommendation): string
  {
    WorkloadKey(rec.podReference.namespace, rec.podReference.workloadType, rec.podReference.workloadName)
  }

  // ---------------------------------------------------------------
  // splitWorkloadKey: strings.SplitN(key, "/", 3)
  // ---------------------------------------------------------------

  function FirstSlash(s: string): (r: Option<nat>)
    ensures r.Some? ==> r.value < |s| && s[r.value] == '/' && '/' !in s[..r.value]
    ensures r.None? <==> '/' !in s
    decreases |s|
  {
    if s == [] then None
    else if s[0] == '/' then Some(0)
    else
      var rest := FirstSlash(s[1..]);
      assert s == [s[0]] + s[1..];
      match rest
      case None => None
      case Some(i) =>
        assert s[..i + 1] == [s[0]] + s[1..][..i];
        Some(i + 1)
  }

  /** At most three parts: the text up to the first slash, up to the second, and the rest. */
  function SplitWorkloadKey(key: string): (parts: seq<string>)
    ensures 1 <= |parts| <= 3
    ensures forall i :: 0 <= i < |parts| - 1 ==> '/' !in parts[i]
  {
    match FirstSlash(key)
    case None => [key]
    case Some(i) =>
      var rest := key[i + 1..];
      match FirstSlash(rest)
      case None => [key[..i], rest]
      case Some(j) => [key[..i], rest[..j], rest[j + 1..]]
  }

  /** The parts joined with slashes. */
  function Join(parts: seq<string>): string
  {
    if |parts| == 0 then ""
    else if |parts| == 1 then parts[0]
    else parts[0] + "/" + Join(parts[1..])
  }

  /** Joining the parts with slashes gives the key back. */
  lemma {:induction false} SplitJoin(key: string)
    ensures Join(SplitWorkloadKey(key)) == key
  {
    var f := FirstSlash(key);
    if f.Some? {
      var i := f.value;
      SliceAround(key, i);
      SplitJoinRest(key, i);
    }
  }

  lemma {:induction false} SplitJoinRest(key: string, i: nat)
    requires FirstSlash(key) == Some(i)
    requires key == key[..i] + "/" + key[i + 1..]
    ensures Join(SplitWorkloadKey(key)) == key
  {
    var rest := key[i + 1..];
    var g := FirstSlash(rest);
    var x := key[..i];
    if g.Some? {
      var j := g.value;
      var y, z := rest[..j], rest[j + 1..];
      SliceAround(rest, j);
      assert SplitWorkloadKey(key) == [x, y, z];
      JoinParts(x, y, z);
    } else {
      assert SplitWorkloadKey(key) == [x, rest];
      JoinParts(x, rest, "");
    }
  }

  /** A text is what comes before a position, the character there, and what follows. */
  lemma {:induction false} SliceAround(s: string, i: nat)
    requires i < |s| && s[i] == '/'
    ensures s == s[..i] + "/" + s[i + 1..]
  {
    assert s == s[..i] + [s[i]] + s[i + 1..];
  }

  lemma {:induction false} JoinParts(x: string, y: string, z: string)
    ensures Join([x, y]) == x + "/" + y
    ensures Join([x, y, z]) == x + "/" + (y + "/" + z)
  {
    assert [x, y][1..] == [y];
    assert [x, y, z][1..] == [y, z];
    assert [y, z][1..] == [z];
    assert Join([y, z]) == y + "/" + z;
  }

  /** Splitting a key built from a slash-free namespace and type gives back its three parts. */
  lemma {:induction false} SplitWorkloadKeyOfKey(namespace: string, workloadType: string, workloadName: string)
    requires '/' !in namespace && '/' !in workloadType
    ensures SplitWorkloadKey(WorkloadKey(namespace, workloadType, workloadName)) == [namespace, workloadType, workloadName]
  {
    var key := WorkloadKey(namespace, workloadType, workloadName);
    var parts := SplitWorkloadKey(key);
    SplitUnique(key, namespace, workloadType, workloadName);
  }

  /** Two slash-free leading parts are determined by the text they are joined into. */
  lemma {:induction false} SplitUnique(key: string, a: string, b: string, c: string)
    requires '/' !in a && '/' !in b && key == a + "/" + b + "/" + c
    ensures SplitWorkloadKey(key) == [a, b, c]
  {
    assert key[|a|] == '/';
    assert key[..|a|] == a;
    assert forall k :: 0 <= k < |a| ==> key[k] == a[k];
    var i := FirstSlash(key).value;
    assert i == |a| by {
      assert i <= |a| ==> key[i] == (a + "/")[i];
    }
    var rest := key[i + 1..];
    assert rest == b + "/" + c;
    assert rest[|b|] == '/';
    assert forall k :: 0 <= k < |b| ==> rest[k] == b[k];
    var j := FirstSlash(rest).value;
    assert j == |b| by {
      assert j <= |b| ==> rest[j] == (b + "/")[j];
    }
    assert rest[..j] == b;
    assert rest[j + 1..] == c;
  }

  /** A key splits into three parts exactly when it holds two slashes. */
  lemma {:induction false} SplitThreeParts(key: string)
    ensures |SplitWorkloadKey(key)| == 3 <==> exists i, j :: 0 <= i < j < |key| && key[i] == '/' && key[j] == '/'
  {
    var parts := SplitWorkloadKey(key);
    if |parts| == 3 {
      var i := FirstSlash(key).value;
      var rest := key[i + 1..];
      var j := FirstSlash(rest).value;
      assert key[i + 1 + j] == rest[j];
    }
    if exists i, j :: 0 <= i < j < |key| && key[i] == '/' && key[j] == '/' {
      var i, j :| 0 <= i < j < |key| && key[i] == '/' && key[j] == '/';
      var f := FirstSlash(key).value;
      var rest := key[f + 1..];
      assert rest[j - f - 1] == '/';
    }
  }

  // ---------------------------------------------------------------
  // resourcesEqual and containerResourcesEqual
  // ---------------------------------------------------------------

  /** The same number of entries, and each of the first found in the second with the same quantity. */
  predicate ListsEqual(a: ResourceList, b: ResourceList)
  {
    |a| == |b| && forall r :: r in a ==> r in b && a[r] == b[r]
  }

  function ResourcesEqual(a: ResourceRequirements, b: ResourceRequirements): bool
  {
    ListsEqual(a.requests, b.requests) && ListsEqual(a.limits, b.limits)
  }

  /** The entry-by-entry comparison is equality of the lists. */
  lemma {:induction false} ListsEqualIff(a: ResourceList, b: ResourceList)
    ensures ListsEqual(a, b) <==> a == b
  {
    if ListsEqual(a, b) {
      assert a.Keys <= b.Keys;
      assert b.Keys == a.Keys + (b.Keys - a.Keys);
      assert a.Keys == b.Keys;
    }
  }

  lemma {:induction false} SubsetCardinality<T>(a: set<T>, b: set<T>)
    requires a <= b
    ensures |a| <= |b|
  {
    assert b == a + (b - a);
  }

  /** resourcesEqual holds exactly when requests and limits are equal. */
  lemma {:induction false} ResourcesEqualIff(a: ResourceRequirements, b: ResourceRequirements)
    ensures ResourcesEqual(a, b) <==> a == b
  {
    ListsEqualIff(a.requests, b.requests);
    ListsEqualIff(a.limits, b.limits);
  }

  /** The watch predicate: same number of containers, pairwise equal resources. */
  function ContainerResourcesEqual(oldContainers: seq<Container>, newContainers: seq<Container>): (equal: bool)
    ensures equal <==> (&& |oldContainers| == |newContainers|
                        && forall i :: 0 <= i < |oldContainers| ==> oldContainers[i].resources == newContainers[i].resources)
  {
    if |oldContainers| != |newContainers| then false
    else
      assert forall i :: 0 <= i < |oldContainers| ==>
        (ResourcesEqual(oldContainers[i].resources, newContainers[i].resources) <==>
         oldContainers[i].resources == newContainers[i].resources) by {
        forall i | 0 <= i < |oldContainers| {
          ResourcesEqualIff(oldContainers[i].resources, newContainers[i].resources);
        }
      }
      forall i :: 0 <= i < |oldContainers| ==> ResourcesEqual(oldContainers[i].resources, newContainers[i].resources)
  }

  // ---------------------------------------------------------------
  // podMatchesTarget
  // ---------------------------------------------------------------

  /** Whether a changed pod should trigger a pass for this configuration. */
  function PodMatchesTarget(pod: Pod, spec: PodRightSizingSpec, namespaces: seq<Namespace>, parse: SelectorParser): (matches: bool)
    ensures matches <==>
      && (spec.target.namespace == "" || pod.namespace == spec.target.namespace)
      && pod.namespace !in spec.target.excludeNamespaces
      && (spec.target.labelSelector.Some? ==>
            parse(spec.target.labelSelector.value).Ok? && parse(spec.target.labelSelector.value).value(pod.labels))
      && (spec.target.namespaceSelector.Some? ==>
            && GetNamespace(namespaces, pod.namespace).Some?
            && parse(spec.target.namespaceSelector.value).Ok?
            && parse(spec.target.namespaceSelector.value).value(GetNamespace(namespaces, pod.namespace).value.labels))
      && TypeAllowed(spec.target.includeWorkloadTypes, GetWorkloadType(pod))
  {
    var target := spec.target;
    if target.namespace != "" && pod.namespace != target.namespace then false
    else if IsNamespaceExcluded(pod.namespace, target.excludeNamespaces) then false
    else if target.labelSelector.Some? && !SelectorMatches(target.labelSelector.value, pod.labels, parse) then false
    else if target.namespaceSelector.Some? && !NamespaceSelected(target.namespaceSelector.value, pod.namespace, namespaces, parse) then false
    else if |target.includeWorkloadTypes| > 0 && GetWorkloadType(pod) !in target.includeWorkloadTypes then false
    else true
  }

  /** A selector that fails to parse matches nothing. */
  predicate SelectorMatches(selector: LabelSelector, labels: map<string, string>, parse: SelectorParser)
  {
    parse(selector).Ok? && parse(selector).value(labels)
  }

  /** A namespace that fails to load is not selected. */
  predicate NamespaceSelected(selector: LabelSelector, name: string, namespaces: seq<Namespace>, parse: SelectorParser)
  {
    GetNamespace(namespaces, name).Some? && SelectorMatches(selector, GetNamespace(namespaces, name).value.labels, parse)
  }

  /**
   * The watch and discovery agree on plain targets: for a target by
   * namespace alone, a pod discovery would keep, from a namespace that is
   * not excluded, triggers a pass.
   */
  lemma {:induction false} IncludedPodMatches(pod: Pod, spec: PodRightSizingSpec, namespaces: seq<Namespace>, parse: SelectorParser)
    requires spec.target.labelSelector.None? && spec.target.namespaceSelector.None?
    requires pod.namespace == spec.target.namespace || spec.target.namespace == ""
    requires pod.namespace !in spec.target.excludeNamespaces
    requires ShouldIncludePod(pod, spec.target)
    ensures PodMatchesTarget(pod, spec, namespaces, parse)
  {
  }

  // ---------------------------------------------------------------
  // discoverTargetPods
  // ---------------------------------------------------------------

  const InvalidLabelSelector := "invalid label selector: "
  const InvalidNamespaceSelector := "invalid namespace selector: "
  const ListNamespacesFailed := "failed to list namespaces: "

  function ListPodsFailed(namespace: string): string
  {
    "failed to list pods in namespace " + namespace + ": "
  }

  /** The pod selector: the parsed label selector, or everything when there is none. */
  function PodSelector(target: TargetSpec, parse: SelectorParser): Result<Matcher, string>
  {
    match target.labelSelector
    case None => Ok(Everything)
    case Some(selector) =>
      match parse(selector)
      case Err(e) => Err(InvalidLabelSelector + e)
      case Ok(m) => Ok(m)
  }

  /** The namespaces to list: the selected ones, else the named one, else "" for all of them. */
  function TargetNamespaces(target: TargetSpec, s: Snapshot, parse: SelectorParser): Result<seq<string>, string>
  {
    match target.namespaceSelector
    case Some(selector) =>
      (match parse(selector)
       case Err(e) => Err(InvalidNamespaceSelector + e)
       case Ok(m) =>
         match ListNamespaces(s, m)
         case Err(e) => Err(ListNamespacesFailed + e)
         case Ok(names) => Ok(names))
    case None => if target.namespace != "" then Ok([target.namespace]) else Ok([""])
  }

  /** The listed pods that shouldIncludePod keeps, in order. */
  function Kept(pods: seq<Pod>, target: TargetSpec): (r: seq<Pod>)
    ensures |r| <= |pods|
    ensures forall p :: p in r <==> p in pods && ShouldIncludePod(p, target)
  {
    FilterMembers(pods, (p: Pod) => ShouldIncludePod(p, target));
    Filter(pods, (p: Pod) => ShouldIncludePod(p, target))
  }

  /** The pods found in a run of namespaces, skipping excluded ones; the first failed List ends it. */
  function DiscoveredIn(target: TargetSpec, s: Snapshot, selector: Matcher, namespaces: seq<string>): Result<seq<Pod>, string>
    decreases |namespaces|
  {
    if namespaces == [] then Ok([])
    else
      match DiscoveredIn(target, s, selector, namespaces[..|namespaces| - 1])
      case Err(e) => Err(e)
      case Ok(pods) =>
        var ns := namespaces[|namespaces| - 1];
        if IsNamespaceExcluded(ns, target.excludeNamespaces) then Ok(pods)
        else
          match ListPods(s, ns, selector)
          case Err(e) => Err(ListPodsFailed(ns) + e)
          case Ok(items) => Ok(pods + Kept(items, target))
  }

  /** The target pods of a configuration, or the first error on the way. */
  function Discovery(target: TargetSpec, s: Snapshot, parse: SelectorParser): Result<seq<Pod>, string>
  {
    match PodSelector(target, parse)
    case Err(e) => Err(e)
    case Ok(selector) =>
      match TargetNamespaces(target, s, parse)
      case Err(e) => Err(e)
      case Ok(namespaces) => DiscoveredIn(target, s, selector, namespaces)
  }

  /** Once a namespace fails, longer runs fail with the same error. */
  lemma {:induction false} DiscoveredInErrSticks(target: TargetSpec, s: Snapshot, selector: Matcher,
                                                 namespaces: seq<string>, n: nat)
    requires n <= |namespaces| && DiscoveredIn(target, s, selector, namespaces[..n]).Err?
    ensures DiscoveredIn(target, s, selector, namespaces) == DiscoveredIn(target, s, selector, namespaces[..n])
    decreases |namespaces| - n
  {
    if n < |namespaces| {
      assert namespaces[..n + 1][..n] == namespaces[..n];
      DiscoveredInErrSticks(target, s, selector, namespaces, n + 1);
    } else {
      assert namespaces[..n] == namespaces;
    }
  }

  /**
   * Every discovered pod is a pod of the cluster that the selector matches,
   * that shouldIncludePod keeps, and that lies in a listed namespace that
   * is not excluded ("" standing for all of them).
   */
  lemma {:induction false} DiscoveredInQualify(target: TargetSpec, s: Snapshot, selector: Matcher, namespaces: seq<string>)
    requires DiscoveredIn(target, s, selector, namespaces).Ok?
    ensures forall p :: p in DiscoveredIn(target, s, selector, namespaces).value ==>
      && p in s.pods && selector(p.labels) && ShouldIncludePod(p, target)
      && exists ns :: ns in namespaces && ns !in target.excludeNamespaces && (ns == "" || p.namespace == ns)
    decreases |namespaces|
  {
    if namespaces != [] {
      var init := namespaces[..|namespaces| - 1];
      DiscoveredInQualify(target, s, selector, init);
      var ns := namespaces[|namespaces| - 1];
      forall p | p in DiscoveredIn(target, s, selector, namespaces).value
        ensures exists n :: n in namespaces && n !in target.excludeNamespaces && (n == "" || p.namespace == n)
      {
        if p in DiscoveredIn(target, s, selector, init).value {
          var n :| n in init && n !in target.excludeNamespaces && (n == "" || p.namespace == n);
          assert n in namespaces;
        } else {
          assert ns in namespaces;
        }
      }
    }
  }

  lemma {:induction false} DiscoveryQualifies(target: TargetSpec, s: Snapshot, parse: SelectorParser)
    requires Discovery(target, s, parse).Ok?
    ensures forall p :: p in Discovery(target, s, parse).value ==> p in s.pods && ShouldIncludePod(p, target)
    ensures target.labelSelector.Some? ==> forall p :: p in Discovery(target, s, parse).value ==>
      SelectorMatches(target.labelSelector.value, p.labels, parse)
    ensures target.namespaceSelector.None? && target.namespace != "" ==>
      forall p :: p in Discovery(target, s, parse).value ==> p.namespace == target.namespace
  {
    var selector := PodSelector(target, parse).value;
    var namespaces := TargetNamespaces(target, s, parse).value;
    DiscoveredInQualify(target, s, selector, namespaces);
  }

  /**
   * Without a namespace selector or a namespace the one listed namespace is
   * "", so an exclusion list without "" leaves discovery as it would be
   * with no exclusions at all.
   */
  lemma {:induction false} AllNamespacesIgnoresExclusions(target: TargetSpec, s: Snapshot, parse: SelectorParser)
    requires target.namespaceSelector.None? && target.namespace == "" && "" !in target.excludeNamespaces
    ensures Discovery(target, s, parse) == Discovery(target.(excludeNamespaces := []), s, parse)
  {
    var other := target.(excludeNamespaces := []);
    assert TargetNamespaces(target, s, parse) == Ok([""]) == TargetNamespaces(other, s, parse);
    assert PodSelector(target, parse) == PodSelector(other, parse);
    if PodSelector(target, parse).Ok? {
      var selector := PodSelector(target, parse).value;
      assert [""][..0] == [];
      assert Kept(s.pods, target) == Kept(s.pods, other) by {
        KeptIgnoresExclusions(s.pods, target, other);
      }
      if ListPods(s, "", selector).Ok? {
        KeptIgnoresExclusions(ListPods(s, "", selector).value, target, other);
      }
    }
  }

  lemma {:induction false} KeptIgnoresExclusions(pods: seq<Pod>, target: TargetSpec, other: TargetSpec)
    requires other == target.(excludeNamespaces := other.excludeNamespaces)
    ensures Kept(pods, target) == Kept(pods, other)
    decreases |pods|
  {
    if pods != [] {
      KeptIgnoresExclusions(pods[..|pods| - 1], target, other);
    }
  }

  /** A namespace selector takes precedence: the namespace field then plays no part. */
  lemma {:induction false} NamespaceSelectorFirst(target: TargetSpec, s: Snapshot, parse: SelectorParser, namespace: string)
    requires target.namespaceSelector.Some?
    ensures Discovery(target, s, parse) == Discovery(target.(namespace := namespace), s, parse)
  {
    var other := target.(namespace := namespace);
    assert PodSelector(target, parse) == PodSelector(other, parse);
    assert TargetNamespaces(target, s, parse) == TargetNamespaces(other, s, parse);
    if PodSelector(target, parse).Ok? && TargetNamespaces(target, s, parse).Ok? {
      DiscoveredInNamespaceField(target, other, s, PodSelector(target, parse).value, TargetNamespaces(target, s, parse).value);
    }
  }

  lemma {:induction false} DiscoveredInNamespaceField(target: TargetSpec, other: TargetSpec, s: Snapshot, selector: Matcher,
                                                      namespaces: seq<string>)
    requires other == target.(namespace := other.namespace)
    ensures DiscoveredIn(target, s, selector, namespaces) == DiscoveredIn(other, s, selector, namespaces)
    decreases |namespaces|
  {
    if namespaces != [] {
      DiscoveredInNamespaceField(target, other, s, selector, namespaces[..|namespaces| - 1]);
      forall pods: seq<Pod> ensures Kept(pods, target) == Kept(pods, other) {
        KeptIgnoresNamespace(pods, target, other);
      }
    }
  }

  lemma {:induction false} KeptIgnoresNamespace(pods: seq<Pod>, target: TargetSpec, other: TargetSpec)
    requires other == target.(namespace := other.namespace)
    ensures Kept(pods, target) == Kept(pods, other)
    decreases |pods|
  {
    if pods != [] {
      KeptIgnoresNamespace(pods[..|pods| - 1], target, other);
    }
  }

  /** A target namespace that is itself excluded gives no pods. */
  lemma {:induction false} ExcludedNamespaceEmpty(target: TargetSpec, s: Snapshot, parse: SelectorParser)
    requires target.namespaceSelector.None? && target.namespace != ""
    requires target.namespace in target.excludeNamespaces
    requires PodSelector(target, parse).Ok?
    ensures Discovery(target, s, parse) == Ok([])
  {
    var namespaces := [target.namespace];
    assert TargetNamespaces(target, s, parse) == Ok(namespaces);
    assert namespaces[..0] == [];
    assert IsNamespaceExcluded(target.namespace, target.excludeNamespaces);
    assert DiscoveredIn(target, s, PodSelector(target, parse).value, namespaces) == Ok([]);
  }

  method DiscoverTargetPods(target: TargetSpec, s: Snapshot, parse: SelectorParser) returns (r: Result<seq<Pod>, string>)
    ensures r == Discovery(target, s, parse)
  {
    var selector := Everything;
    if target.labelSelector.Some? {
      var parsed := parse(target.labelSelector.value);
      if parsed.Err? {
        return Err(InvalidLabelSelector + parsed.error);
      }
      selector := parsed.value;
    }
    var targets := TargetNamespaces(target, s, parse);
    if targets.Err? {
      return Err(targets.error);
    }
    r := DiscoverInNamespaces(target, s, selector, targets.value);
  }

  /** The loop over the target namespaces. */
  method DiscoverInNamespaces(target: TargetSpec, s: Snapshot, selector: Matcher, namespaces: seq<string>)
    returns (r: Result<seq<Pod>, string>)
    ensures r == DiscoveredIn(target, s, selector, namespaces)
  {
    var pods: seq<Pod> := [];
    var i := 0;
    while i < |namespaces|
      invariant 0 <= i <= |namespaces|
      invariant DiscoveredIn(target, s, selector, namespaces[..i]) == Ok(pods)
    {
      assert namespaces[..i + 1][..i] == namespaces[..i];
      var ns := namespaces[i];
      if IsNamespaceExcluded(ns, target.excludeNamespaces) {
        i := i + 1;
        continue;
      }
      var listed := ListPods(s, ns, selector);
      if listed.Err? {
        DiscoveredInErrSticks(target, s, selector, namespaces, i + 1);
        return Err(ListPodsFailed(ns) + listed.error);
      }
      var kept := KeepIncluded(listed.value, target);
      pods := pods + kept;
      i := i + 1;
    }
    assert namespaces[..|namespaces|] == namespaces;
    r := Ok(pods);
  }

  /** The loop over one namespace's pods, keeping those shouldIncludePod accepts. */
  method KeepIncluded(items: seq<Pod>, target: TargetSpec) returns (kept: seq<Pod>)
    ensures kept == Kept(items, target)
  {
    kept := [];
    var j := 0;
    while j < |items|
      invariant 0 <= j <= |items|
      invariant kept == Kept(items[..j], target)
    {
      assert items[..j + 1][..j] == items[..j];
      if ShouldIncludePod(items[j], target) {
        kept := kept + [items[j]];
      }
      j := j + 1;
    }
    assert items[..|items|] == items;
  }

  // ---------------------------------------------------------------
  // groupPodsByWorkload
  // ---------------------------------------------------------------

  /** The distinct keys in order of first appearance: the order the model visits map entries in. */
  function FirstSeen(keys: seq<string>): (order: seq<string>)
    ensures forall k :: k in order <==> k in keys
    ensures forall a, b :: 0 <= a < b < |order| ==> order[a] != order[b]
    decreases |keys|
  {
    if keys == [] then []
    else
      var init := keys[..|keys| - 1];
      var k := keys[|keys| - 1];
      assert keys == init + [k];
      if k in FirstSeen(init) then FirstSeen(init) else FirstSeen(init) + [k]
  }

  /** The items whose key is k, in order. */
  function Members<T>(items: seq<T>, keys: seq<string>, k: string): seq<T>
    requires |items| == |keys|
    decreases |items|
  {
    if items == [] then []
    else Members(items[..|items| - 1], keys[..|keys| - 1], k) + (if keys[|keys| - 1] == k then [items[|items| - 1]] else [])
  }

  lemma {:induction false} MembersAbsent<T>(items: seq<T>, keys: seq<string>, k: string)
    requires |items| == |keys| && k !in keys
    ensures Members(items, keys, k) == []
    decreases |items|
  {
    if items != [] {
      MembersAbsent(items[..|items| - 1], keys[..|keys| - 1], k);
    }
  }

  /** Every member of a group carries the group's key. */
  lemma {:induction false} MembersKeyed<T>(items: seq<T>, keys: seq<string>, k: string)
    requires |items| == |keys|
    ensures forall x :: x in Members(items, keys, k) ==> exists i :: 0 <= i < |items| && items[i] == x && keys[i] == k
    decreases |items|
  {
    if items != [] {
      var n := |items| - 1;
      MembersKeyed(items[..n], keys[..n], k);
      forall x | x in Members(items[..n], keys[..n], k)
        ensures exists i :: 0 <= i < |items| && items[i] == x && keys[i] == k
      {
        var i :| 0 <= i < n && items[..n][i] == x && keys[..n][i] == k;
        assert items[i] == x && keys[i] == k;
      }
    }
  }

  /** The groups by key, as filing the items one by one builds them. */
  function Grouping<T>(items: seq<T>, keys: seq<string>): map<string, seq<T>>
    requires |items| == |keys|
    decreases |items|
  {
    if items == [] then map[]
    else
      var g := Grouping(items[..|items| - 1], keys[..|keys| - 1]);
      var k := keys[|keys| - 1];
      g[k := (if k in g then g[k] else []) + [items[|items| - 1]]]
  }

  /** Filing item by item groups exactly the keys, each with its members in order. */
  lemma {:induction false} GroupingMembers<T>(items: seq<T>, keys: seq<string>)
    requires |items| == |keys|
    ensures forall k :: k in Grouping(items, keys) <==> k in keys
    ensures forall k :: k in Grouping(items, keys) ==> Grouping(items, keys)[k] == Members(items, keys, k)
    decreases |items|
  {
    if items != [] {
      var n := |items| - 1;
      GroupingMembers(items[..n], keys[..n]);
      assert keys == keys[..n] + [keys[n]];
      var last := keys[n];
      if last !in keys[..n] {
        MembersAbsent(items[..n], keys[..n], last);
      }
    }
  }

  /** groups[key] = append(groups[key], item), item by item. */
  method GroupByKey<T>(items: seq<T>, keys: seq<string>) returns (groups: map<string, seq<T>>, order: seq<string>)
    requires |items| == |keys|
    ensures order == FirstSeen(keys)
    ensures forall k :: k in groups <==> k in keys
    ensures forall k :: k in groups ==> groups[k] == Members(items, keys, k)
  {
    groups := map[];
    order := [];
    var i := 0;
    while i < |items|
      invariant 0 <= i <= |items|
      invariant order == FirstSeen(keys[..i])
      invariant groups == Grouping(items[..i], keys[..i])
    {
      assert items[..i + 1][..i] == items[..i];
      assert keys[..i + 1][..i] == keys[..i];
      var key := keys[i];
      GroupingMembers(items[..i], keys[..i]);
      if key !in groups {
        order := order + [key];
      }
      var existing := if key in groups then groups[key] else [];
      groups := groups[key := existing + [items[i]]];
      i := i + 1;
    }
    assert items[..|items|] == items;
    assert keys[..|keys|] == keys;
    GroupingMembers(items, keys);
  }

  function PodKeys(pods: seq<Pod>, replicaSets: map<(string, string), seq<OwnerReference>>): (keys: seq<string>)
    ensures |keys| == |pods|
    ensures forall i :: 0 <= i < |pods| ==> keys[i] == PodWorkloadKey(pods[i], replicaSets)
  {
    seq(|pods|, i requires 0 <= i < |pods| => PodWorkloadKey(pods[i], replicaSets))
  }

  /** The pods of one workload, in discovery order. */
  function WorkloadGroup(pods: seq<Pod>, replicaSets: map<(string, string), seq<OwnerReference>>, key: string): (group: seq<Pod>)
    ensures forall p :: p in group <==> p in pods && PodWorkloadKey(p, replicaSets) == key
    decreases |pods|
  {
    if pods == [] then []
    else
      var init := pods[..|pods| - 1];
      var last := pods[|pods| - 1];
      assert pods == init + [last];
      WorkloadGroup(init, replicaSets, key) + (if PodWorkloadKey(last, replicaSets) == key then [last] else [])
  }

  lemma {:induction false} MembersAreGroup(pods: seq<Pod>, replicaSets: map<(string, string), seq<OwnerReference>>, key: string)
    ensures Members(pods, PodKeys(pods, replicaSets), key) == WorkloadGroup(pods, replicaSets, key)
    decreases |pods|
  {
    if pods != [] {
      var n := |pods| - 1;
      assert PodKeys(pods, replicaSets)[..n] == PodKeys(pods[..n], replicaSets);
      MembersAreGroup(pods[..n], replicaSets, key);
    }
  }

  /**
   * One group per distinct namespace/type/name key, visited in order of
   * first appearance; each holds exactly the pods with its key.
   */
  method GroupPodsByWorkload(pods: seq<Pod>, replicaSets: map<(string, string), seq<OwnerReference>>)
    returns (groups: map<string, seq<Pod>>, order: seq<string>)
    ensures order == FirstSeen(PodKeys(pods, replicaSets))
    ensures forall k :: k in groups <==> k in order
    ensures forall k :: k in groups ==> groups[k] == WorkloadGroup(pods, replicaSets, k)
  {
    var keys := PodKeys(pods, replicaSets);
    groups, order := GroupByKey(pods, keys);
    forall k | k in groups
      ensures groups[k] == WorkloadGroup(pods, replicaSets, k)
    {
      MembersAreGroup(pods, replicaSets, k);
    }
  }

  // ---------------------------------------------------------------
  // getCurrentResources and addResourceToTotal
  // ---------------------------------------------------------------

  function Source(c: Container, requests: bool): ResourceList
  {
    if requests then c.resources.requests else c.resources.limits
  }

  /** The total with one resource of the source added in, when the source has it. */
  function AddResourceToTotal(total: ResourceList, source: ResourceList, name: ResourceName): (r: ResourceList)
    ensures r.Keys == total.Keys + (if name in source then {name} else {})
    ensures forall k :: k in total && k != name ==> r[k] == total[k]
    ensures name in source ==> r[name] == (if name in total then total[name] else 0) + source[name]
    ensures name !in source ==> r == total
  {
    if name in source then
      if name in total then total[name := total[name] + source[name]] else total[name := source[name]]
    else total
  }

  /** CPU and memory totals of the containers' requests (or limits). */
  function Totals(containers: seq<Container>, requests: bool): ResourceList
    decreases |containers|
  {
    if containers == [] then map[]
    else
      var source := Source(containers[|containers| - 1], requests);
      AddResourceToTotal(AddResourceToTotal(Totals(containers[..|containers| - 1], requests), source, Cpu), source, Memory)
  }

  function CurrentResources(containers: seq<Container>): ResourceRequirements
  {
    ResourceRequirements(Totals(containers, true), Totals(containers, false))
  }

  /** The quantity of one resource over all containers, absent ones counting 0. */
  function QuantitySum(containers: seq<Container>, requests: bool, name: ResourceName): int
    decreases |containers|
  {
    if containers == [] then 0
    else
      var source := Source(containers[|containers| - 1], requests);
      QuantitySum(containers[..|containers| - 1], requests, name) + (if name in source then source[name] else 0)
  }

  /**
   * The totals hold CPU and memory only; each is present exactly when some
   * container declares it, with the sum over the containers.
   */
  lemma {:induction false} TotalsMeaning(containers: seq<Container>, requests: bool, name: ResourceName)
    requires name == Cpu || name == Memory
    ensures forall k :: k in Totals(containers, requests) ==> k == Cpu || k == Memory
    ensures name in Totals(containers, requests) <==> exists i :: 0 <= i < |containers| && name in Source(containers[i], requests)
    ensures name in Totals(containers, requests) ==> Totals(containers, requests)[name] == QuantitySum(containers, requests, name)
    decreases |containers|
  {
    if containers != [] {
      var n := |containers| - 1;
      var init := containers[..n];
      TotalsMeaning(init, requests, name);
      var before := Totals(init, requests);
      var source := Source(containers[n], requests);
      assert Totals(containers, requests) == AddResourceToTotal(AddResourceToTotal(before, source, Cpu), source, Memory);
      assert QuantitySum(containers, requests, name) == QuantitySum(init, requests, name) + (if name in source then source[name] else 0);
      assert forall i :: 0 <= i < n ==> containers[i] == init[i];
      if name in source {
        assert name in Source(containers[n], requests);
      }
      if name !in before {
        assert QuantitySum(init, requests, name) == 0 by {
          SumOfAbsent(init, requests, name);
        }
      }
    }
  }

  lemma {:induction false} SumOfAbsent(containers: seq<Container>, requests: bool, name: ResourceName)
    requires forall i :: 0 <= i < |containers| ==> name !in Source(containers[i], requests)
    ensures QuantitySum(containers, requests, name) == 0
    decreases |containers|
  {
    if containers != [] {
      var n := |containers| - 1;
      assert forall i :: 0 <= i < n ==> containers[..n][i] == containers[i];
      SumOfAbsent(containers[..n], requests, name);
    }
  }

  method GetCurrentResources(pod: Pod) returns (r: ResourceRequirements)
    ensures r == CurrentResources(pod.containers)
  {
    var totalRequests: ResourceList := map[];
    var totalLimits: ResourceList := map[];
    var containers := pod.containers;
    var i := 0;
    while i < |containers|
      invariant 0 <= i <= |containers|
      invariant totalRequests == Totals(containers[..i], true)
      invariant totalLimits == Totals(containers[..i], false)
    {
      assert containers[..i + 1][..i] == containers[..i];
      var container := containers[i];
      totalRequests := AddResourceToTotal(totalRequests, container.resources.requests, Cpu);
      totalRequests := AddResourceToTotal(totalRequests, container.resources.requests, Memory);
      totalLimits := AddResourceToTotal(totalLimits, container.resources.limits, Cpu);
      totalLimits := AddResourceToTotal(totalLimits, container.resources.limits, Memory);
      i := i + 1;
    }
    assert containers[..|containers|] == containers;
    r := ResourceRequirements(totalRequests, totalLimits);
  }

  // ---------------------------------------------------------------
  // generateWorkloadRecommendations
  // ---------------------------------------------------------------

  const DefaultWindow: int := 7 * Day
  const InvalidWorkloadKey := "invalid workload key: "
  const NoMetricsFound := "no metrics found for workload "

  /** The window to collect: the parsed one, or seven days when it does not parse. */
  function MetricsWindow(spec: PodRightSizingSpec, parse: DurationParser): int
  {
    match parse(spec.analysisWindow)
    case Ok(d) => d
    case Err(_) => DefaultWindow
  }

  /** The first pod of the given name. */
  function FirstNamed(pods: seq<Pod>, name: string): (r: Option<Pod>)
    ensures r.None? <==> forall i :: 0 <= i < |pods| ==> pods[i].name != name
    ensures forall i :: 0 <= i < |pods| && pods[i].name == name && (forall j :: 0 <= j < i ==> pods[j].name != name) ==>
      r == Some(pods[i])
    decreases |pods|
  {
    if pods == [] then None
    else if pods[0].name == name then Some(pods[0])
    else
      assert forall i :: 1 <= i < |pods| ==> pods[i] == pods[1..][i - 1];
      FirstNamed(pods[1..], name)
  }

  /** A recommendation with its workload filled in and, when its pod is in the group, the pod's current resources. */
  function Enhanced(rec: PodRecommendation, workloadType: string, workloadName: string, pods: seq<Pod>): PodRecommendation
  {
    var owned := rec.(podReference := rec.podReference.(workloadType := workloadType, workloadName := workloadName));
    match FirstNamed(pods, rec.podReference.name)
    case None => owned
    case Some(p) => owned.(currentResources := CurrentResources(p.containers))
  }

  function EnhancedAll(recs: seq<PodRecommendation>, workloadType: string, workloadName: string, pods: seq<Pod>)
    : (r: seq<PodRecommendation>)
    ensures |r| == |recs|
    ensures forall i :: 0 <= i < |recs| ==> r[i] == Enhanced(recs[i], workloadType, workloadName, pods)
  {
    seq(|recs|, i requires 0 <= i < |recs| => Enhanced(recs[i], workloadType, workloadName, pods))
  }

  /** What one workload contributes: its recommendations, or the error that drops it. */
  function WorkloadRecommendations(spec: PodRightSizingSpec, key: string, pods: seq<Pod>, env: Environment)
    : Result<seq<PodRecommendation>, string>
  {
    var parts := SplitWorkloadKey(key);
    if |parts| != 3 then Err(InvalidWorkloadKey + key)
    else
      match env.metrics(parts[0], parts[2], parts[1], MetricsWindow(spec, env.parseDuration))
      case Err(e) => Err(e)
      case Ok(metrics) =>
        if |metrics.pods| == 0 then Err(NoMetricsFound + key)
        else Ok(EnhancedAll(env.engine.Recommendations(metrics.pods, spec.thresholds, env.sqrt), parts[1], parts[2], pods))
  }

  /**
   * A workload yields recommendations only when its key splits in three,
   * its metrics load and hold pods; each one then names the key's type and
   * workload, and no more are made than there are pods with metrics.
   */
  lemma {:induction false} WorkloadRecommendationsShape(spec: PodRightSizingSpec, key: string, pods: seq<Pod>, env: Environment)
    ensures var r := WorkloadRecommendations(spec, key, pods, env);
      var parts := SplitWorkloadKey(key);
      && (|parts| != 3 ==> r == Err(InvalidWorkloadKey + key))
      && (r.Ok? ==>
            && |parts| == 3
            && var metrics := env.metrics(parts[0], parts[2], parts[1], MetricsWindow(spec, env.parseDuration));
               && metrics.Ok? && |metrics.value.pods| > 0
               && |r.value| <= |metrics.value.pods|
               && forall i :: 0 <= i < |r.value| ==>
                    r.value[i].podReference.workloadType == parts[1] && r.value[i].podReference.workloadName == parts[2])
  {
    var parts := SplitWorkloadKey(key);
    if |parts| == 3 {
      var metrics := env.metrics(parts[0], parts[2], parts[1], MetricsWindow(spec, env.parseDuration));
      if metrics.Ok? {
        RecommendationsAtMost(env.engine, metrics.value.pods, spec.thresholds, env.sqrt);
      }
    }
  }

  lemma {:induction false} RecommendationsAtMost(e: Engine.RecommendationEngine, pods: seq<PodMetrics>,
                                                 t: ResourceThresholds, sqrt: SqrtFn)
    ensures |e.Recommendations(pods, t, sqrt)| <= |pods|
    decreases |pods|
  {
    if pods != [] {
      RecommendationsAtMost(e, pods[..|pods| - 1], t, sqrt);
    }
  }

  /** For a key built by grouping, the metrics are asked for that pod's namespace, workload name and type. */
  lemma {:induction false} GroupKeyQueriesItsWorkload(pod: Pod, replicaSets: map<(string, string), seq<OwnerReference>>)
    requires '/' !in pod.namespace
    ensures SplitWorkloadKey(PodWorkloadKey(pod, replicaSets))
      == [pod.namespace, GetWorkloadType(pod), GetWorkloadName(pod, replicaSets)]
  {
    WorkloadTypeRange(pod);
    SplitWorkloadKeyOfKey(pod.namespace, GetWorkloadType(pod), GetWorkloadName(pod, replicaSets));
  }

  method GenerateWorkloadRecommendations(spec: PodRightSizingSpec, key: string, pods: seq<Pod>, env: Environment)
    returns (r: Result<seq<PodRecommendation>, string>)
    ensures r == WorkloadRecommendations(spec, key, pods, env)
  {
    var parts := SplitWorkloadKey(key);
    if |parts| != 3 {
      return Err(InvalidWorkloadKey + key);
    }
    var namespace, workloadType, workloadName := parts[0], parts[1], parts[2];
    var window := MetricsWindow(spec, env.parseDuration);
    var workloadMetrics := env.metrics(namespace, workloadName, workloadType, window);
    if workloadMetrics.Err? {
      return Err(workloadMetrics.error);
    }
    if |workloadMetrics.value.pods| == 0 {
      return Err(NoMetricsFound + key);
    }
    // With pods present the engine cannot fail.
    var generated := env.engine.GenerateRecommendations(workloadMetrics.value, spec.thresholds, env.sqrt);
    var recommendations := generated.value;
    ghost var original := recommendations;
    var i := 0;
    while i < |recommendations|
      invariant 0 <= i <= |recommendations| == |original|
      invariant forall k :: 0 <= k < i ==> recommendations[k] == Enhanced(original[k], workloadType, workloadName, pods)
      invariant forall k :: i <= k < |recommendations| ==> recommendations[k] == original[k]
    {
      var rec := EnhanceRecommendation(recommendations[i], workloadType, workloadName, pods);
      recommendations := recommendations[i := rec];
      i := i + 1;
    }
    assert recommendations == EnhancedAll(original, workloadType, workloadName, pods);
    r := Ok(recommendations);
  }

  /** The loop body: set the workload, then take the resources of the first pod of that name. */
  method EnhanceRecommendation(rec: PodRecommendation, workloadType: string, workloadName: string, pods: seq<Pod>)
    returns (r: PodRecommendation)
    ensures r == Enhanced(rec, workloadType, workloadName, pods)
  {
    r := rec.(podReference := rec.podReference.(workloadType := workloadType, workloadName := workloadName));
    var j := 0;
    while j < |pods|
      invariant 0 <= j <= |pods|
      invariant forall k :: 0 <= k < j ==> pods[k].name != rec.podReference.name
    {
      if pods[j].name == rec.podReference.name {
        var current := GetCurrentResources(pods[j]);
        r := r.(currentResources := current);
        return;
      }
      j := j + 1;
    }
  }

  // ---------------------------------------------------------------
  // updateContainerResources, updateDeployment/StatefulSet/DaemonSet
  // ---------------------------------------------------------------

  /** The text of a missing object's Get error. */
  const NotFoundError := "not found"
  const ManualStrategy := "manual"

  /** The template of a workload: the first recommendation's resources, with no averaging. */
  function CalculateAverageRecommendation(recs: seq<PodRecommendation>): (r: ResourceRequirements)
    ensures |recs| > 0 ==> r == recs[0].recommendedResources
    ensures |recs| == 0 ==> r == NoRequirements
  {
    if |recs| == 0 then NoRequirements else recs[0].recommendedResources
  }

  /** The containers with each one's resources set to the template. */
  function Retemplated(containers: seq<Container>, resources: ResourceRequirements): (r: seq<Container>)
    ensures |r| == |containers|
    ensures forall i :: 0 <= i < |r| ==> r[i] == containers[i].(resources := resources)
  {
    seq(|containers|, i requires 0 <= i < |containers| => containers[i].(resources := resources))
  }

  /** Whether some container's resources differ from the template. */
  predicate NeedsUpdate(containers: seq<Container>, resources: ResourceRequirements)
  {
    exists i :: 0 <= i < |containers| && containers[i].resources != resources
  }

  /**
   * Retemplating settles: afterwards nothing needs an update, and when
   * nothing needed one the containers are left as they were.
   */
  lemma {:induction false} RetemplatedSettles(containers: seq<Container>, resources: ResourceRequirements)
    ensures !NeedsUpdate(Retemplated(containers, resources), resources)
    ensures !NeedsUpdate(containers, resources) ==> Retemplated(containers, resources) == containers
    ensures Retemplated(Retemplated(containers, resources), resources) == Retemplated(containers, resources)
  {
    var r := Retemplated(containers, resources);
    if !NeedsUpdate(containers, resources) {
      assert forall i :: 0 <= i < |containers| ==> r[i] == containers[i];
    }
  }

  method UpdateContainerResources(containers: array<Container>, resources: ResourceRequirements) returns (updated: bool)
    modifies containers
    ensures containers[..] == Retemplated(old(containers[..]), resources)
    ensures updated <==> NeedsUpdate(old(containers[..]), resources)
  {
    ghost var before := containers[..];
    updated := false;
    for i := 0 to containers.Length
      invariant forall k :: 0 <= k < i ==> containers[k] == before[k].(resources := resources)
      invariant forall k :: i <= k < containers.Length ==> containers[k] == before[k]
      invariant updated <==> exists k :: 0 <= k < i && before[k].resources != resources
    {
      ResourcesEqualIff(containers[i].resources, resources);
      if !ResourcesEqual(containers[i].resources, resources) {
        containers[i] := containers[i].(resources := resources);
        updated := true;
      }
    }
  }

  predicate Updatable(workloadType: string)
  {
    workloadType == WorkloadTypeDeployment || workloadType == WorkloadTypeStatefulSet || workloadType == WorkloadTypeDaemonSet
  }

  function KindText(workloadType: string): string
  {
    if workloadType == WorkloadTypeDeployment then "deployment"
    else if workloadType == WorkloadTypeStatefulSet then "statefulset"
    else "daemonset"
  }

  function GetWorkloadFailed(workload: WorkloadRef, e: string): string
  {
    "failed to get " + KindText(workload.kind) + " " + workload.namespace + "/" + workload.name + ": " + e
  }

  /** The Deployment text names the namespace; the StatefulSet and DaemonSet texts the workload only. */
  function UpdateWorkloadFailed(workload: WorkloadRef, e: string): string
  {
    if workload.kind == WorkloadTypeDeployment then
      "failed to update deployment " + workload.namespace + "/" + workload.name + ": " + e
    else
      "failed to update " + KindText(workload.kind) + " " + workload.name + ": " + e
  }

  /** The count, the error and the server state an apply step ends with. */
  datatype Applied = Applied(count: int, err: Option<string>, state: ServerState)

  /**
   * One workload update: a missing workload fails to load; a template that
   * every container already has changes nothing; otherwise the retemplated
   * containers are written, counting 1 unless the server rejects them.
   */
  function UpdateOutcome(s: Snapshot, st: ServerState, workload: WorkloadRef, resources: ResourceRequirements): Applied
  {
    if workload !in st.workloads then Applied(0, Some(GetWorkloadFailed(workload, NotFoundError)), st)
    else
      var containers := st.workloads[workload];
      if !NeedsUpdate(containers, resources) then Applied(0, None, st)
      else
        var written := WriteWorkload(s, st, workload, Retemplated(containers, resources));
        match written.1
        case Some(e) => Applied(0, Some(UpdateWorkloadFailed(workload, e)), written.0)
        case None => Applied(1, None, written.0)
  }

  lemma {:induction false} UpdateOutcomeMeaning(s: Snapshot, st: ServerState, workload: WorkloadRef, resources: ResourceRequirements)
    ensures var a := UpdateOutcome(s, st, workload, resources);
      && (a.count == 0 || a.count == 1)
      && (a.count == 1 <==>
            workload in st.workloads && NeedsUpdate(st.workloads[workload], resources) && workload !in s.updateRejections)
      && (a.err.Some? <==>
            workload !in st.workloads || (NeedsUpdate(st.workloads[workload], resources) && workload in s.updateRejections))
      && (a.count == 0 ==> a.state == st)
      && (a.count == 1 ==>
            var template := Retemplated(st.workloads[workload], resources);
            a.state == st.(workloads := st.workloads[workload := template],
                           effects := st.effects + [WorkloadUpdate(workload, template)]))
  {
  }

  /** Applying the same template twice: the second time finds nothing to change. */
  lemma {:induction false} UpdateIdempotent(s: Snapshot, st: ServerState, workload: WorkloadRef, resources: ResourceRequirements)
    requires UpdateOutcome(s, st, workload, resources).count == 1
    ensures var next := UpdateOutcome(s, st, workload, resources).state;
      UpdateOutcome(s, next, workload, resources) == Applied(0, None, next)
  {
    RetemplatedSettles(st.workloads[workload], resources);
  }

  method UpdateWorkloadResources(api: ApiServer, workload: WorkloadRef, resources: ResourceRequirements)
    returns (count: int, err: Option<string>)
    modifies api
    ensures Applied(count, err, api.State()) == UpdateOutcome(api.snapshot, old(api.State()), workload, resources)
  {
    var stored := api.GetWorkload(workload);
    if stored.None? {
      return 0, Some(GetWorkloadFailed(workload, NotFoundError));
    }
    var original := stored.value;
    var containers := new Container[|original|](i requires 0 <= i < |original| => original[i]);
    assert containers[..] == original;
    var updated := UpdateContainerResources(containers, resources);
    if !updated {
      return 0, None;
    }
    var rejected := api.UpdateWorkload(workload, containers[..]);
    if rejected.Some? {
      return 0, Some(UpdateWorkloadFailed(workload, rejected.value));
    }
    return 1, None;
  }

  // ---------------------------------------------------------------
  // applyWorkloadRecommendations and applyRecommendations
  // ---------------------------------------------------------------

  /**
   * One workload's recommendations: nothing under the manual strategy or
   * without recommendations, an error for a malformed key, the update for
   * a Deployment, StatefulSet or DaemonSet, and nothing for other types.
   */
  function ApplyWorkloadOutcome(s: Snapshot, st: ServerState, spec: PodRightSizingSpec, key: string,
                                recs: seq<PodRecommendation>): Applied
  {
    if StrategyName(spec.updatePolicy.strategy) == ManualStrategy || |recs| == 0 then Applied(0, None, st)
    else
      var parts := SplitWorkloadKey(key);
      if |parts| != 3 then Applied(0, Some(InvalidWorkloadKey + key), st)
      else if Updatable(parts[1]) then
        UpdateOutcome(s, st, WorkloadRef(parts[1], parts[0], parts[2]), CalculateAverageRecommendation(recs))
      else Applied(0, None, st)
  }

  /**
   * One workload counts at most once and only when it is updated: the one
   * change is a workload update of the key's Deployment, StatefulSet or
   * DaemonSet, to the first recommendation's resources.
   */
  lemma {:induction false} ApplyWorkloadMeaning(s: Snapshot, st: ServerState, spec: PodRightSizingSpec, key: string, recs: seq<PodRecommendation>)
    ensures var a := ApplyWorkloadOutcome(s, st, spec, key, recs);
      && (a.count == 0 || a.count == 1)
      && (a.err.Some? ==> a.count == 0)
      && (a.count == 0 ==> a.state == st)
      && (a.count == 1 ==>
            && |recs| > 0 && StrategyName(spec.updatePolicy.strategy) != ManualStrategy
            && a.state.statusAttempts == st.statusAttempts
            && exists ref: WorkloadRef, containers: seq<Container> ::
                 && a.state.effects == st.effects + [WorkloadUpdate(ref, containers)]
                 && Updatable(ref.kind) && SplitWorkloadKey(key) == [ref.namespace, ref.kind, ref.name]
                 && forall i :: 0 <= i < |containers| ==> containers[i].resources == recs[0].recommendedResources)
  {
    if StrategyName(spec.updatePolicy.strategy) != ManualStrategy && |recs| > 0 {
      var parts := SplitWorkloadKey(key);
      if |parts| == 3 && Updatable(parts[1]) {
        var ref := WorkloadRef(parts[1], parts[0], parts[2]);
        UpdateOutcomeMeaning(s, st, ref, recs[0].recommendedResources);
        var a := ApplyWorkloadOutcome(s, st, spec, key, recs);
        if a.count == 1 {
          assert a.state.effects == st.effects + [WorkloadUpdate(ref, Retemplated(st.workloads[ref], recs[0].recommendedResources))];
        }
      }
    }
  }

  method ApplyWorkloadRecommendations(api: ApiServer, spec: PodRightSizingSpec, key: string, recs: seq<PodRecommendation>)
    returns (count: int, err: Option<string>)
    modifies api
    ensures Applied(count, err, api.State()) == ApplyWorkloadOutcome(api.snapshot, old(api.State()), spec, key, recs)
  {
    if StrategyName(spec.updatePolicy.strategy) == ManualStrategy {
      return 0, None;
    }
    if |recs| == 0 {
      return 0, None;
    }
    var parts := SplitWorkloadKey(key);
    if |parts| != 3 {
      return 0, Some(InvalidWorkloadKey + key);
    }
    var namespace, workloadType, workloadName := parts[0], parts[1], parts[2];
    var template := CalculateAverageRecommendation(recs);
    if Updatable(workloadType) {
      count, err := UpdateWorkloadResources(api, WorkloadRef(workloadType, namespace, workloadName), template);
    } else {
      count, err := 0, None;
    }
  }

  function RecKeys(recs: seq<PodRecommendation>): (keys: seq<string>)
    ensures |keys| == |recs|
    ensures forall i :: 0 <= i < |recs| ==> keys[i] == RecommendationKey(recs[i])
  {
    seq(|recs|, i requires 0 <= i < |recs| => RecommendationKey(recs[i]))
  }

  /** Workload by workload, the updates counted so far and the state left; a failed workload adds nothing. */
  function ApplyAllOutcome(s: Snapshot, st: ServerState, spec: PodRightSizingSpec, recs: seq<PodRecommendation>,
                           order: seq<string>): (int, ServerState)
    decreases |order|
  {
    if order == [] then (0, st)
    else
      var before := ApplyAllOutcome(s, st, spec, recs, order[..|order| - 1]);
      ApplyStep(s, before, spec, recs, order[|order| - 1])
  }

  /** The running count and state after one more workload. */
  function ApplyStep(s: Snapshot, before: (int, ServerState), spec: PodRightSizingSpec, recs: seq<PodRecommendation>,
                     key: string): (int, ServerState)
  {
    var a := ApplyWorkloadOutcome(s, before.1, spec, key, Members(recs, RecKeys(recs), key));
    (if a.err.Some? then before.0 else before.0 + a.count, a.state)
  }

  /** An update made from recommendations: its workload is a recommendation's key, its template that one's resources. */
  predicate FromRecommendation(e: Effect, recs: seq<PodRecommendation>)
  {
    && e.WorkloadUpdate?
    && Updatable(e.workload.kind)
    && exists rec :: rec in recs
         && SplitWorkloadKey(RecommendationKey(rec)) == [e.workload.namespace, e.workload.kind, e.workload.name]
         && forall i :: 0 <= i < |e.containers| ==> e.containers[i].resources == rec.recommendedResources
  }

  /**
   * Applying leaves the status untouched and only appends workload
   * updates, one per counted workload, each carrying the resources of a
   * recommendation for that workload.
   */
  lemma {:induction false} ApplyAllMeaning(s: Snapshot, st: ServerState, spec: PodRightSizingSpec,
                                           recs: seq<PodRecommendation>, order: seq<string>)
    ensures var r := ApplyAllOutcome(s, st, spec, recs, order);
      && 0 <= r.0 <= |order|
      && r.1.statusAttempts == st.statusAttempts
      && |st.effects| <= |r.1.effects| && r.1.effects[..|st.effects|] == st.effects
      && r.0 == |r.1.effects| - |st.effects|
      && forall j :: |st.effects| <= j < |r.1.effects| ==> FromRecommendation(r.1.effects[j], recs)
    decreases |order|
  {
    if order != [] {
      var init := order[..|order| - 1];
      ApplyAllMeaning(s, st, spec, recs, init);
      var before := ApplyAllOutcome(s, st, spec, recs, init);
      var key := order[|order| - 1];
      var group := Members(recs, RecKeys(recs), key);
      var a := ApplyWorkloadOutcome(s, before.1, spec, key, group);
      ApplyWorkloadMeaning(s, before.1, spec, key, group);
      var r := ApplyAllOutcome(s, st, spec, recs, order);
      assert r == ApplyStep(s, before, spec, recs, key);
      if a.count == 1 {
        var ref: WorkloadRef, containers: seq<Container> :| && a.state.effects == before.1.effects + [WorkloadUpdate(ref, containers)]
          && Updatable(ref.kind) && SplitWorkloadKey(key) == [ref.namespace, ref.kind, ref.name]
          && forall i :: 0 <= i < |containers| ==> containers[i].resources == group[0].recommendedResources;
        GroupUpdateFromRecs(recs, key, ref, containers);
        AppendedFromRecs(st.effects, before.1.effects, WorkloadUpdate(ref, containers), recs);
      }
    }
  }

  lemma {:induction false} AppendedFromRecs(start: seq<Effect>, effects: seq<Effect>, e: Effect, recs: seq<PodRecommendation>)
    requires |start| <= |effects| && effects[..|start|] == start
    requires forall j :: |start| <= j < |effects| ==> FromRecommendation(effects[j], recs)
    requires FromRecommendation(e, recs)
    ensures (effects + [e])[..|start|] == start
    ensures forall j :: |start| <= j < |effects + [e]| ==> FromRecommendation((effects + [e])[j], recs)
  {
    assert (effects + [e])[..|start|] == effects[..|start|];
  }

  /** The update made for a group carries the resources of one of its recommendations. */
  lemma {:induction false} GroupUpdateFromRecs(recs: seq<PodRecommendation>, key: string, ref: WorkloadRef, containers: seq<Container>)
    requires |Members(recs, RecKeys(recs), key)| > 0
    requires Updatable(ref.kind) && SplitWorkloadKey(key) == [ref.namespace, ref.kind, ref.name]
    requires forall i :: 0 <= i < |containers| ==>
      containers[i].resources == Members(recs, RecKeys(recs), key)[0].recommendedResources
    ensures FromRecommendation(WorkloadUpdate(ref, containers), recs)
  {
    var group := Members(recs, RecKeys(recs), key);
    MembersKeyed(recs, RecKeys(recs), key);
    assert group[0] in group;
    var i :| 0 <= i < |recs| && recs[i] == group[0] && RecKeys(recs)[i] == key;
    assert recs[i] in recs && SplitWorkloadKey(RecommendationKey(recs[i])) == [ref.namespace, ref.kind, ref.name];
  }

  /** Under the manual strategy nothing is applied. */
  lemma {:induction false} ManualAppliesNothing(s: Snapshot, st: ServerState, spec: PodRightSizingSpec,
                                                recs: seq<PodRecommendation>, order: seq<string>)
    requires StrategyName(spec.updatePolicy.strategy) == ManualStrategy
    ensures ApplyAllOutcome(s, st, spec, recs, order) == (0, st)
    decreases |order|
  {
    if order != [] {
      ManualAppliesNothing(s, st, spec, recs, order[..|order| - 1]);
    }
  }

  lemma {:induction false} ApplyAllPrefix(s: Snapshot, st: ServerState, spec: PodRightSizingSpec, recs: seq<PodRecommendation>,
                       order: seq<string>, i: nat)
    requires i < |order|
    ensures ApplyAllOutcome(s, st, spec, recs, order[..i + 1])
      == ApplyStep(s, ApplyAllOutcome(s, st, spec, recs, order[..i]), spec, recs, order[i])
  {
    assert order[..i + 1][..i] == order[..i];
  }

  method ApplyRecommendations(api: ApiServer, spec: PodRightSizingSpec, recs: seq<PodRecommendation>) returns (count: int)
    modifies api
    ensures (count, api.State()) == ApplyAllOutcome(api.snapshot, old(api.State()), spec, recs, FirstSeen(RecKeys(recs)))
  {
    var groups, order := GroupByKey(recs, RecKeys(recs));
    count := ApplyGroups(api, spec, recs, groups, order);
  }

  /** The loop over the workload groups. */
  method ApplyGroups(api: ApiServer, spec: PodRightSizingSpec, recs: seq<PodRecommendation>,
                     groups: map<string, seq<PodRecommendation>>, order: seq<string>) returns (count: int)
    requires forall k :: k in order ==> k in groups && groups[k] == Members(recs, RecKeys(recs), k)
    modifies api
    ensures (count, api.State()) == ApplyAllOutcome(api.snapshot, old(api.State()), spec, recs, order)
  {
    ghost var start := api.State();
    count := 0;
    var i := 0;
    assert order[..0] == [];
    while i < |order|
      invariant 0 <= i <= |order|
      invariant (count, api.State()) == ApplyAllOutcome(api.snapshot, start, spec, recs, order[..i])
    {
      ApplyAllPrefix(api.snapshot, start, spec, recs, order, i);
      count := ApplyGroup(api, spec, recs, order[i], groups[order[i]], count);
      i := i + 1;
    }
    assert order[..|order|] == order;
  }

  /** One iteration: the next workload group is applied, and its count added unless it failed. */
  method ApplyGroup(api: ApiServer, spec: PodRightSizingSpec, recs: seq<PodRecommendation>, key: string,
                    group: seq<PodRecommendation>, count: int) returns (count': int)
    requires group == Members(recs, RecKeys(recs), key)
    modifies api
    ensures (count', api.State()) == ApplyStep(api.snapshot, (count, old(api.State())), spec, recs, key)
  {
    var updated, err := ApplyWorkloadRecommendations(api, spec, key, group);
    count' := if err.Some? then count else count + updated;
  }

  // ---------------------------------------------------------------
  // updatePhase and Reconcile
  // ---------------------------------------------------------------

  /** The outcome of fetching the PodRightSizing object. */
  datatype Fetched = Found(prs: PodRightSizing) | NotFound | GetFailed(error: string)

  /** ctrl.Result's RequeueAfter (0 for none) and the returned error. */
  datatype ReconcileResult = ReconcileResult(requeueAfter: int, error: Option<string>)

  const StartingAnalysis := "Starting resource analysis"
  const DiscoverFailed := "Failed to discover pods: "
  const NoMatchingPods := "No matching pods found"
  const GeneratingRecommendations := "Generating recommendations"
  const ApplyingRecommendations := "Applying recommendations"
  const DiscoveryRetry: int := 5 * Minute

  function TooManyTargetPods(n: nat): string
  {
    "too many target pods: " + NatToString(n) + " exceeds int32 limit"
  }

  function TooManyUpdatedPods(n: nat): string
  {
    "too many updated pods: " + NatToString(n) + " exceeds int32 limit"
  }

  function CompletionMessage(count: nat, dryRun: bool): string
  {
    "Analysis completed. Found " + NatToString(count) + " recommendations" + (if dryRun then " (dry-run mode)" else "")
  }

  function WithPhase(status: Status, phase: Phase, message: string): Status
  {
    status.(phase := Some(phase), message := message)
  }

  /** The phase and message set on the status, then the status written. */
  method UpdatePhase(api: ApiServer, status: Status, phase: Phase, message: string) returns (updated: Status, err: Option<string>)
    modifies api
    ensures updated == WithPhase(status, phase, message)
    ensures (api.State(), err) == WriteStatus(api.snapshot, old(api.State()), updated)
  {
    updated := status.(phase := Some(phase), message := message);
    err := api.UpdateStatus(updated);
  }

  /** What one workload group contributes: its recommendations, or nothing when they fail. */
  function GroupRecommendations(spec: PodRightSizingSpec, key: string, pods: seq<Pod>,
                                replicaSets: map<(string, string), seq<OwnerReference>>, env: Environment): seq<PodRecommendation>
  {
    match WorkloadRecommendations(spec, key, WorkloadGroup(pods, replicaSets, key), env)
    case Ok(recs) => recs
    case Err(_) => []
  }

  /** The recommendations of the groups in the order visited, concatenated. */
  function Collected(spec: PodRightSizingSpec, order: seq<string>, pods: seq<Pod>,
                     replicaSets: map<(string, string), seq<OwnerReference>>, env: Environment): seq<PodRecommendation>
    decreases |order|
  {
    if order == [] then []
    else
      Collected(spec, order[..|order| - 1], pods, replicaSets, env)
        + GroupRecommendations(spec, order[|order| - 1], pods, replicaSets, env)
  }

  lemma {:induction false} CollectedStep(spec: PodRightSizingSpec, order: seq<string>, i: nat, pods: seq<Pod>,
                      replicaSets: map<(string, string), seq<OwnerReference>>, env: Environment)
    requires i < |order|
    ensures Collected(spec, order[..i + 1], pods, replicaSets, env)
      == Collected(spec, order[..i], pods, replicaSets, env) + GroupRecommendations(spec, order[i], pods, replicaSets, env)
  {
    assert order[..i + 1][..i] == order[..i];
  }

  lemma {:induction false} ContributionOf(spec: PodRightSizingSpec, key: string, pods: seq<Pod>,
                       replicaSets: map<(string, string), seq<OwnerReference>>, env: Environment,
                       group: seq<Pod>, recs: Result<seq<PodRecommendation>, string>)
    requires group == WorkloadGroup(pods, replicaSets, key) && recs == WorkloadRecommendations(spec, key, group, env)
    ensures (if recs.Ok? then recs.value else []) == GroupRecommendations(spec, key, pods, replicaSets, env)
  {
  }

  method CollectRecommendations(spec: PodRightSizingSpec, groups: map<string, seq<Pod>>, order: seq<string>,
                                pods: seq<Pod>, replicaSets: map<(string, string), seq<OwnerReference>>, env: Environment)
    returns (all: seq<PodRecommendation>)
    requires forall k :: k in order ==> k in groups && groups[k] == WorkloadGroup(pods, replicaSets, k)
    ensures all == Collected(spec, order, pods, replicaSets, env)
  {
    all := [];
    var i := 0;
    assert order[..0] == [];
    while i < |order|
      invariant 0 <= i <= |order|
      invariant all == Collected(spec, order[..i], pods, replicaSets, env)
    {
      var key := order[i];
      var group := groups[key];
      var recs := GenerateWorkloadRecommendations(spec, key, group, env);
      ContributionOf(spec, key, pods, replicaSets, env, group, recs);
      CollectedStep(spec, order, i, pods, replicaSets, env);
      if recs.Ok? {
        all := all + recs.value;
      }
      i := i + 1;
    }
    assert order[..|order|] == order;
  }

  /** The last status write of a pass, and the requeue that follows an accepted one. */
  function Conclude(s: Snapshot, st: ServerState, spec: PodRightSizingSpec, status: Status, message: string,
                    env: Environment): (ReconcileResult, ServerState)
  {
    var w := WriteStatus(s, st, WithPhase(status, Completed, message));
    (if w.1.Some? then ReconcileResult(0, w.1) else ReconcileResult(RequeueAfter(spec, env.parseDuration), None), w.0)
  }

  /** The recommendations of every workload group of the pods, in the order the groups are visited. */
  function PassRecommendations(s: Snapshot, spec: PodRightSizingSpec, pods: seq<Pod>, env: Environment): seq<PodRecommendation>
  {
    Collected(spec, FirstSeen(PodKeys(pods, s.replicaSetOwners)), pods, s.replicaSetOwners, env)
  }

  /**
   * From the Recommending phase on, for a non-empty set of target pods
   * whose groups yield the recommendations all; computing them needs
   * nothing the status writes change.
   */
  function RecommendOutcome(s: Snapshot, st: ServerState, spec: PodRightSizingSpec, status: Status,
                            all: seq<PodRecommendation>, now: int, env: Environment): (ReconcileResult, ServerState)
  {
    var recommending := WithPhase(status, Recommending, GeneratingRecommendations);
    var w := WriteStatus(s, st, recommending);
    if w.1.Some? then (ReconcileResult(0, w.1), w.0)
    else
      var analysed := recommending.(recommendations := all, lastAnalysisTime := Some(now));
      var message := CompletionMessage(|all|, spec.dryRun);
      if spec.dryRun then Conclude(s, w.0, spec, analysed, message, env)
      else
        var updating := WithPhase(analysed, Updating, ApplyingRecommendations);
        var wu := WriteStatus(s, w.0, updating);
        if wu.1.Some? then (ReconcileResult(0, wu.1), wu.0)
        else ApplyAndConclude(s, ApplyAllOutcome(s, wu.0, spec, all, FirstSeen(RecKeys(all))), spec, updating, message, now, env)
  }

  /** Once the recommendations are applied: conclude with the count, unless it overflows int32. */
  function ApplyAndConclude(s: Snapshot, applied: (int, ServerState), spec: PodRightSizingSpec,
                            updating: Status, message: string, now: int, env: Environment): (ReconcileResult, ServerState)
  {
    if applied.0 > MaxInt32 then (ReconcileResult(0, Some(TooManyUpdatedPods(applied.0))), applied.1)
    else Conclude(s, applied.1, spec, updating.(updatedPods := applied.0, lastUpdateTime := Some(now)), message, env)
  }

  /** One analysis pass, from the Analyzing phase on. */
  function PassOutcome(s: Snapshot, st: ServerState, prs: PodRightSizing, now: int, env: Environment)
    : (ReconcileResult, ServerState)
  {
    var analyzing := WithPhase(prs.status, Analyzing, StartingAnalysis);
    var w := WriteStatus(s, st, analyzing);
    if w.1.Some? then (ReconcileResult(0, w.1), w.0)
    else
      match Discovery(prs.spec.target, s, env.parseSelector)
      case Err(e) =>
        (ReconcileResult(DiscoveryRetry, Some(e)), WriteStatus(s, w.0, WithPhase(analyzing, Error, DiscoverFailed + e)).0)
      case Ok(pods) =>
        if |pods| > MaxInt32 then (ReconcileResult(0, Some(TooManyTargetPods(|pods|))), w.0)
        else
          var counted := analyzing.(targetedPods := |pods|);
          if |pods| == 0 then Conclude(s, w.0, prs.spec, counted, NoMatchingPods, env)
          else RecommendOutcome(s, w.0, prs.spec, counted, PassRecommendations(s, prs.spec, pods, env), now, env)
  }

  /** A reconcile request: a missing object is ignored, a failed Get returned, a pass run when one is due. */
  function ReconcileOutcome(s: Snapshot, st: ServerState, fetched: Fetched, now: int, env: Environment)
    : (ReconcileResult, ServerState)
  {
    match fetched
    case NotFound => (ReconcileResult(0, None), st)
    case GetFailed(e) => (ReconcileResult(0, Some(e)), st)
    case Found(prs) =>
      if !ShouldRunAnalysis(prs, now, env.parseDuration) then
        (ReconcileResult(RequeueAfter(prs.spec, env.parseDuration), None), st)
      else PassOutcome(s, st, prs, now, env)
  }

  method Reconcile(api: ApiServer, fetched: Fetched, now: int, env: Environment) returns (result: ReconcileResult)
    modifies api
    ensures (result, api.State()) == ReconcileOutcome(api.snapshot, old(api.State()), fetched, now, env)
  {
    match fetched {
      case NotFound =>
        return ReconcileResult(0, None);
      case GetFailed(e) =>
        return ReconcileResult(0, Some(e));
      case Found(prs) =>
        if !ShouldRunAnalysis(prs, now, env.parseDuration) {
          return ReconcileResult(RequeueAfter(prs.spec, env.parseDuration), None);
        }
        result := RunAnalysis(api, prs, now, env);
    }
  }

  method RunAnalysis(api: ApiServer, prs: PodRightSizing, now: int, env: Environment) returns (result: ReconcileResult)
    modifies api
    ensures (result, api.State()) == PassOutcome(api.snapshot, old(api.State()), prs, now, env)
  {
    var status, err := UpdatePhase(api, prs.status, Analyzing, StartingAnalysis);
    if err.Some? {
      return ReconcileResult(0, err);
    }
    var discovered := DiscoverTargetPods(prs.spec.target, api.snapshot, env.parseSelector);
    if discovered.Err? {
      // A failure to record the Error phase is only logged.
      var _, _ := UpdatePhase(api, status, Error, DiscoverFailed + discovered.error);
      return ReconcileResult(DiscoveryRetry, Some(discovered.error));
    }
    var pods := discovered.value;
    if |pods| > MaxInt32 {
      return ReconcileResult(0, Some(TooManyTargetPods(|pods|)));
    }
    status := status.(targetedPods := |pods|);
    if |pods| == 0 {
      status, err := UpdatePhase(api, status, Completed, NoMatchingPods);
      if err.Some? {
        return ReconcileResult(0, err);
      }
      return ReconcileResult(RequeueAfter(prs.spec, env.parseDuration), None);
    }
    result := RecommendAndApply(api, prs.spec, status, pods, now, env);
  }

  method RecommendAndApply(api: ApiServer, spec: PodRightSizingSpec, status: Status, pods: seq<Pod>, now: int,
                           env: Environment) returns (result: ReconcileResult)
    modifies api
    ensures (result, api.State())
      == RecommendOutcome(api.snapshot, old(api.State()), spec, status, PassRecommendations(api.snapshot, spec, pods, env), now, env)
  {
    var replicaSets := api.snapshot.replicaSetOwners;
    var groups, order := GroupPodsByWorkload(pods, replicaSets);
    var current, err := UpdatePhase(api, status, Recommending, GeneratingRecommendations);
    if err.Some? {
      return ReconcileResult(0, err);
    }
    var all := CollectRecommendations(spec, groups, order, pods, replicaSets, env);
    current := current.(recommendations := all, lastAnalysisTime := Some(now));
    if !spec.dryRun {
      current, err := UpdatePhase(api, current, Updating, ApplyingRecommendations);
      if err.Some? {
        return ReconcileResult(0, err);
      }
      var updatedCount := ApplyRecommendations(api, spec, all);
      if updatedCount > MaxInt32 {
        return ReconcileResult(0, Some(TooManyUpdatedPods(updatedCount)));
      }
      current := current.(updatedPods := updatedCount, lastUpdateTime := Some(now));
    }
    current, err := UpdatePhase(api, current, Completed, CompletionMessage(|all|, spec.dryRun));
    if err.Some? {
      return ReconcileResult(0, err);
    }
    result := ReconcileResult(RequeueAfter(spec, env.parseDuration), None);
  }

  // ---------------------------------------------------------------
  // What a pass does, as seen in its effects
  // ---------------------------------------------------------------

  /** The phases of the status writes among the effects, in order. */
  function Phases(effects: seq<Effect>): seq<Phase>
    decreases |effects|
  {
    if effects == [] then []
    else
      var last := effects[|effects| - 1];
      Phases(effects[..|effects| - 1])
        + (if last.StatusWrite? && last.status.phase.Some? then [last.status.phase.value] else [])
  }

  /** How many workload updates the effects hold. */
  function UpdateCount(effects: seq<Effect>): nat
    decreases |effects|
  {
    if effects == [] then 0
    else UpdateCount(effects[..|effects| - 1]) + (if effects[|effects| - 1].WorkloadUpdate? then 1 else 0)
  }

  lemma {:induction false} CountsAppend(a: seq<Effect>, b: seq<Effect>)
    ensures Phases(a + b) == Phases(a) + Phases(b)
    ensures UpdateCount(a + b) == UpdateCount(a) + UpdateCount(b)
    decreases |b|
  {
    if b == [] {
      assert a + b == a;
    } else {
      var init := b[..|b| - 1];
      CountsAppend(a, init);
      assert (a + b)[..|a + b| - 1] == a + init;
      assert (a + b)[|a + b| - 1] == b[|b| - 1];
    }
  }

  /** Effects that are all workload updates hold no phase, and count one update each. */
  lemma {:induction false} OnlyUpdates(effects: seq<Effect>)
    requires forall j :: 0 <= j < |effects| ==> effects[j].WorkloadUpdate?
    ensures Phases(effects) == [] && UpdateCount(effects) == |effects|
    decreases |effects|
  {
    if effects != [] {
      OnlyUpdates(effects[..|effects| - 1]);
    }
  }

  lemma {:induction false} WritePhase(status: Status)
    requires status.phase.Some?
    ensures Phases([StatusWrite(status)]) == [status.phase.value] && UpdateCount([StatusWrite(status)]) == 0
  {
    assert [StatusWrite(status)][..0] == [];
  }

  predicate IsPrefix<T(==)>(p: seq<T>, q: seq<T>)
  {
    |p| <= |q| && q[..|p|] == p
  }

  /** The phases a pass over a non-empty set of pods writes when nothing fails. */
  function PassSchedule(dryRun: bool): seq<Phase>
  {
    if dryRun then [Analyzing, Recommending, Completed] else [Analyzing, Recommending, Updating, Completed]
  }

  /** The status a successful pass over target pods ends with, from the status the pass started from. */
  predicate FinalStatus(final: Status, start: Status, spec: PodRightSizingSpec, all: seq<PodRecommendation>, now: int,
                        updates: nat)
  {
    && final.phase == Some(Completed)
    && final.message == CompletionMessage(|all|, spec.dryRun)
    && final.recommendations == all
    && final.lastAnalysisTime == Some(now)
    && final.targetedPods == start.targetedPods
    && final.conditions == start.conditions
    && (spec.dryRun ==> final.updatedPods == start.updatedPods && final.lastUpdateTime == start.lastUpdateTime)
    && (!spec.dryRun ==> final.updatedPods == updates && final.lastUpdateTime == Some(now))
  }

  /** The effects a step added to the state, when it only appended. */
  function Added(st: ServerState, after: ServerState): seq<Effect>
  {
    if |st.effects| <= |after.effects| then after.effects[|st.effects|..] else []
  }

  predicate Extends(st: ServerState, after: ServerState)
  {
    |st.effects| <= |after.effects| && after.effects[..|st.effects|] == st.effects
  }

  lemma {:induction false} AddedConcat(st: ServerState, after: ServerState, added: seq<Effect>)
    requires after.effects == st.effects + added
    ensures Extends(st, after) && Added(st, after) == added
  {
    assert after.effects[..|st.effects|] == st.effects;
    assert after.effects[|st.effects|..] == added;
  }

  /** The closing write: a Completed status, and the requeue when it is accepted. */
  lemma {:induction false} ConcludeMeaning(s: Snapshot, st: ServerState, spec: PodRightSizingSpec, status: Status, message: string,
                        env: Environment)
    ensures var r := Conclude(s, st, spec, status, message, env);
      && r.1.workloads == st.workloads
      && r.1.effects == st.effects + (if r.0.error.None? then [StatusWrite(WithPhase(status, Completed, message))] else [])
      && (r.0.error.None? <==> st.statusAttempts !in s.statusRejections)
      && (r.0.error.None? ==> r.0.requeueAfter == RequeueAfter(spec, env.parseDuration))
  {
  }

  /** A dry run from the Recommending phase on: two writes, and the workloads untouched. */
  lemma {:induction false} RecommendDryRun(s: Snapshot, st: ServerState, spec: PodRightSizingSpec, status: Status, all: seq<PodRecommendation>,
                        now: int, env: Environment)
    requires spec.dryRun
    ensures var r := RecommendOutcome(s, st, spec, status, all, now, env);
      var added := Added(st, r.1);
      && Extends(st, r.1)
      && r.1.workloads == st.workloads && UpdateCount(added) == 0
      && IsPrefix(Phases(added), [Recommending, Completed])
      && (r.0.error.None? ==>
            && r.0.requeueAfter == RequeueAfter(spec, env.parseDuration)
            && Phases(added) == [Recommending, Completed]
            && |added| > 0 && added[|added| - 1].StatusWrite?
            && FinalStatus(added[|added| - 1].status, status, spec, all, now, UpdateCount(added)))
  {
    var r := RecommendOutcome(s, st, spec, status, all, now, env);
    var recommending := WithPhase(status, Recommending, GeneratingRecommendations);
    var w := WriteStatus(s, st, recommending);
    if w.1.Some? {
      assert r == (ReconcileResult(0, w.1), w.0);
      AddedConcat(st, r.1, []);
    } else {
      var analysed := recommending.(recommendations := all, lastAnalysisTime := Some(now));
      assert r == Conclude(s, w.0, spec, analysed, CompletionMessage(|all|, spec.dryRun), env);
      DryRunConcluded(s, st, spec, status, all, now, env, r);
    }
  }

  /** The dry run once its Recommending write is accepted: the closing write follows. */
  lemma {:induction false} DryRunConcluded(s: Snapshot, st: ServerState, spec: PodRightSizingSpec, status: Status,
                        all: seq<PodRecommendation>, now: int, env: Environment, r: (ReconcileResult, ServerState))
    requires spec.dryRun
    requires var recommending := WithPhase(status, Recommending, GeneratingRecommendations);
      var w := WriteStatus(s, st, recommending);
      && w.1.None?
      && r == Conclude(s, w.0, spec, recommending.(recommendations := all, lastAnalysisTime := Some(now)),
                       CompletionMessage(|all|, spec.dryRun), env)
    ensures var added := Added(st, r.1);
      && Extends(st, r.1)
      && r.1.workloads == st.workloads && UpdateCount(added) == 0
      && IsPrefix(Phases(added), [Recommending, Completed])
      && (r.0.error.None? ==>
            && r.0.requeueAfter == RequeueAfter(spec, env.parseDuration)
            && Phases(added) == [Recommending, Completed]
            && |added| > 0 && added[|added| - 1].StatusWrite?
            && FinalStatus(added[|added| - 1].status, status, spec, all, now, UpdateCount(added)))
  {
    var recommending := WithPhase(status, Recommending, GeneratingRecommendations);
    var w := WriteStatus(s, st, recommending);
    WritePhase(recommending);
    var analysed := recommending.(recommendations := all, lastAnalysisTime := Some(now));
    var message := CompletionMessage(|all|, spec.dryRun);
    ConcludeMeaning(s, w.0, spec, analysed, message, env);
    var final := WithPhase(analysed, Completed, message);
    WritePhase(final);
    if r.0.error.None? {
      AddedConcat(st, r.1, [StatusWrite(recommending), StatusWrite(final)]);
      CountsAppend([StatusWrite(recommending)], [StatusWrite(final)]);
      assert [StatusWrite(recommending)] + [StatusWrite(final)] == [StatusWrite(recommending), StatusWrite(final)];
    } else {
      AddedConcat(st, r.1, [StatusWrite(recommending)]);
    }
  }

  lemma {:induction false} AddedChain(a: ServerState, b: ServerState, c: ServerState)
    requires Extends(a, b) && Extends(b, c)
    ensures Extends(a, c) && Added(a, c) == Added(a, b) + Added(b, c)
    ensures Phases(Added(a, c)) == Phases(Added(a, b)) + Phases(Added(b, c))
    ensures UpdateCount(Added(a, c)) == UpdateCount(Added(a, b)) + UpdateCount(Added(b, c))
    ensures |Added(b, c)| > 0 ==> |Added(a, c)| > 0 && Added(a, c)[|Added(a, c)| - 1] == Added(b, c)[|Added(b, c)| - 1]
  {
    assert c.effects[..|a.effects|] == c.effects[..|b.effects|][..|a.effects|];
    assert c.effects == b.effects + Added(b, c);
    assert b.effects == a.effects + Added(a, b);
    AddedConcat(a, c, Added(a, b) + Added(b, c));
    CountsAppend(Added(a, b), Added(b, c));
  }

  /** Applying alone: workload updates only, each from a recommendation, and none under the manual strategy. */
  lemma {:induction false} AppliedUpdates(s: Snapshot, st: ServerState, spec: PodRightSizingSpec, all: seq<PodRecommendation>)
    ensures var applied := ApplyAllOutcome(s, st, spec, all, FirstSeen(RecKeys(all)));
      var u := Added(st, applied.1);
      && Extends(st, applied.1)
      && applied.1.statusAttempts == st.statusAttempts
      && (forall e :: e in u ==> e.WorkloadUpdate? && FromRecommendation(e, all))
      && Phases(u) == [] && UpdateCount(u) == applied.0
      && (StrategyName(spec.updatePolicy.strategy) == ManualStrategy ==> applied.1 == st && u == [])
  {
    var order := FirstSeen(RecKeys(all));
    var applied := ApplyAllOutcome(s, st, spec, all, order);
    ApplyAllMeaning(s, st, spec, all, order);
    UpdatesFromRecommendations(st, applied.1, all);
    if StrategyName(spec.updatePolicy.strategy) == ManualStrategy {
      ManualAppliesNothing(s, st, spec, all, order);
    }
  }

  /** Effects appended after a state, each a workload update from a recommendation, are updates only. */
  lemma {:induction false} UpdatesFromRecommendations(st: ServerState, after: ServerState, all: seq<PodRecommendation>)
    requires |st.effects| <= |after.effects| && after.effects[..|st.effects|] == st.effects
    requires forall j :: |st.effects| <= j < |after.effects| ==> FromRecommendation(after.effects[j], all)
    ensures var u := Added(st, after);
      && Extends(st, after)
      && (forall e :: e in u ==> e.WorkloadUpdate? && FromRecommendation(e, all))
      && Phases(u) == [] && UpdateCount(u) == |after.effects| - |st.effects|
  {
    var u := Added(st, after);
    AddedConcat(st, after, after.effects[|st.effects|..]);
    forall j | 0 <= j < |u|
      ensures u[j].WorkloadUpdate? && FromRecommendation(u[j], all)
    {
      assert u[j] == after.effects[|st.effects| + j];
    }
    OnlyUpdates(u);
  }

  /** The closing step after applying: at most the Completed write, whose status counts the updates made. */
  lemma {:induction false} ApplyAndConcludeMeaning(s: Snapshot, applied: (int, ServerState), spec: PodRightSizingSpec,
                                updating: Status, message: string, now: int, env: Environment)
    requires applied.0 >= 0
    ensures var r := ApplyAndConclude(s, applied, spec, updating, message, now, env);
      var added := Added(applied.1, r.1);
      && Extends(applied.1, r.1) && r.1.workloads == applied.1.workloads && UpdateCount(added) == 0
      && Phases(added) == (if r.0.error.None? then [Completed] else [])
      && (r.0.error.None? ==>
            && r.0.requeueAfter == RequeueAfter(spec, env.parseDuration)
            && added == [StatusWrite(WithPhase(updating.(updatedPods := applied.0, lastUpdateTime := Some(now)), Completed, message))]
            && Phases(added) == [Completed])
  {
    var r := ApplyAndConclude(s, applied, spec, updating, message, now, env);
    if applied.0 > MaxInt32 {
      AddedConcat(applied.1, r.1, []);
    } else {
      var closing := updating.(updatedPods := applied.0, lastUpdateTime := Some(now));
      ConcludeMeaning(s, applied.1, spec, closing, message, env);
      var final := WithPhase(closing, Completed, message);
      WritePhase(final);
      if r.0.error.None? {
        AddedConcat(applied.1, r.1, [StatusWrite(final)]);
      } else {
        AddedConcat(applied.1, r.1, []);
      }
    }
  }

  /** The Recommending and Updating writes, both accepted. */
  lemma {:induction false} RecordedTwice(s: Snapshot, st: ServerState, recommending: Status, updating: Status)
    requires recommending.phase == Some(Recommending) && updating.phase == Some(Updating)
    requires WriteStatus(s, st, recommending).1.None?
    requires WriteStatus(s, WriteStatus(s, st, recommending).0, updating).1.None?
    ensures var after := WriteStatus(s, WriteStatus(s, st, recommending).0, updating).0;
      && Extends(st, after) && after.workloads == st.workloads
      && Added(st, after) == [StatusWrite(recommending), StatusWrite(updating)]
      && Phases(Added(st, after)) == [Recommending, Updating] && UpdateCount(Added(st, after)) == 0
  {
    var after := WriteStatus(s, WriteStatus(s, st, recommending).0, updating).0;
    AddedConcat(st, after, [StatusWrite(recommending), StatusWrite(updating)]);
    WritePhase(recommending);
    WritePhase(updating);
    CountsAppend([StatusWrite(recommending)], [StatusWrite(updating)]);
    assert [StatusWrite(recommending)] + [StatusWrite(updating)] == [StatusWrite(recommending), StatusWrite(updating)];
  }

  /** A run that applies, from the Recommending phase on. */
  lemma {:induction false} RecommendApply(s: Snapshot, st: ServerState, spec: PodRightSizingSpec, status: Status, all: seq<PodRecommendation>,
                       now: int, env: Environment)
    requires !spec.dryRun
    ensures var r := RecommendOutcome(s, st, spec, status, all, now, env);
      var added := Added(st, r.1);
      && Extends(st, r.1)
      && IsPrefix(Phases(added), [Recommending, Updating, Completed])
      && (StrategyName(spec.updatePolicy.strategy) == ManualStrategy ==> r.1.workloads == st.workloads && UpdateCount(added) == 0)
      && (r.0.error.None? ==>
            && r.0.requeueAfter == RequeueAfter(spec, env.parseDuration)
            && Phases(added) == [Recommending, Updating, Completed]
            && |added| > 0 && added[|added| - 1].StatusWrite?
            && FinalStatus(added[|added| - 1].status, status, spec, all, now, UpdateCount(added)))
  {
    var r := RecommendOutcome(s, st, spec, status, all, now, env);
    var recommending := WithPhase(status, Recommending, GeneratingRecommendations);
    var w := WriteStatus(s, st, recommending);
    if w.1.Some? {
      AddedConcat(st, r.1, []);
    } else {
      var analysed := recommending.(recommendations := all, lastAnalysisTime := Some(now));
      var updating := WithPhase(analysed, Updating, ApplyingRecommendations);
      var wu := WriteStatus(s, w.0, updating);
      if wu.1.Some? {
        WritePhase(recommending);
        AddedConcat(st, r.1, [StatusWrite(recommending)]);
        assert [Recommending, Updating, Completed][..1] == [Recommending];
      } else {
        RecommendApplyRecorded(s, st, spec, status, all, now, env);
      }
    }
  }

  /** The same, once the Recommending and Updating writes are both accepted. */
  lemma {:induction false} RecommendApplyRecorded(s: Snapshot, st: ServerState, spec: PodRightSizingSpec, status: Status,
                               all: seq<PodRecommendation>, now: int, env: Environment)
    requires !spec.dryRun
    requires var recommending := WithPhase(status, Recommending, GeneratingRecommendations);
      var updating := WithPhase(recommending.(recommendations := all, lastAnalysisTime := Some(now)), Updating, ApplyingRecommendations);
      && WriteStatus(s, st, recommending).1.None?
      && WriteStatus(s, WriteStatus(s, st, recommending).0, updating).1.None?
    ensures var r := RecommendOutcome(s, st, spec, status, all, now, env);
      var added := Added(st, r.1);
      && Extends(st, r.1)
      && IsPrefix(Phases(added), [Recommending, Updating, Completed])
      && (StrategyName(spec.updatePolicy.strategy) == ManualStrategy ==> r.1.workloads == st.workloads && UpdateCount(added) == 0)
      && (r.0.error.None? ==>
            && r.0.requeueAfter == RequeueAfter(spec, env.parseDuration)
            && Phases(added) == [Recommending, Updating, Completed]
            && |added| > 0 && added[|added| - 1].StatusWrite?
            && FinalStatus(added[|added| - 1].status, status, spec, all, now, UpdateCount(added)))
  {
    var r := RecommendOutcome(s, st, spec, status, all, now, env);
    var recommending := WithPhase(status, Recommending, GeneratingRecommendations);
    var w := WriteStatus(s, st, recommending);
    var analysed := recommending.(recommendations := all, lastAnalysisTime := Some(now));
    var message := CompletionMessage(|all|, spec.dryRun);
    var updating := WithPhase(analysed, Updating, ApplyingRecommendations);
    var wu := WriteStatus(s, w.0, updating);
    RecordedTwice(s, st, recommending, updating);
    var applied := ApplyAllOutcome(s, wu.0, spec, all, FirstSeen(RecKeys(all)));
    assert r == ApplyAndConclude(s, applied, spec, updating, message, now, env);
    AppliedUpdates(s, wu.0, spec, all);
    ApplyAndConcludeMeaning(s, applied, spec, updating, message, now, env);
    var final := WithPhase(updating.(updatedPods := applied.0, lastUpdateTime := Some(now)), Completed, message);
    AppliedTail(st, wu.0, applied.1, r.1, r.0.error.None?, final, StrategyName(spec.updatePolicy.strategy) == ManualStrategy);
  }

  /**
   * The phases and updates of an applying run, from its segments: the two
   * recorded writes, the updates, and the closing write when accepted.
   */
  lemma {:induction false} AppliedTail(st: ServerState, mid: ServerState, applied: ServerState, after: ServerState, closed: bool,
                    final: Status, manual: bool)
    requires Extends(st, mid) && mid.workloads == st.workloads
    requires Phases(Added(st, mid)) == [Recommending, Updating] && UpdateCount(Added(st, mid)) == 0
    requires Extends(mid, applied) && Phases(Added(mid, applied)) == []
    requires manual ==> applied == mid
    requires Extends(applied, after) && after.workloads == applied.workloads && UpdateCount(Added(applied, after)) == 0
    requires Phases(Added(applied, after)) == (if closed then [Completed] else [])
    requires closed ==> Added(applied, after) == [StatusWrite(final)]
    ensures var added := Added(st, after);
      && Extends(st, after)
      && IsPrefix(Phases(added), [Recommending, Updating, Completed])
      && UpdateCount(added) == UpdateCount(Added(mid, applied))
      && (manual ==> after.workloads == st.workloads && UpdateCount(added) == 0)
      && (closed ==>
            && Phases(added) == [Recommending, Updating, Completed]
            && |added| > 0 && added[|added| - 1] == StatusWrite(final))
  {
    AddedChain(st, mid, applied);
    assert Phases(Added(st, applied)) == [Recommending, Updating] + [];
    AddedChain(st, applied, after);
    if manual {
      AddedConcat(mid, applied, []);
    }
    UpdatingTail(Phases(Added(st, after)), closed);
  }

  /** The phases after Recommending and Updating: a prefix of the schedule, all of it once the pass closes. */
  lemma {:induction false} UpdatingTail(phases: seq<Phase>, closed: bool)
    requires phases == [Recommending, Updating] + (if closed then [Completed] else [])
    ensures IsPrefix(phases, [Recommending, Updating, Completed])
    ensures closed ==> phases == [Recommending, Updating, Completed]
  {
    if !closed {
      assert [Recommending, Updating, Completed][..2] == [Recommending, Updating];
    }
  }

  lemma {:induction false} PrefixCons<T>(x: T, p: seq<T>, q: seq<T>)
    requires IsPrefix(p, q)
    ensures IsPrefix([x] + p, [x] + q)
  {
    assert ([x] + q)[..|[x] + p|] == [x] + q[..|p|];
  }

  lemma {:induction false} PrefixMembers<T>(p: seq<T>, q: seq<T>)
    requires IsPrefix(p, q)
    ensures forall x :: x in p ==> x in q
  {
    forall x | x in p
      ensures x in q
    {
      var j :| 0 <= j < |p| && p[j] == x;
      assert q[j] == x;
    }
  }

  /** From the Recommending phase on, a failure requeues nothing. */
  lemma {:induction false} RecommendErrorRequeue(s: Snapshot, st: ServerState, spec: PodRightSizingSpec, status: Status,
                              all: seq<PodRecommendation>, now: int, env: Environment)
    ensures var r := RecommendOutcome(s, st, spec, status, all, now, env);
      r.0.error.Some? ==> r.0.requeueAfter == 0
  {
    var recommending := WithPhase(status, Recommending, GeneratingRecommendations);
    var w := WriteStatus(s, st, recommending);
    if w.1.None? && !spec.dryRun {
      var updating := WithPhase(recommending.(recommendations := all, lastAnalysisTime := Some(now)), Updating, ApplyingRecommendations);
      var wu := WriteStatus(s, w.0, updating);
      if wu.1.None? {
        var applied := ApplyAllOutcome(s, wu.0, spec, all, FirstSeen(RecKeys(all)));
        assert RecommendOutcome(s, st, spec, status, all, now, env)
          == ApplyAndConclude(s, applied, spec, updating, CompletionMessage(|all|, spec.dryRun), now, env);
      }
    }
  }

  /** A failed discovery: the Error phase with the error text, and a retry after five minutes. */
  lemma {:induction false} PassDiscoveryFailed(s: Snapshot, st: ServerState, prs: PodRightSizing, now: int, env: Environment)
    requires WriteStatus(s, st, WithPhase(prs.status, Analyzing, StartingAnalysis)).1.None?
    requires Discovery(prs.spec.target, s, env.parseSelector).Err?
    ensures var r := PassOutcome(s, st, prs, now, env);
      var e := Discovery(prs.spec.target, s, env.parseSelector).error;
      var added := Added(st, r.1);
      && r.0 == ReconcileResult(DiscoveryRetry, Some(e))
      && Extends(st, r.1) && r.1.workloads == st.workloads && UpdateCount(added) == 0
      && Phases(added) == (if st.statusAttempts + 1 in s.statusRejections then [Analyzing] else [Analyzing, Error])
      && (st.statusAttempts + 1 !in s.statusRejections ==>
            added == [StatusWrite(WithPhase(prs.status, Analyzing, StartingAnalysis)),
                      StatusWrite(WithPhase(prs.status, Error, DiscoverFailed + e))])
  {
    var r := PassOutcome(s, st, prs, now, env);
    var analyzing := WithPhase(prs.status, Analyzing, StartingAnalysis);
    var e := Discovery(prs.spec.target, s, env.parseSelector).error;
    var failed := WithPhase(analyzing, Error, DiscoverFailed + e);
    WritePhase(analyzing);
    if st.statusAttempts + 1 in s.statusRejections {
      AddedConcat(st, r.1, [StatusWrite(analyzing)]);
    } else {
      WritePhase(failed);
      AddedConcat(st, r.1, [StatusWrite(analyzing), StatusWrite(failed)]);
      CountsAppend([StatusWrite(analyzing)], [StatusWrite(failed)]);
      assert [StatusWrite(analyzing)] + [StatusWrite(failed)] == [StatusWrite(analyzing), StatusWrite(failed)];
    }
  }

  /** No target pods: the Completed phase with "No matching pods found", and nothing applied. */
  lemma {:induction false} PassNoPods(s: Snapshot, st: ServerState, prs: PodRightSizing, now: int, env: Environment)
    requires WriteStatus(s, st, WithPhase(prs.status, Analyzing, StartingAnalysis)).1.None?
    requires Discovery(prs.spec.target, s, env.parseSelector) == Ok([])
    ensures var r := PassOutcome(s, st, prs, now, env);
      var added := Added(st, r.1);
      && Extends(st, r.1) && r.1.workloads == st.workloads && UpdateCount(added) == 0
      && IsPrefix(Phases(added), [Analyzing, Completed])
      && (r.0.error.None? <==> st.statusAttempts + 1 !in s.statusRejections)
      && (r.0.error.Some? ==> r.0.requeueAfter == 0)
      && (r.0.error.None? ==>
            && r.0.requeueAfter == RequeueAfter(prs.spec, env.parseDuration)
            && Phases(added) == [Analyzing, Completed]
            && added == [StatusWrite(WithPhase(prs.status, Analyzing, StartingAnalysis)),
                         StatusWrite(prs.status.(phase := Some(Completed), message := NoMatchingPods, targetedPods := 0))])
  {
    var r := PassOutcome(s, st, prs, now, env);
    var analyzing := WithPhase(prs.status, Analyzing, StartingAnalysis);
    var final := WithPhase(analyzing.(targetedPods := 0), Completed, NoMatchingPods);
    WritePhase(analyzing);
    if r.0.error.None? {
      WritePhase(final);
      AddedConcat(st, r.1, [StatusWrite(analyzing), StatusWrite(final)]);
      CountsAppend([StatusWrite(analyzing)], [StatusWrite(final)]);
      assert [StatusWrite(analyzing)] + [StatusWrite(final)] == [StatusWrite(analyzing), StatusWrite(final)];
    } else {
      AddedConcat(st, r.1, [StatusWrite(analyzing)]);
    }
  }

  /** The phases after Analyzing in the schedule of a pass. */
  function ScheduleAfterAnalyzing(dryRun: bool): (tail: seq<Phase>)
    ensures PassSchedule(dryRun) == [Analyzing] + tail
  {
    if dryRun then [Recommending, Completed] else [Recommending, Updating, Completed]
  }

  /** The effects of a pass whose Analyzing write was accepted, from those of what follows it. */
  lemma {:induction false} AnalyzedFirst(st: ServerState, mid: ServerState, after: ServerState, analyzing: Status, tail: seq<Phase>)
    requires analyzing.phase == Some(Analyzing)
    requires mid.workloads == st.workloads && mid.effects == st.effects + [StatusWrite(analyzing)]
    requires Extends(mid, after) && IsPrefix(Phases(Added(mid, after)), tail)
    ensures Extends(st, after)
    ensures Phases(Added(st, after)) == [Analyzing] + Phases(Added(mid, after))
    ensures IsPrefix(Phases(Added(st, after)), [Analyzing] + tail)
    ensures UpdateCount(Added(st, after)) == UpdateCount(Added(mid, after))
    ensures |Added(mid, after)| > 0 ==> |Added(st, after)| > 0 && Added(st, after)[|Added(st, after)| - 1] == Added(mid, after)[|Added(mid, after)| - 1]
  {
    WritePhase(analyzing);
    AddedConcat(st, mid, [StatusWrite(analyzing)]);
    AddedChain(st, mid, after);
    PrefixCons(Analyzing, Phases(Added(mid, after)), tail);
  }

  /**
   * Target pods found: the phases of the schedule, workloads untouched in
   * dry-run and under the manual strategy, and on success the final status
   * of the pass.
   */
  lemma {:induction false} PassTargets(s: Snapshot, st: ServerState, prs: PodRightSizing, now: int, env: Environment)
    requires WriteStatus(s, st, WithPhase(prs.status, Analyzing, StartingAnalysis)).1.None?
    requires Discovery(prs.spec.target, s, env.parseSelector).Ok?
    requires 0 < |Discovery(prs.spec.target, s, env.parseSelector).value| <= MaxInt32
    ensures var r := PassOutcome(s, st, prs, now, env);
      var pods := Discovery(prs.spec.target, s, env.parseSelector).value;
      var added := Added(st, r.1);
      && Extends(st, r.1)
      && IsPrefix(Phases(added), PassSchedule(prs.spec.dryRun))
      && (prs.spec.dryRun || StrategyName(prs.spec.updatePolicy.strategy) == ManualStrategy ==>
            r.1.workloads == st.workloads && UpdateCount(added) == 0)
      && (r.0.error.None? ==>
            && r.0.requeueAfter == RequeueAfter(prs.spec, env.parseDuration)
            && Phases(added) == PassSchedule(prs.spec.dryRun)
            && |added| > 0 && added[|added| - 1].StatusWrite?
            && FinalStatus(added[|added| - 1].status, prs.status.(targetedPods := |pods|), prs.spec,
                           PassRecommendations(s, prs.spec, pods, env), now, UpdateCount(added)))
  {
    var r := PassOutcome(s, st, prs, now, env);
    var pods := Discovery(prs.spec.target, s, env.parseSelector).value;
    var analyzing := WithPhase(prs.status, Analyzing, StartingAnalysis);
    var w := WriteStatus(s, st, analyzing);
    var counted := analyzing.(targetedPods := |pods|);
    var all := PassRecommendations(s, prs.spec, pods, env);
    assert r == RecommendOutcome(s, w.0, prs.spec, counted, all, now, env);
    var tail := ScheduleAfterAnalyzing(prs.spec.dryRun);
    if prs.spec.dryRun {
      RecommendDryRun(s, w.0, prs.spec, counted, all, now, env);
    } else {
      RecommendApply(s, w.0, prs.spec, counted, all, now, env);
    }
    AnalyzedFirst(st, w.0, r.1, analyzing, tail);
  }

  /**
   * One analysis pass: what it always keeps, and where each outcome comes
   * from. Only a failed discovery returns an error with a retry, and only it
   * writes the Error phase.
   */
  lemma {:induction false} PassMeaning(s: Snapshot, st: ServerState, prs: PodRightSizing, now: int, env: Environment)
    ensures var r := PassOutcome(s, st, prs, now, env);
      var added := Added(st, r.1);
      var discovered := Discovery(prs.spec.target, s, env.parseSelector);
      var started := st.statusAttempts !in s.statusRejections;
      && Extends(st, r.1)
      && (!started ==> r.0 == ReconcileResult(0, Some(s.statusRejections[st.statusAttempts])) && r.1.effects == st.effects)
      && (r.0.error.None? ==> r.0.requeueAfter == RequeueAfter(prs.spec, env.parseDuration))
      && (r.0.error.Some? ==> r.0.requeueAfter == (if started && discovered.Err? then DiscoveryRetry else 0))
      && (prs.spec.dryRun || StrategyName(prs.spec.updatePolicy.strategy) == ManualStrategy ==>
            r.1.workloads == st.workloads && UpdateCount(added) == 0)
      && (Error in Phases(added) ==> discovered.Err?)
      && (discovered.Err? ==> r.1.workloads == st.workloads && UpdateCount(added) == 0)
  {
    var r := PassOutcome(s, st, prs, now, env);
    var analyzing := WithPhase(prs.status, Analyzing, StartingAnalysis);
    var w := WriteStatus(s, st, analyzing);
    var discovered := Discovery(prs.spec.target, s, env.parseSelector);
    if w.1.Some? {
      AddedConcat(st, r.1, []);
    } else if discovered.Err? {
      PassDiscoveryFailed(s, st, prs, now, env);
    } else if |discovered.value| > MaxInt32 {
      WritePhase(analyzing);
      AddedConcat(st, r.1, [StatusWrite(analyzing)]);
    } else if |discovered.value| == 0 {
      PassNoPods(s, st, prs, now, env);
      PrefixMembers(Phases(Added(st, r.1)), [Analyzing, Completed]);
    } else {
      PassTargets(s, st, prs, now, env);
      PrefixMembers(Phases(Added(st, r.1)), PassSchedule(prs.spec.dryRun));
      var counted := analyzing.(targetedPods := |discovered.value|);
      RecommendErrorRequeue(s, w.0, prs.spec, counted, PassRecommendations(s, prs.spec, discovered.value, env), now, env);
    }
  }

  /**
   * A reconcile request: nothing changes unless the object is found and a
   * pass is due, and a request that succeeds requeues after the interval
   * of the object, or not at all when it is gone.
   */
  lemma {:induction false} ReconcileMeaning(s: Snapshot, st: ServerState, fetched: Fetched, now: int, env: Environment)
    ensures var r := ReconcileOutcome(s, st, fetched, now, env);
      && Extends(st, r.1)
      && (!(fetched.Found? && ShouldRunAnalysis(fetched.prs, now, env.parseDuration)) ==> r.1 == st)
      && (fetched.GetFailed? ==> r.0.error == Some(fetched.error))
      && (r.0.error.None? ==> r.0.requeueAfter == (if fetched.Found? then RequeueAfter(fetched.prs.spec, env.parseDuration) else 0))
  {
    var r := ReconcileOutcome(s, st, fetched, now, env);
    if fetched.Found? && ShouldRunAnalysis(fetched.prs, now, env.parseDuration) {
      PassMeaning(s, st, fetched.prs, now, env);
    } else {
      AddedConcat(st, r.1, []);
    }
  }
}
