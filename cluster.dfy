/**
 * The slice of the Kubernetes API the reconciler talks to: pods with their
 * owners and containers, namespaces, ReplicaSet ownership, the pod
 * templates of Deployments, StatefulSets and DaemonSets, and the status
 * sub-resource of the PodRightSizing object.
 *
 * What the cluster holds when a pass starts is a Snapshot. The ApiServer
 * object is the part a pass changes: the stored workload templates and the
 * status writes it accepted. Which writes the server rejects is part of
 * the snapshot, so every error path of a pass can be chosen.
 */
module Cluster {
  import opened Common
  import opened Types

  datatype OwnerReference = OwnerReference(kind: string, name: string)

  datatype Container = Container(name: string, resources: ResourceRequirements)

  datatype Pod = Pod(
    name: string,
    namespace: string,
    labels: map<string, string>,
    phase: string,
    ownerReferences: seq<OwnerReference>,
    containers: seq<Container>)

  const PodRunning := "Running"

  datatype Namespace = Namespace(name: string, labels: map<string, string>)

  /** A Deployment, StatefulSet or DaemonSet by kind, namespace and name. */
  datatype WorkloadRef = WorkloadRef(kind: string, namespace: string, name: string)

  /** A compiled label selector: whether a label set matches. */
  type Matcher = map<string, string> -> bool

  /** metav1.LabelSelectorAsSelector, supplied by the caller: the matcher, or the error text. */
  type SelectorParser = LabelSelector -> Result<Matcher, string>

  /** labels.Everything(). */
  const Everything: Matcher := (labels: map<string, string>) => true

  datatype Snapshot = Snapshot(
    pods: seq<Pod>,
    namespaces: seq<Namespace>,
    /** The error of listing namespaces, if that call fails. */
    namespaceListError: Option<string>,
    /** The error of listing pods in a namespace ("" is every namespace), if that call fails. */
    podListErrors: map<string, string>,
    /** The owner references of each ReplicaSet, by namespace and name; a missing one fails to load. */
    replicaSetOwners: map<(string, string), seq<OwnerReference>>,
    /** The pod-template containers of each workload; a missing one fails to load. */
    workloads: map<WorkloadRef, seq<Container>>,
    /** The status writes the server rejects, by their position among all attempts, with the error. */
    statusRejections: map<nat, string>,
    /** The workloads whose update the server rejects, with the error. */
    updateRejections: map<WorkloadRef, string>)

  /** The items that satisfy a predicate, in order. */
  function Filter<T(!new)>(s: seq<T>, keep: T -> bool): (r: seq<T>)
    ensures |r| <= |s|
    decreases |s|
  {
    if s == [] then []
    else
      var init := s[..|s| - 1];
      assert s == init + [s[|s| - 1]];
      Filter(init, keep) + (if keep(s[|s| - 1]) then [s[|s| - 1]] else [])
  }

  /** Filtering distributes over concatenation. */
  lemma {:induction false} FilterAppend<T(!new)>(a: seq<T>, b: seq<T>, keep: T -> bool)
    ensures Filter(a + b, keep) == Filter(a, keep) + Filter(b, keep)
    decreases |b|
  {
    if b == [] {
      assert a + b == a;
    } else {
      var init, last := b[..|b| - 1], b[|b| - 1];
      var tail := if keep(last) then [last] else [];
      FilterAppend(a, init, keep);
      assert (a + b)[..|a + b| - 1] == a + init;
      FilterLast(a + b, keep);
      FilterLast(b, keep);
      calc {
        Filter(a + b, keep);
        Filter(a + init, keep) + tail;
        (Filter(a, keep) + Filter(init, keep)) + tail;
        Filter(a, keep) + (Filter(init, keep) + tail);
        Filter(a, keep) + Filter(b, keep);
      }
    }
  }

  /** The filtered items are exactly the items that satisfy the predicate. */
  lemma {:induction false} FilterMembers<T(!new)>(s: seq<T>, keep: T -> bool)
    ensures forall x :: x in Filter(s, keep) <==> x in s && keep(x)
    decreases |s|
  {
    if s != [] {
      var init := s[..|s| - 1];
      FilterMembers(init, keep);
      FilterLast(s, keep);
      assert s == init + [s[|s| - 1]];
    }
  }

  lemma {:induction false} FilterLast<T(!new)>(s: seq<T>, keep: T -> bool)
    requires s != []
    ensures Filter(s, keep) == Filter(s[..|s| - 1], keep) + (if keep(s[|s| - 1]) then [s[|s| - 1]] else [])
  {
  }

  /** Whether a pod is one a List call in the namespace ("" for all) with this selector returns. */
  predicate Listed(ns: string, selector: Matcher, p: Pod)
  {
    (ns == "" || p.namespace == ns) && selector(p.labels)
  }

  /** List of pods, optionally in one namespace, matching a selector. */
  function ListPods(s: Snapshot, ns: string, selector: Matcher): (r: Result<seq<Pod>, string>)
    ensures r.Err? <==> ns in s.podListErrors
    ensures r.Ok? ==> forall p :: p in r.value <==> p in s.pods && Listed(ns, selector, p)
  {
    if ns in s.podListErrors then Err(s.podListErrors[ns])
    else
      FilterMembers(s.pods, p => Listed(ns, selector, p));
      Ok(Filter(s.pods, p => Listed(ns, selector, p)))
  }

  function NamespaceNames(namespaces: seq<Namespace>): (names: seq<string>)
    ensures |names| == |namespaces|
    ensures forall i :: 0 <= i < |namespaces| ==> names[i] == namespaces[i].name
  {
    seq(|namespaces|, i requires 0 <= i < |namespaces| => namespaces[i].name)
  }

  /** List of namespaces matching a selector: their names, in order. */
  function ListNamespaces(s: Snapshot, selector: Matcher): (r: Result<seq<string>, string>)
    ensures r.Err? <==> s.namespaceListError.Some?
    ensures r.Ok? ==> forall n :: n in r.value <==>
      exists x :: x in s.namespaces && x.name == n && selector(x.labels)
  {
    match s.namespaceListError
    case Some(e) => Err(e)
    case None =>
      var matching := Filter(s.namespaces, (x: Namespace) => selector(x.labels));
      FilterMembers(s.namespaces, (x: Namespace) => selector(x.labels));
      NamesOf(matching);
      Ok(NamespaceNames(matching))
  }

  lemma {:induction false} NamesOf(namespaces: seq<Namespace>)
    ensures forall n :: n in NamespaceNames(namespaces) <==> exists x :: x in namespaces && x.name == n
  {
    var names := NamespaceNames(namespaces);
    forall n | n in names
      ensures exists x :: x in namespaces && x.name == n
    {
      var j :| 0 <= j < |names| && names[j] == n;
      assert namespaces[j] in namespaces;
    }
    forall n | exists x :: x in namespaces && x.name == n
      ensures n in names
    {
      var x :| x in namespaces && x.name == n;
      var j :| 0 <= j < |namespaces| && namespaces[j] == x;
      assert names[j] == n;
    }
  }

  /** Get of a namespace by name: the first one of that name, if any. */
  function GetNamespace(namespaces: seq<Namespace>, name: string): (r: Option<Namespace>)
    ensures r.Some? ==> r.value in namespaces && r.value.name == name
    ensures r.None? ==> forall i :: 0 <= i < |namespaces| ==> namespaces[i].name != name
    decreases |namespaces|
  {
    if namespaces == [] then None
    else if namespaces[0].name == name then Some(namespaces[0])
    else
      var rest := GetNamespace(namespaces[1..], name);
      assert forall i :: 1 <= i < |namespaces| ==> namespaces[i] == namespaces[1..][i - 1];
      rest
  }

  /** An accepted change to the cluster. */
  datatype Effect = StatusWrite(status: Status) | WorkloadUpdate(workload: WorkloadRef, containers: seq<Container>)

  /** What a pass can change, as a value: stored templates, accepted changes, status write attempts. */
  datatype ServerState = ServerState(workloads: map<WorkloadRef, seq<Container>>, effects: seq<Effect>, statusAttempts: nat)

  /** Status().Update on a state value: the next state and the rejection, if any. */
  function WriteStatus(s: Snapshot, st: ServerState, status: Status): (ServerState, Option<string>)
  {
    if st.statusAttempts in s.statusRejections then
      (st.(statusAttempts := st.statusAttempts + 1), Some(s.statusRejections[st.statusAttempts]))
    else
      (ServerState(st.workloads, st.effects + [StatusWrite(status)], st.statusAttempts + 1), None)
  }

  /** Update of a workload on a state value: the next state and the rejection, if any. */
  function WriteWorkload(s: Snapshot, st: ServerState, ref: WorkloadRef, containers: seq<Container>): (ServerState, Option<string>)
  {
    if ref in s.updateRejections then (st, Some(s.updateRejections[ref]))
    else (st.(workloads := st.workloads[ref := containers], effects := st.effects + [WorkloadUpdate(ref, containers)]), None)
  }

  /**
   * The API server during one pass: what it started from, and what the pass
   * has changed. Reads go to the snapshot, except that a workload is read
   * as currently stored.
   */
  class ApiServer {
    const snapshot: Snapshot
    /** The stored pod templates. */
    var workloads: map<WorkloadRef, seq<Container>>
    /** Every accepted change, in order. */
    var effects: seq<Effect>
    /** How many status writes have been attempted. */
    var statusAttempts: nat

    constructor (s: Snapshot)
      ensures snapshot == s && workloads == s.workloads && effects == [] && statusAttempts == 0
    {
      snapshot := s;
      workloads := s.workloads;
      effects := [];
      statusAttempts := 0;
    }

    function State(): ServerState
      reads this
    {
      ServerState(workloads, effects, statusAttempts)
    }

    /** Status().Update: accepted unless the snapshot rejects this attempt. */
    method UpdateStatus(status: Status) returns (err: Option<string>)
      modifies this
      ensures statusAttempts == old(statusAttempts) + 1
      ensures err == (if old(statusAttempts) in snapshot.statusRejections
                      then Some(snapshot.statusRejections[old(statusAttempts)]) else None)
      ensures effects == old(effects) + (if err.None? then [StatusWrite(status)] else [])
      ensures workloads == old(workloads)
      ensures (State(), err) == WriteStatus(snapshot, old(State()), status)
    {
      var attempt := statusAttempts;
      statusAttempts := statusAttempts + 1;
      if attempt in snapshot.statusRejections {
        return Some(snapshot.statusRejections[attempt]);
      }
      effects := effects + [StatusWrite(status)];
      return None;
    }

    /** Get of a workload: its stored containers, if it exists. */
    function GetWorkload(ref: WorkloadRef): Option<seq<Container>>
      reads this
    {
      if ref in workloads then Some(workloads[ref]) else None
    }

    /** Update of a workload: stores the containers unless the snapshot rejects it. */
    method UpdateWorkload(ref: WorkloadRef, containers: seq<Container>) returns (err: Option<string>)
      modifies this
      ensures err == (if ref in snapshot.updateRejections then Some(snapshot.updateRejections[ref]) else None)
      ensures workloads == (if err.None? then old(workloads)[ref := containers] else old(workloads))
      ensures effects == old(effects) + (if err.None? then [WorkloadUpdate(ref, containers)] else [])
      ensures statusAttempts == old(statusAttempts)
      ensures (State(), err) == WriteWorkload(snapshot, old(State()), ref, containers)
    {
      if ref in snapshot.updateRejections {
        return Some(snapshot.updateRejections[ref]);
      }
      workloads := workloads[ref := containers];
      effects := effects + [WorkloadUpdate(ref, containers)];
      return None;
    }
  }
}
