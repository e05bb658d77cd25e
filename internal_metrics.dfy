/**
 * The metrics client under internal/metrics (prometheus_client.go). Its
 * quantity parser and workload selector are textually the ones of
 * pkg/metrics and are shared from PromMetrics; what is its own is the
 * pod-name ownership heuristic of its Metrics Server client.
 */
module InternalMetrics {
  import opened Common

  /**
   * Whether a pod belongs to a workload, judged by name alone: a Deployment
   * owns every longer name that starts with its own; a StatefulSet owns
   * every longer name that starts with its own and a dash; no other kind
   * owns anything.
   */
  function PodBelongsToWorkload(podName: string, workloadName: string, workloadType: string): bool
  {
    match workloadType
    case "Deployment" => |podName| > |workloadName| && podName[..|workloadName|] == workloadName
    case "StatefulSet" => |podName| > |workloadName| + 1 && podName[..|workloadName| + 1] == workloadName + "-"
    case _ => false
  }

  /** For a Deployment: the pod name strictly extends the workload name. */
  lemma {:induction false} DeploymentMembership(podName: string, workloadName: string)
    ensures PodBelongsToWorkload(podName, workloadName, "Deployment") <==>
      exists rest :: rest != "" && podName == workloadName + rest
  {
    if PodBelongsToWorkload(podName, workloadName, "Deployment") {
      var rest := podName[|workloadName|..];
      assert podName == workloadName + rest;
    }
    if exists rest :: rest != "" && podName == workloadName + rest {
      var rest :| rest != "" && podName == workloadName + rest;
      assert podName[..|workloadName|] == workloadName;
    }
  }

  /** For a StatefulSet: the pod name is the workload name, a dash and something more. */
  lemma {:induction false} StatefulSetMembership(podName: string, workloadName: string)
    ensures PodBelongsToWorkload(podName, workloadName, "StatefulSet") <==>
      exists rest :: rest != "" && podName == workloadName + "-" + rest
  {
    var head := workloadName + "-";
    if PodBelongsToWorkload(podName, workloadName, "StatefulSet") {
      var rest := podName[|head|..];
      assert podName == head + rest;
    }
    if exists rest :: rest != "" && podName == workloadName + "-" + rest {
      var rest :| rest != "" && podName == workloadName + "-" + rest;
      assert podName == head + rest;
      assert podName[..|head|] == head;
    }
  }

  /** Every other workload kind owns no pod. */
  lemma {:induction false} OtherKindsOwnNothing(podName: string, workloadName: string, workloadType: string)
    requires workloadType != "Deployment" && workloadType != "StatefulSet"
    ensures !PodBelongsToWorkload(podName, workloadName, workloadType)
  {
  }

  /** The ordinal pods workload-0, workload-1, ... belong to their StatefulSet. */
  lemma {:induction false} OrdinalPodsBelong(workloadName: string, ordinal: nat)
    ensures PodBelongsToWorkload(workloadName + "-" + NatToString(ordinal), workloadName, "StatefulSet")
  {
    StatefulSetMembership(workloadName + "-" + NatToString(ordinal), workloadName);
  }

  /** A StatefulSet's pods would also be claimed by a Deployment of the same name. */
  lemma {:induction false} StatefulSetImpliesDeployment(podName: string, workloadName: string)
    requires PodBelongsToWorkload(podName, workloadName, "StatefulSet")
    ensures PodBelongsToWorkload(podName, workloadName, "Deployment")
  {
    assert podName[..|workloadName|] == podName[..|workloadName| + 1][..|workloadName|];
  }

  /** No separator is required: a Deployment claims the pods of a longer-named neighbour. */
  lemma {:induction false} DeploymentClaimsNeighbour()
    ensures PodBelongsToWorkload("webapp-1", "web", "Deployment")
    ensures !PodBelongsToWorkload("webapp-1", "web", "StatefulSet")
  {
    assert "webapp-1"[..3] == "web";
    assert "webapp-1"[..4] != "web-" by {
      assert "webapp-1"[..4][3] == 'a';
    }
  }

  /** The workload's own name is never one of its pods. */
  lemma {:induction false} NameItselfNotOwned(workloadName: string, workloadType: string)
    ensures !PodBelongsToWorkload(workloadName, workloadName, workloadType)
  {
  }
}
