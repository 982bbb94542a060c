/** Which pods belong to which RemoteApp: the verifier's index, the reconciler's selector
    and the pod watch. */
module PodIndex {
  import opened Types
  import opened Sorting
  import opened Pods

  const LABEL_ROLE := "tunnelport.giantswarm.io/role"
  const LABEL_ROLE_VALUE := "tbot"
  const LABEL_REMOTE_APP := "tunnelport.giantswarm.io/remoteapp"

  type PodGroups = map<NamespacedName, seq<Pod>>

  /** A label's value; empty when the pod does not carry it. */
  function Label(p: Pod, name: string): string {
    if name in p.labels then p.labels[name] else ""
  }

  /** A selector matches a pod that carries the label with that value. */
  predicate Carries(p: Pod, name: string, value: string) {
    name in p.labels && p.labels[name] == value
  }

  predicate HasRole(p: Pod) { Carries(p, LABEL_ROLE, LABEL_ROLE_VALUE) }

  /** The reconciler's selector for one RemoteApp. */
  function Selects(k: NamespacedName): Pod -> bool {
    (p: Pod) => p.namespace == k.namespace && HasRole(p) && Carries(p, LABEL_REMOTE_APP, k.name)
  }

  function ListTbotPods(all: seq<Pod>, k: NamespacedName): seq<Pod> {
    Filter(Selects(k), all)
  }

  /** Where the pod watch routes an event. */
  function MapPodToRemoteApp(p: Pod): Option<NamespacedName> {
    if Label(p, LABEL_ROLE) != LABEL_ROLE_VALUE || Label(p, LABEL_REMOTE_APP) == "" then None
    else Some(NamespacedName(p.namespace, Label(p, LABEL_REMOTE_APP)))
  }

  function Bucket(groups: PodGroups, k: NamespacedName): seq<Pod> {
    if k in groups then groups[k] else []
  }

  function InGroup(k: NamespacedName): Pod -> bool {
    (p: Pod) => k.name != "" && p.namespace == k.namespace && Label(p, LABEL_REMOTE_APP) == k.name
  }

  ghost predicate Indexes(groups: PodGroups, pods: seq<Pod>) {
    forall k :: Bucket(groups, k) == Filter(InGroup(k), pods)
  }

  /** The groups with one more pod in its bucket. */
  function Grouped(groups: PodGroups, p: Pod): PodGroups {
    var name := Label(p, LABEL_REMOTE_APP);
    var key := NamespacedName(p.namespace, name);
    if name == "" then groups else groups[key := Bucket(groups, key) + [p]]
  }

  method GroupTunnelPods(pods: seq<Pod>) returns (out: PodGroups)
    ensures Indexes(out, pods)
  {
    out := map[];
    for i := 0 to |pods|
      invariant Indexes(out, pods[..i])
    {
      GroupOneMore(out, pods, i);
      var name := Label(pods[i], LABEL_REMOTE_APP);
      if name == "" {
        continue;
      }
      var key := NamespacedName(pods[i].namespace, name);
      out := out[key := Bucket(out, key) + [pods[i]]];
    }
    assert pods[..|pods|] == pods;
  }

  lemma GroupOneMore(groups: PodGroups, pods: seq<Pod>, i: nat)
    requires i < |pods| && Indexes(groups, pods[..i])
    ensures Indexes(Grouped(groups, pods[i]), pods[..i + 1])
  {
    forall k ensures Bucket(Grouped(groups, pods[i]), k) == Filter(InGroup(k), pods[..i + 1]) {
      BucketOneMore(groups, pods[i], k);
      assert Bucket(groups, k) == Filter(InGroup(k), pods[..i]);
      FilterOneMore(InGroup(k), pods, i);
    }
  }

  lemma BucketOneMore(groups: PodGroups, p: Pod, k: NamespacedName)
    ensures Bucket(Grouped(groups, p), k) == if InGroup(k)(p) then Bucket(groups, k) + [p] else Bucket(groups, k)
  {
  }

  lemma FilterOneMore(keep: Pod -> bool, pods: seq<Pod>, i: nat)
    requires i < |pods|
    ensures Filter(keep, pods[..i + 1]) ==
            if keep(pods[i]) then Filter(keep, pods[..i]) + [pods[i]] else Filter(keep, pods[..i])
  {
    assert pods[..i + 1] == pods[..i] + [pods[i]];
    FilterAppend(keep, pods[..i], [pods[i]]);
    FilterOne(keep, pods[i]);
  }

  /** The verifier's index over the role-selected pods is the reconciler's list, for every
      RemoteApp; the pod watch routes exactly those pods to it. */
  lemma IndexIsSelector(all: seq<Pod>, k: NamespacedName)
    requires k.name != ""
    ensures Filter(InGroup(k), Filter(HasRole, all)) == ListTbotPods(all, k)
    ensures forall p :: MapPodToRemoteApp(p) == Some(k) <==>
              && p.namespace == k.namespace
              && "tunnelport.giantswarm.io/role" in p.labels && p.labels["tunnelport.giantswarm.io/role"] == "tbot"
              && "tunnelport.giantswarm.io/remoteapp" in p.labels
              && p.labels["tunnelport.giantswarm.io/remoteapp"] == k.name
    ensures forall p <- all :: p in ListTbotPods(all, k) <==> MapPodToRemoteApp(p) == Some(k)
  {
    FilterTwice(HasRole, InGroup(k), Selects(k), all);
    assert LABEL_ROLE_VALUE != "";
    forall p <- all ensures p in ListTbotPods(all, k) <==> MapPodToRemoteApp(p) == Some(k) {
      FilterMember(Selects(k), all, p);
    }
  }
}
