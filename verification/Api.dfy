/** The Kubeshark custom resource (api/v1beta1/kubeshark_types.go) as values. */
module Api {
  import opened Wrappers

  type StrMap = map<string, string>

  datatype PolicyRule = PolicyRule(
    verbs: seq<string>, apiGroups: seq<string>, resources: seq<string>,
    resourceNames: seq<string>, nonResourceUrls: seq<string>)

  datatype ContainerPort = ContainerPort(
    name: string, hostPort: int, containerPort: int, protocol: string, hostIP: string)

  datatype SecretSpec = SecretSpec(
    license: string, scriptingEnvJson: string, oidcClientID: string, oidcClientSecret: string)

  /** Pointers, maps and slices that the source may leave nil are options. */
  datatype Spec = Spec(
    hubImage: string,
    frontendImage: string,
    hubReplicas: Option<int>,
    workerImage: string,
    targetNamespace: string,
    ingressHost: string,
    ingressClassName: string,
    ingressName: string,
    serviceAccountHub: string,
    serviceAccountWorker: string,
    hubConfigMapData: Option<StrMap>,
    clusterRoleRules: Option<seq<PolicyRule>>,
    clusterRoleName: string,
    clusterRoleBindingName: string,
    hubDeploymentName: string,
    hubLabels: Option<StrMap>,
    hubContainerPorts: Option<seq<ContainerPort>>,
    workerDaemonSetName: string,
    workerLabels: Option<StrMap>,
    hubServiceName: string,
    hubConfigMapName: string,
    secret: SecretSpec)

  datatype Condition = Condition(
    kind: string, status: bool, reason: string, message: string,
    observedGeneration: nat, since: nat)

  datatype Status = Status(conditions: seq<Condition>, observedGeneration: nat)

  const EMPTY_STATUS := Status([], 0)

  /** A namespaced name, the key of a custom resource. */
  datatype CrKey = CrKey(ns: string, name: string)

  /** One incarnation of a custom resource: a name can be reused, a uid cannot. */
  datatype CrId = CrId(key: CrKey, uid: nat)

  datatype Kubeshark = Kubeshark(
    id: CrId,
    generation: nat,
    deleting: bool,
    finalizers: seq<string>,
    spec: Spec,
    status: Status)
  {
    function ToView(): View {
      View(id, spec)
    }
  }

  /** The part of a custom resource that decides its children. */
  datatype View = View(id: CrId, spec: Spec) {
    function Ns(): string { id.key.ns }
    function Name(): string { id.key.name }
  }

  const FINALIZER := "kubeshark.opstreelabs.in/finalizer"

  predicate HasFinalizer(cr: Kubeshark) {
    FINALIZER in cr.finalizers
  }

  function Without(fs: seq<string>, f: string): (r: seq<string>)
    ensures forall x :: x in r <==> x in fs && x != f
  {
    if fs == [] then []
    else if fs[0] == f then Without(fs[1..], f)
    else [fs[0]] + Without(fs[1..], f)
  }

  function AddFinalizer(cr: Kubeshark): (r: Kubeshark)
    ensures HasFinalizer(r)
  {
    if HasFinalizer(cr) then cr else cr.(finalizers := cr.finalizers + [FINALIZER])
  }

  function RemoveFinalizer(cr: Kubeshark): (r: Kubeshark)
    ensures !HasFinalizer(r)
  {
    cr.(finalizers := Without(cr.finalizers, FINALIZER))
  }

  lemma {:induction false} WithoutAbsent(fs: seq<string>, f: string)
    requires f !in fs
    ensures Without(fs, f) == fs && Without(fs + [f], f) == fs
  {
    if fs != [] {
      WithoutAbsent(fs[1..], f);
      assert (fs + [f])[1..] == fs[1..] + [f];
    }
  }

  lemma {:induction false} WithoutAnywhere(before: seq<string>, f: string, after: seq<string>)
    requires f !in before && f !in after
    ensures Without(before + [f] + after, f) == before + after
  {
    if before == [] {
      WithoutAbsent(after, f);
      assert ([f] + after)[1..] == after;
      assert before + [f] + after == [f] + after;
    } else {
      WithoutAnywhere(before[1..], f, after);
      assert (before + [f] + after)[1..] == before[1..] + [f] + after;
    }
  }

  /**
   The finalizer is added behind the others. Giving it up restores the resource as it was before, and takes it out
   wherever it stands, leaving the others in their order.
   */
  lemma FinalizerRoundTrip(cr: Kubeshark, n: nat)
    requires !HasFinalizer(cr) && n <= |cr.finalizers|
    ensures AddFinalizer(cr).finalizers == cr.finalizers + ["kubeshark.opstreelabs.in/finalizer"]
    ensures RemoveFinalizer(AddFinalizer(cr)) == cr && RemoveFinalizer(cr) == cr
    ensures var fs := cr.finalizers[..n] + ["kubeshark.opstreelabs.in/finalizer"] + cr.finalizers[n..];
            RemoveFinalizer(cr.(finalizers := fs)) == cr
  {
    WithoutAbsent(cr.finalizers, FINALIZER);
    WithoutAnywhere(cr.finalizers[..n], FINALIZER, cr.finalizers[n..]);
    assert cr.finalizers[..n] + cr.finalizers[n..] == cr.finalizers;
  }

  /** What is left of a spec written back with `omitempty`: an empty map or slice is dropped. */
  function WriteBack(s: Spec): Spec {
    s.(hubConfigMapData := if s.hubConfigMapData == Some(map[]) then None else s.hubConfigMapData,
       clusterRoleRules := if s.clusterRoleRules == Some([]) then None else s.clusterRoleRules,
       hubLabels := if s.hubLabels == Some(map[]) then None else s.hubLabels,
       hubContainerPorts := if s.hubContainerPorts == Some([]) then None else s.hubContainerPorts,
       workerLabels := if s.workerLabels == Some(map[]) then None else s.workerLabels)
  }
}
