/** Effective names and values (internal/controller/helpers.go), and when two resources share one. */
module Names {
  import opened Api
  import opened Objects

  const DEFAULT_HUB_IMAGE := "docker.io/kubeshark/hub:v52.3.82"
  const DEFAULT_WORKER_IMAGE := "docker.io/kubeshark/worker:v52.3.82"
  const DEFAULT_FRONTEND_IMAGE := "docker.io/kubeshark/front:v52.3.82"

  const INSTANCE := "app.kubernetes.io/instance"

  function ComponentLabels(name: string): StrMap {
    map["app.kubernetes.io/name" := "kubeshark",
        "app.kubernetes.io/managed-by" := "kubeshark-operator",
        INSTANCE := name]
  }

  function HubReplicas(s: Spec): int {
    if s.hubReplicas.Some? then s.hubReplicas.value else 1
  }

  function HubServiceName(v: View): string { OrElse(v.spec.hubServiceName, v.Name() + "-hub") }
  function HubDeploymentName(v: View): string { OrElse(v.spec.hubDeploymentName, v.Name() + "-hub") }
  function HubConfigMapName(v: View): string { OrElse(v.spec.hubConfigMapName, v.Name() + "-config") }
  function WorkerDaemonSetName(v: View): string { OrElse(v.spec.workerDaemonSetName, v.Name() + "-worker") }
  function FrontendServiceName(v: View): string { v.Name() + "-frontend" }
  function FrontendDeploymentName(v: View): string { v.Name() + "-frontend" }
  function FrontendIngressName(v: View): string { OrElse(v.spec.ingressName, v.Name() + "-frontend-ingress") }
  function SecretName(v: View): string { v.Name() + "-secret" }
  function HubServiceAccountName(v: View): string { OrElse(v.spec.serviceAccountHub, v.Name() + "-hub") }
  function WorkerServiceAccountName(v: View): string { OrElse(v.spec.serviceAccountWorker, v.Name() + "-worker") }

  function DefaultClusterName(k: CrKey): string { k.ns + "-" + k.name + "-kubeshark" }
  function ClusterRoleName(v: View): string { OrElse(v.spec.clusterRoleName, DefaultClusterName(v.id.key)) }
  function ClusterRoleBindingName(v: View): string {
    OrElse(v.spec.clusterRoleBindingName, DefaultClusterName(v.id.key))
  }

  lemma SameSuffix(a: string, b: string, s: string)
    requires a + s == b + s
    ensures a == b
  {
    assert |a| == |b|;
    assert a == (a + s)[..|a|];
    assert b == (b + s)[..|b|];
  }

  lemma LastCharsDiffer(a: string, s: string, b: string, t: string)
    requires s != "" && t != "" && s[|s| - 1] != t[|t| - 1]
    ensures a + s != b + t
  {
    assert (a + s)[|a + s| - 1] == s[|s| - 1];
    assert (b + t)[|b + t| - 1] == t[|t| - 1];
  }

  lemma LabelsNameTheInstance(a: string, b: string)
    ensures ComponentLabels(a) == ComponentLabels(b) <==> a == b
  {
    assert ComponentLabels(a)[INSTANCE] == a;
    assert ComponentLabels(b)[INSTANCE] == b;
  }

  /** `a` is a namespace that `b`'s namespace extends by a dash, and the overlap moves into the name. */
  ghost predicate Overlaps(a: CrKey, b: CrKey) {
    exists m: string :: b.ns == a.ns + "-" + m && a.name == m + "-" + b.name
  }

  lemma LongerNamespaceOverlaps(a: CrKey, b: CrKey)
    requires DefaultClusterName(a) == DefaultClusterName(b)
    requires |a.ns| < |b.ns|
    ensures Overlaps(a, b)
  {
    var x, y := a.ns + "-" + a.name, b.ns + "-" + b.name;
    SameSuffix(x, y, "-kubeshark");
    var m := b.ns[|a.ns| + 1..];
    assert b.ns == y[..|b.ns|] == x[..|b.ns|];
    assert x[|a.ns|] == '-';
    assert a.ns == x[..|a.ns|];
    assert b.ns == a.ns + "-" + m;
    assert a.name == x[|a.ns| + 1..];
    assert y[|a.ns| + 1..] == m + "-" + b.name;
  }

  lemma OverlapCollides(a: CrKey, b: CrKey)
    requires Overlaps(a, b)
    ensures DefaultClusterName(a) == DefaultClusterName(b)
  {
    var m: string :| b.ns == a.ns + "-" + m && a.name == m + "-" + b.name;
    assert a.ns + "-" + a.name == b.ns + "-" + b.name;
  }

  /** Exactly which custom resources share a default ClusterRole name. */
  lemma DefaultClusterNamesCollide(a: CrKey, b: CrKey)
    ensures DefaultClusterName(a) == DefaultClusterName(b)
            <==> a == b || Overlaps(a, b) || Overlaps(b, a)
  {
    if DefaultClusterName(a) == DefaultClusterName(b) {
      if |a.ns| < |b.ns| {
        LongerNamespaceOverlaps(a, b);
      } else if |b.ns| < |a.ns| {
        LongerNamespaceOverlaps(b, a);
      } else {
        SameSuffix(a.ns + "-" + a.name, b.ns + "-" + b.name, "-kubeshark");
        assert a.ns == (a.ns + "-" + a.name)[..|a.ns|];
        assert b.ns == (b.ns + "-" + b.name)[..|b.ns|];
        assert a.name == (a.ns + "-" + a.name)[|a.ns| + 1..];
        assert b.name == (b.ns + "-" + b.name)[|b.ns| + 1..];
      }
    } else {
      if Overlaps(a, b) { OverlapCollides(a, b); }
      if Overlaps(b, a) { OverlapCollides(b, a); }
    }
  }

  lemma NoOverlap(a: CrKey, b: CrKey)
    requires a.ns == b.ns || '-' !in b.ns
    ensures !Overlaps(a, b)
  {
    forall m: string
      ensures b.ns != a.ns + "-" + m
    {
      var longer := a.ns + "-" + m;
      assert |longer| > |a.ns| && longer[|a.ns|] == '-';
    }
  }

  /** Default cluster names are injective within one namespace and over dash-free namespaces. */
  lemma DefaultClusterNamesInjective(a: CrKey, b: CrKey)
    requires a.ns == b.ns || ('-' !in a.ns && '-' !in b.ns)
    requires DefaultClusterName(a) == DefaultClusterName(b)
    ensures a == b
  {
    DefaultClusterNamesCollide(a, b);
    NoOverlap(a, b);
    NoOverlap(b, a);
  }

  /** Without that condition they are not: a pair of distinct resources with one default name. */
  lemma DefaultClusterNameCollision() returns (a: CrKey, b: CrKey)
    ensures a != b && DefaultClusterName(a) == DefaultClusterName(b)
  {
    a, b := CrKey("a", "b-c"), CrKey("a-b", "c");
    assert b.ns == a.ns + "-" + "b" && a.name == "b" + "-" + b.name;
    OverlapCollides(a, b);
  }
}
