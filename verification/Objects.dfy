/** Stored child objects: their keys, what the API server fills in, and what it refuses to change. */
module Objects {
  import opened Wrappers
  import opened Api

  datatype Kind =
    | KConfigMap | KServiceAccount | KDeployment | KService | KDaemonSet
    | KIngress | KSecret | KClusterRole | KClusterRoleBinding

  /** Cluster-scoped objects live under the empty namespace. */
  datatype ObjKey = ObjKey(kind: Kind, ns: string, name: string)

  predicate ClusterScoped(k: ObjKey) {
    k.kind == KClusterRole || k.kind == KClusterRoleBinding
  }

  datatype OwnerRef =
    | KubesharkOwner(name: string, uid: nat)
    | ForeignOwner(kind: string, name: string, uid: nat)

  /** The container literals of the source are opaque: one constructor per workload. */
  datatype Workload = HubContainers | FrontendContainers | WorkerContainers | OtherContainers(text: string)

  datatype PodTemplate = PodTemplate(
    labels: StrMap, serviceAccount: string, workload: Workload, image: string,
    ports: seq<ContainerPort>, restartPolicy: string)

  datatype ServicePort = ServicePort(name: string, port: int, targetPort: int, protocol: string)

  datatype IngressRule = IngressRule(host: string, service: string, port: int)

  datatype Subject = Subject(serviceAccount: string, ns: string)

  /** `DefaultConfig` and `DefaultRules` stand for the literal tables of the source. */
  datatype ConfigData = DefaultConfig | Config(entries: StrMap)
  datatype RoleRules = DefaultRules | Rules(rules: seq<PolicyRule>)

  datatype Body =
    | ConfigMap(data: ConfigData, binary: string)
    | ServiceAccount(pullSecrets: string)
    | Deployment(replicas: int, selector: StrMap, template: PodTemplate, strategy: string)
    | Service(serviceType: string, selector: StrMap, ports: seq<ServicePort>, clusterIP: string)
    | DaemonSet(selector: StrMap, template: PodTemplate, strategy: string)
    | Ingress(className: Option<string>, rules: seq<IngressRule>, tls: string)
    | Secret(secretType: string, secretData: StrMap, stringData: StrMap)
    | ClusterRole(roleRules: RoleRules, aggregation: string)
    | ClusterRoleBinding(roleRef: string, subjects: seq<Subject>)

  datatype Object = Object(owner: Option<OwnerRef>, labels: StrMap, annotations: StrMap, body: Body)

  const BLANK_TEMPLATE := PodTemplate(map[], "", OtherContainers(""), "", [], "")

  function BlankBody(kind: Kind): Body {
    match kind
    case KConfigMap => ConfigMap(Config(map[]), "")
    case KServiceAccount => ServiceAccount("")
    case KDeployment => Deployment(1, map[], BLANK_TEMPLATE, "")
    case KService => Service("", map[], [], "")
    case KDaemonSet => DaemonSet(map[], BLANK_TEMPLATE, "")
    case KIngress => Ingress(None, [], "")
    case KSecret => Secret("", map[], map[])
    case KClusterRole => ClusterRole(Rules([]), "")
    case KClusterRoleBinding => ClusterRoleBinding("", [])
  }

  function Blank(kind: Kind): Object {
    Object(None, map[], map[], BlankBody(kind))
  }

  function KindOf(b: Body): Kind {
    match b
    case ConfigMap(_, _) => KConfigMap
    case ServiceAccount(_) => KServiceAccount
    case Deployment(_, _, _, _) => KDeployment
    case Service(_, _, _, _) => KService
    case DaemonSet(_, _, _) => KDaemonSet
    case Ingress(_, _, _) => KIngress
    case Secret(_, _, _) => KSecret
    case ClusterRole(_, _) => KClusterRole
    case ClusterRoleBinding(_, _) => KClusterRoleBinding
  }

  /** A typed client decodes every object under a key into that key's kind. */
  function Typed(kind: Kind, b: Body): (r: Body)
    ensures KindOf(r) == kind
    ensures KindOf(b) == kind ==> r == b
  {
    if KindOf(b) == kind then b else BlankBody(kind)
  }

  // ----- What a write through the API server fills in -----

  function OrElse(s: string, default: string): (r: string)
    ensures s != "" ==> r == s
    ensures s == "" ==> r == default
  {
    if s == "" then default else s
  }

  function DefaultPort(p: ContainerPort): ContainerPort {
    p.(protocol := OrElse(p.protocol, "TCP"))
  }

  function DefaultServicePort(p: ServicePort): ServicePort {
    p.(protocol := OrElse(p.protocol, "TCP"))
  }

  function DefaultTemplate(t: PodTemplate): PodTemplate {
    t.(ports := seq(|t.ports|, i requires 0 <= i < |t.ports| => DefaultPort(t.ports[i])),
       restartPolicy := OrElse(t.restartPolicy, "Always"))
  }

  function AllocatedIP(k: ObjKey): string {
    "ip-of-" + k.ns + "/" + k.name
  }

  function DefaultBody(k: ObjKey, b: Body): Body {
    match b
    case Deployment(n, sel, t, s) => Deployment(n, sel, DefaultTemplate(t), OrElse(s, "RollingUpdate"))
    case DaemonSet(sel, t, s) => DaemonSet(sel, DefaultTemplate(t), OrElse(s, "RollingUpdate"))
    case Service(ty, sel, ps, ip) =>
      Service(OrElse(ty, "ClusterIP"), sel,
              seq(|ps|, i requires 0 <= i < |ps| => DefaultServicePort(ps[i])),
              OrElse(ip, AllocatedIP(k)))
    case Secret(ty, d, sd) => Secret(OrElse(ty, "Opaque"), d + sd, map[])
    case _ => b
  }

  /** The object the server stores for a written object: typed, defaulted, `stringData` folded. */
  function Admit(k: ObjKey, o: Object): Object {
    o.(body := DefaultBody(k, Typed(k.kind, o.body)))
  }

  lemma DefaultTemplateIdempotent(t: PodTemplate)
    ensures DefaultTemplate(DefaultTemplate(t)) == DefaultTemplate(t)
  {
    var d := DefaultTemplate(t);
    assert DefaultTemplate(d).ports == d.ports;
  }

  lemma AdmitIdempotent(k: ObjKey, o: Object)
    ensures Admit(k, Admit(k, o)) == Admit(k, o)
  {
    var b := Typed(k.kind, o.body);
    match b
    case Deployment(n, sel, t, s) => DefaultTemplateIdempotent(t);
    case DaemonSet(sel, t, s) => DefaultTemplateIdempotent(t);
    case Service(ty, sel, ps, ip) =>
      var d := DefaultBody(k, b);
      assert DefaultBody(k, d).ports == d.ports;
    case Secret(ty, d, sd) => assert (d + sd) + map[] == d + sd;
    case _ =>
  }

  /** Validation of an update: these fields cannot change once stored. */
  predicate ImmutableKept(before: Body, after: Body) {
    match (before, after)
    case (Deployment(_, s, _, _), Deployment(_, s', _, _)) => s == s'
    case (DaemonSet(s, _, _), DaemonSet(s', _, _)) => s == s'
    case (Secret(t, _, _), Secret(t', _, _)) => t == t'
    case (ClusterRoleBinding(r, _), ClusterRoleBinding(r', _)) => r == r'
    case _ => true
  }
}
