/** The twelve children of a custom resource: their keys, their mutate callbacks, and what one write does. */
module Components {
  import opened Wrappers
  import opened Api
  import opened Objects
  import opened Names

  datatype Child =
    | HubConfigMap | HubServiceAccount | HubDeployment | HubService
    | WorkerServiceAccount | OperatorRole | OperatorBinding
    | WorkerDaemonSet
    | FrontendDeployment | FrontendService | FrontendIngress
    | LicenseSecret

  /** The order in which one pass visits the children. */
  const ORDER: seq<Child> :=
    [HubConfigMap, HubServiceAccount, HubDeployment, HubService,
     WorkerServiceAccount, OperatorRole, OperatorBinding,
     WorkerDaemonSet,
     FrontendDeployment, FrontendService, FrontendIngress,
     LicenseSecret]

  const COUNT: nat := 12

  function KindFor(c: Child): Kind {
    match c
    case HubConfigMap => KConfigMap
    case HubServiceAccount => KServiceAccount
    case HubDeployment => KDeployment
    case HubService => KService
    case WorkerServiceAccount => KServiceAccount
    case OperatorRole => KClusterRole
    case OperatorBinding => KClusterRoleBinding
    case WorkerDaemonSet => KDaemonSet
    case FrontendDeployment => KDeployment
    case FrontendService => KService
    case FrontendIngress => KIngress
    case LicenseSecret => KSecret
  }

  predicate Namespaced(c: Child) {
    c != OperatorRole && c != OperatorBinding
  }

  function NameFor(c: Child, v: View): string {
    match c
    case HubConfigMap => HubConfigMapName(v)
    case HubServiceAccount => HubServiceAccountName(v)
    case HubDeployment => HubDeploymentName(v)
    case HubService => HubServiceName(v)
    case WorkerServiceAccount => WorkerServiceAccountName(v)
    case OperatorRole => ClusterRoleName(v)
    case OperatorBinding => ClusterRoleBindingName(v)
    case WorkerDaemonSet => WorkerDaemonSetName(v)
    case FrontendDeployment => FrontendDeploymentName(v)
    case FrontendService => FrontendServiceName(v)
    case FrontendIngress => FrontendIngressName(v)
    case LicenseSecret => SecretName(v)
  }

  function KeyOf(c: Child, v: View): ObjKey {
    ObjKey(KindFor(c), if Namespaced(c) then v.Ns() else "", NameFor(c, v))
  }

  /** The i-th key of a pass. */
  function KeyAt(i: nat, v: View): ObjKey
    requires i < COUNT
  {
    KeyOf(ORDER[i], v)
  }

  // ----- Mutate callbacks -----

  predicate Foreign(v: View, o: Object) {
    match o.owner
    case None => false
    case Some(KubesharkOwner(n, _)) => n != v.Name()
    case Some(ForeignOwner(_, _, _)) => true
  }

  /** Refuses an object that another controller owns; same kind and name count as the same owner. */
  function SetControllerReference(v: View, o: Object): Result<Object> {
    if Foreign(v, o) then Err("already owned by another controller")
    else Ok(o.(owner := Some(KubesharkOwner(v.Name(), v.id.uid))))
  }

  function SecretEntries(s: SecretSpec): StrMap {
    map["LICENSE" := s.license,
        "SCRIPTING_ENV" := OrElse(s.scriptingEnvJson, "{}"),
        "OIDC_CLIENT_ID" := OrElse(s.oidcClientID, "not set"),
        "OIDC_CLIENT_SECRET" := OrElse(s.oidcClientSecret, "not set")]
  }

  const HUB_PORTS := [ContainerPort("", 0, 8080, "", "")]

  function HubPorts(s: Spec): seq<ContainerPort> {
    if s.hubContainerPorts.Some? && s.hubContainerPorts.value != [] then s.hubContainerPorts.value
    else HUB_PORTS
  }

  function HubTemplate(v: View): PodTemplate {
    PodTemplate(ComponentLabels(v.Name()), HubServiceAccountName(v), HubContainers,
                OrElse(v.spec.hubImage, DEFAULT_HUB_IMAGE), HubPorts(v.spec), "")
  }

  function FrontendTemplate(v: View): PodTemplate {
    PodTemplate(ComponentLabels(v.Name()), "", FrontendContainers,
                OrElse(v.spec.frontendImage, DEFAULT_FRONTEND_IMAGE), HUB_PORTS, "")
  }

  function WorkerTemplate(v: View): PodTemplate {
    PodTemplate(ComponentLabels(v.Name()), WorkerServiceAccountName(v), WorkerContainers,
                OrElse(v.spec.workerImage, DEFAULT_WORKER_IMAGE), [], "")
  }

  function HubConfig(s: Spec): ConfigData {
    if s.hubConfigMapData.Some? then Config(s.hubConfigMapData.value) else DefaultConfig
  }

  function RulesFor(s: Spec): RoleRules {
    if s.clusterRoleRules.Some? && s.clusterRoleRules.value != [] then Rules(s.clusterRoleRules.value)
    else DefaultRules
  }

  function ShapeBody(c: Child, v: View, body: Body): Body {
    var b := Typed(KindFor(c), body);
    match c
    case HubConfigMap => b.(data := HubConfig(v.spec))
    case HubServiceAccount => b
    case WorkerServiceAccount => b
    case HubDeployment =>
      b.(replicas := HubReplicas(v.spec), selector := ComponentLabels(v.Name()), template := HubTemplate(v))
    case FrontendDeployment =>
      b.(replicas := 1, selector := ComponentLabels(v.Name()), template := FrontendTemplate(v))
    case HubService =>
      b.(selector := ComponentLabels(v.Name()), ports := [ServicePort("", 80, 8080, "")])
    case FrontendService =>
      b.(serviceType := "ClusterIP", selector := ComponentLabels(v.Name()),
         ports := [ServicePort("http", 80, 8080, "")])
    case OperatorRole => b.(roleRules := RulesFor(v.spec))
    case OperatorBinding =>
      b.(roleRef := ClusterRoleName(v),
         subjects := [Subject(HubServiceAccountName(v), v.Ns()), Subject(WorkerServiceAccountName(v), v.Ns())])
    case WorkerDaemonSet => DaemonSet(ComponentLabels(v.Name()), WorkerTemplate(v), "")
    case FrontendIngress =>
      b.(className := if v.spec.ingressClassName != "" then Some(v.spec.ingressClassName) else b.className,
         rules := [IngressRule(v.spec.ingressHost, FrontendServiceName(v), 80)])
    case LicenseSecret =>
      b.(secretType := "Opaque", stringData := b.stringData + SecretEntries(v.spec.secret))
  }

  function Shape(c: Child, v: View, o: Object): Object {
    o.(labels := ComponentLabels(v.Name()), body := ShapeBody(c, v, o.body))
  }

  /** The callback given to CreateOrUpdate for each child. */
  function Mutate(c: Child, v: View, o: Object): Result<Object> {
    if Namespaced(c) then
      match SetControllerReference(v, o)
      case Err(e) => Err(e)
      case Ok(o') => Ok(Shape(c, v, o'))
    else Ok(Shape(c, v, o))
  }

  // ----- One write, seen from the store -----

  function Found(c: Child, x: Option<Object>): Object {
    if x.Some? then x.value else Blank(KindFor(c))
  }

  function Owned(c: Child, v: View, o: Object): Object {
    if Namespaced(c) then o.(owner := Some(KubesharkOwner(v.Name(), v.id.uid))) else o
  }

  /** What the store holds once the step of child `c` has succeeded on `x`. */
  function Put(c: Child, v: View, x: Option<Object>): Object {
    Admit(KeyOf(c, v), Shape(c, v, Owned(c, v, Found(c, x))))
  }

  predicate OwnerBlocks(c: Child, v: View, x: Option<Object>) {
    Namespaced(c) && Foreign(v, Found(c, x))
  }

  predicate FieldBlocks(c: Child, v: View, x: Option<Object>) {
    x.Some? && !ImmutableKept(x.value.body, ShapeBody(c, v, x.value.body))
  }

  /** The step of child `c` cannot succeed on `x`: another owner, or an immutable field would change. */
  predicate Blocked(c: Child, v: View, x: Option<Object>) {
    OwnerBlocks(c, v, x) || FieldBlocks(c, v, x)
  }

  /** A stored object is typed by its key and already defaulted. */
  predicate Stored(k: ObjKey, o: Object) {
    Admit(k, o) == o
  }

  lemma PutIsStored(c: Child, v: View, x: Option<Object>)
    ensures Stored(KeyOf(c, v), Put(c, v, x))
  {
    AdmitIdempotent(KeyOf(c, v), Shape(c, v, Owned(c, v, Found(c, x))));
  }

  lemma MutateIsShape(c: Child, v: View, o: Object)
    ensures Mutate(c, v, o).Ok? <==> !OwnerBlocks(c, v, Some(o))
    ensures Mutate(c, v, o).Ok? ==> Mutate(c, v, o).value == Shape(c, v, Owned(c, v, o))
  {
  }

  lemma BlankNeverBlocks(c: Child, v: View)
    ensures !Blocked(c, v, None)
  {
  }
}
