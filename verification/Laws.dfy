/** Laws of the mutate callbacks: what each owns, what each preserves, and how writes to one key combine. */
module Laws {
  import opened Wrappers
  import opened Api
  import opened Objects
  import opened Names
  import opened Components

  // ----- Lens laws, kind by kind -----

  /** The given text, or the default where none is given. */
  predicate Chosen(r: string, given: string, default: string) {
    if given != "" then r == given else r == default
  }

  /** These ports, with the protocol that the server fills in. */
  predicate Listens(ports: seq<ContainerPort>, wanted: seq<ContainerPort>) {
    && |ports| == |wanted|
    && forall i :: 0 <= i < |ports| ==>
         ports[i] == if wanted[i].protocol != "" then wanted[i] else wanted[i].(protocol := "TCP")
  }

  predicate Labelled(labels: StrMap, name: string) {
    labels == map["app.kubernetes.io/name" := "kubeshark",
                  "app.kubernetes.io/managed-by" := "kubeshark-operator",
                  "app.kubernetes.io/instance" := name]
  }

  /** What the operator promises about the stored child, on the stored fields and the fields of the spec. */
  ghost predicate Conforms(c: Child, v: View, o: Object) {
    var s, ns, name, b := v.spec, v.id.key.ns, v.id.key.name, o.body;
    && Labelled(o.labels, name)
    && (c != OperatorRole && c != OperatorBinding ==> o.owner == Some(KubesharkOwner(name, v.id.uid)))
    && match c
       case HubConfigMap =>
         && b.ConfigMap?
         && b.data == (if s.hubConfigMapData == None then DefaultConfig else Config(s.hubConfigMapData.value))
       case HubServiceAccount => b.ServiceAccount?
       case WorkerServiceAccount => b.ServiceAccount?
       case HubDeployment =>
         && b.Deployment? && b.replicas == (if s.hubReplicas == None then 1 else s.hubReplicas.value)
         && Labelled(b.selector, name) && b.selector == b.template.labels
         && Chosen(b.template.serviceAccount, s.serviceAccountHub, name + "-hub")
         && b.template.workload == HubContainers
         && Chosen(b.template.image, s.hubImage, "docker.io/kubeshark/hub:v52.3.82")
         && (if s.hubContainerPorts.Some? && s.hubContainerPorts.value != []
             then Listens(b.template.ports, s.hubContainerPorts.value)
             else b.template.ports == [ContainerPort("", 0, 8080, "TCP", "")])
         && b.template.restartPolicy == "Always"
       case FrontendDeployment =>
         && b.Deployment? && b.replicas == 1
         && Labelled(b.selector, name) && b.selector == b.template.labels
         && b.template.serviceAccount == ""
         && b.template.workload == FrontendContainers
         && Chosen(b.template.image, s.frontendImage, "docker.io/kubeshark/front:v52.3.82")
         && b.template.ports == [ContainerPort("", 0, 8080, "TCP", "")]
         && b.template.restartPolicy == "Always"
       case HubService =>
         && b.Service? && Labelled(b.selector, name)
         && b.ports == [ServicePort("", 80, 8080, "TCP")]
       case FrontendService =>
         && b.Service? && b.serviceType == "ClusterIP" && Labelled(b.selector, name)
         && b.ports == [ServicePort("http", 80, 8080, "TCP")]
       case OperatorRole =>
         && b.ClusterRole?
         && b.roleRules == (if s.clusterRoleRules == None || s.clusterRoleRules.value == []
                            then DefaultRules else Rules(s.clusterRoleRules.value))
       case OperatorBinding =>
         && b.ClusterRoleBinding?
         && Chosen(b.roleRef, s.clusterRoleName, ns + "-" + name + "-kubeshark")
         && |b.subjects| == 2 && b.subjects[0].ns == ns == b.subjects[1].ns
         && Chosen(b.subjects[0].serviceAccount, s.serviceAccountHub, name + "-hub")
         && Chosen(b.subjects[1].serviceAccount, s.serviceAccountWorker, name + "-worker")
       case WorkerDaemonSet =>
         && b.DaemonSet? && Labelled(b.selector, name) && b.selector == b.template.labels
         && Chosen(b.template.serviceAccount, s.serviceAccountWorker, name + "-worker")
         && b.template.workload == WorkerContainers
         && Chosen(b.template.image, s.workerImage, "docker.io/kubeshark/worker:v52.3.82")
         && b.template.ports == [] && b.template.restartPolicy == "Always"
         && b.strategy == "RollingUpdate"
       case FrontendIngress =>
         && b.Ingress? && (s.ingressClassName != "" ==> b.className == Some(s.ingressClassName))
         && b.rules == [IngressRule(s.ingressHost, name + "-frontend", 80)]
       case LicenseSecret =>
         && b.Secret? && b.secretType == "Opaque" && b.stringData == map[]
         && {"LICENSE", "SCRIPTING_ENV", "OIDC_CLIENT_ID", "OIDC_CLIENT_SECRET"} <= b.secretData.Keys
         && b.secretData["LICENSE"] == s.secret.license
         && Chosen(b.secretData["SCRIPTING_ENV"], s.secret.scriptingEnvJson, "{}")
         && Chosen(b.secretData["OIDC_CLIENT_ID"], s.secret.oidcClientID, "not set")
         && Chosen(b.secretData["OIDC_CLIENT_SECRET"], s.secret.oidcClientSecret, "not set")
  }

  /** The fields of a found object that the step of child `c` leaves as they were. */
  ghost predicate Preserves(c: Child, v: View, before: Object, after: Object)
    requires KindOf(before.body) == KindFor(c) == KindOf(after.body)
  {
    && after.annotations == before.annotations
    && (c == OperatorRole || c == OperatorBinding ==> after.owner == before.owner)
    && match c
       case HubConfigMap => after.body.binary == before.body.binary
       case HubServiceAccount => after.body == before.body
       case WorkerServiceAccount => after.body == before.body
       case HubDeployment => after.body.strategy == before.body.strategy
       case FrontendDeployment => after.body.strategy == before.body.strategy
       case HubService =>
         after.body.clusterIP == before.body.clusterIP && after.body.serviceType == before.body.serviceType
       case FrontendService => after.body.clusterIP == before.body.clusterIP
       case OperatorRole => after.body.aggregation == before.body.aggregation
       case OperatorBinding => true
       case WorkerDaemonSet => true
       case FrontendIngress =>
         && after.body.tls == before.body.tls
         && (v.spec.ingressClassName == "" ==> after.body.className == before.body.className)
       case LicenseSecret =>
         forall k :: k !in {"LICENSE", "SCRIPTING_ENV", "OIDC_CLIENT_ID", "OIDC_CLIENT_SECRET"} ==>
           (k in after.body.secretData <==> k in before.body.secretData)
           && (k in before.body.secretData ==> after.body.secretData[k] == before.body.secretData[k])
  }

  lemma ServiceConforms(c: Child, v: View, x: Option<Object>)
    requires c == HubService || c == FrontendService
    ensures Conforms(c, v, Put(c, v, x))
  {
    hide DefaultTemplate, HubTemplate, FrontendTemplate, WorkerTemplate, HubConfig, RulesFor, SecretEntries;
    var o := Put(c, v, x);
    assert o.body.ports == [ServicePort(if c == HubService then "" else "http", 80, 8080, "TCP")];
  }

  lemma WorkloadConforms(c: Child, v: View, x: Option<Object>)
    requires c == HubDeployment || c == FrontendDeployment || c == WorkerDaemonSet
    ensures Conforms(c, v, Put(c, v, x))
  {
    hide HubConfig, RulesFor, SecretEntries;
    var o := Put(c, v, x);
    match c
    case HubDeployment =>
    case FrontendDeployment => assert o.body.template.ports == [ContainerPort("", 0, 8080, "TCP", "")];
    case WorkerDaemonSet => assert o.body.template.ports == [];
  }

  lemma RbacConforms(c: Child, v: View, x: Option<Object>)
    requires c == OperatorRole || c == OperatorBinding
    ensures Conforms(c, v, Put(c, v, x))
  {
    hide DefaultTemplate, HubTemplate, FrontendTemplate, WorkerTemplate, HubConfig, SecretEntries, Listens;
  }

  lemma SecretConforms(v: View, x: Option<Object>)
    ensures Conforms(LicenseSecret, v, Put(LicenseSecret, v, x))
  {
    hide DefaultTemplate, HubTemplate, FrontendTemplate, WorkerTemplate, HubConfig, RulesFor, Listens;
  }

  lemma RestConforms(c: Child, v: View, x: Option<Object>)
    requires KindFor(c) in {KConfigMap, KServiceAccount, KIngress}
    ensures Conforms(c, v, Put(c, v, x))
  {
    hide DefaultTemplate, HubTemplate, FrontendTemplate, WorkerTemplate, RulesFor, SecretEntries, Listens;
  }

  /** Put-get: a successful step establishes every field the operator owns. */
  lemma PutConforms(c: Child, v: View, x: Option<Object>)
    ensures Conforms(c, v, Put(c, v, x))
  {
    hide Put, Conforms;
    match KindFor(c)
    case KService => ServiceConforms(c, v, x);
    case KDeployment => WorkloadConforms(c, v, x);
    case KDaemonSet => WorkloadConforms(c, v, x);
    case KSecret => SecretConforms(v, x);
    case KClusterRole => RbacConforms(c, v, x);
    case KClusterRoleBinding => RbacConforms(c, v, x);
    case _ => RestConforms(c, v, x);
  }

  /** The rest of a stored object survives the step. */
  lemma PutPreserves(c: Child, v: View, x: Object)
    requires Stored(KeyOf(c, v), x)
    ensures Preserves(c, v, x, Put(c, v, Some(x)))
  {
    TypedByKey(KeyOf(c, v), x);
    var o := Put(c, v, Some(x));
    match c
    case LicenseSecret =>
      assert x.body.secretData + x.body.stringData == x.body.secretData;
    case _ =>
  }

  lemma TypedByKey(k: ObjKey, o: Object)
    requires Stored(k, o)
    ensures KindOf(o.body) == k.kind
  {
  }

  /** A child that is created holds nothing but what the operator and the server put there. */
  ghost predicate Bare(c: Child, v: View, o: Object)
    requires KindOf(o.body) == KindFor(c)
  {
    && o.annotations == map[]
    && (c == OperatorRole || c == OperatorBinding ==> o.owner == None)
    && match c
       case HubConfigMap => o.body.binary == ""
       case HubServiceAccount => o.body.pullSecrets == ""
       case WorkerServiceAccount => o.body.pullSecrets == ""
       case HubDeployment => o.body.strategy == "RollingUpdate"
       case FrontendDeployment => o.body.strategy == "RollingUpdate"
       case HubService => o.body.serviceType == "ClusterIP"
       case FrontendService => true
       case OperatorRole => o.body.aggregation == ""
       case OperatorBinding => true
       case WorkerDaemonSet => true
       case FrontendIngress => o.body.tls == "" && (v.spec.ingressClassName == "" ==> o.body.className == None)
       case LicenseSecret =>
         o.body.secretData.Keys == {"LICENSE", "SCRIPTING_ENV", "OIDC_CLIENT_ID", "OIDC_CLIENT_SECRET"}
  }

  lemma PutCreatesBare(c: Child, v: View)
    ensures KindOf(Put(c, v, None).body) == KindFor(c) && Bare(c, v, Put(c, v, None))
  {
    if c == LicenseSecret {
      SecretCreatesBare(v);
    } else {
      OtherCreatesBare(c, v);
    }
  }

  lemma SecretCreatesBare(v: View)
    ensures KindOf(Put(LicenseSecret, v, None).body) == KSecret && Bare(LicenseSecret, v, Put(LicenseSecret, v, None))
  {
  }

  lemma OtherCreatesBare(c: Child, v: View)
    requires c != LicenseSecret
    ensures KindOf(Put(c, v, None).body) == KindFor(c) && Bare(c, v, Put(c, v, None))
  {
    hide DefaultTemplate, HubTemplate, FrontendTemplate, WorkerTemplate, HubConfig, RulesFor, SecretEntries;
  }

  // ----- Where the children are, and in which order -----

  predicate IsKey(k: ObjKey, kind: Kind, ns: string, given: string, default: string) {
    k.kind == kind && k.ns == ns && Chosen(k.name, given, default)
  }

  /** The key of each child: the name the spec gives, or a default; three names cannot be given. */
  predicate RightlyNamed(c: Child, v: View, k: ObjKey) {
    var s, ns, name := v.spec, v.id.key.ns, v.id.key.name;
    match c
    case HubConfigMap => IsKey(k, KConfigMap, ns, s.hubConfigMapName, name + "-config")
    case HubServiceAccount => IsKey(k, KServiceAccount, ns, s.serviceAccountHub, name + "-hub")
    case HubDeployment => IsKey(k, KDeployment, ns, s.hubDeploymentName, name + "-hub")
    case HubService => IsKey(k, KService, ns, s.hubServiceName, name + "-hub")
    case WorkerServiceAccount => IsKey(k, KServiceAccount, ns, s.serviceAccountWorker, name + "-worker")
    case OperatorRole => IsKey(k, KClusterRole, "", s.clusterRoleName, ns + "-" + name + "-kubeshark")
    case OperatorBinding => IsKey(k, KClusterRoleBinding, "", s.clusterRoleBindingName, ns + "-" + name + "-kubeshark")
    case WorkerDaemonSet => IsKey(k, KDaemonSet, ns, s.workerDaemonSetName, name + "-worker")
    case FrontendDeployment => k == ObjKey(KDeployment, ns, name + "-frontend")
    case FrontendService => k == ObjKey(KService, ns, name + "-frontend")
    case FrontendIngress => IsKey(k, KIngress, ns, s.ingressName, name + "-frontend-ingress")
    case LicenseSecret => k == ObjKey(KSecret, ns, name + "-secret")
  }

  /** The place of each child in a pass: hub, access rights, worker, frontend, secret. */
  function Position(c: Child): nat {
    match c
    case HubConfigMap => 0
    case HubServiceAccount => 1
    case HubDeployment => 2
    case HubService => 3
    case WorkerServiceAccount => 4
    case OperatorRole => 5
    case OperatorBinding => 6
    case WorkerDaemonSet => 7
    case FrontendDeployment => 8
    case FrontendService => 9
    case FrontendIngress => 10
    case LicenseSecret => 11
  }

  /** A pass visits every child once, each in its place and under its own name. */
  lemma KeysOfPass(c: Child, v: View)
    ensures COUNT == 12 == |ORDER| && forall i: nat :: i < COUNT ==> (ORDER[i] == c <==> i == Position(c))
    ensures KeyAt(Position(c), v) == KeyOf(c, v) && RightlyNamed(c, v, KeyOf(c, v))
  {
    assert ORDER[Position(c)] == c;
  }

  /** Somebody else than a resource of this name controls the object. */
  predicate OwnedByAnother(v: View, o: Object) {
    o.owner.Some? && !(o.owner.value.KubesharkOwner? && o.owner.value.name == v.id.key.name)
  }

  /** A step cannot succeed exactly on an object of another controller, or where an immutable field would change. */
  lemma BlockedExactly(c: Child, v: View, x: Option<Object>)
    requires x.Some? ==> KindOf(x.value.body) == KindFor(c)
    ensures Blocked(c, v, x) <==>
            x.Some? &&
            var o := x.value;
            match c
            case OperatorRole => false
            case OperatorBinding =>
              !Chosen(o.body.roleRef, v.spec.clusterRoleName, v.id.key.ns + "-" + v.id.key.name + "-kubeshark")
            case LicenseSecret => OwnedByAnother(v, o) || o.body.secretType != "Opaque"
            case HubDeployment => OwnedByAnother(v, o) || !Labelled(o.body.selector, v.id.key.name)
            case FrontendDeployment => OwnedByAnother(v, o) || !Labelled(o.body.selector, v.id.key.name)
            case WorkerDaemonSet => OwnedByAnother(v, o) || !Labelled(o.body.selector, v.id.key.name)
            case _ => OwnedByAnother(v, o)
  {
    hide DefaultTemplate, HubTemplate, FrontendTemplate, WorkerTemplate, HubConfig, RulesFor, SecretEntries;
  }

  // ----- Two writes to one key -----

  lemma SameKeySameKind(i: nat, j: nat, v: View)
    requires i < COUNT && j < COUNT && KeyAt(i, v) == KeyAt(j, v)
    ensures KindFor(ORDER[i]) == KindFor(ORDER[j])
  {
  }

  /** `d` is `c` itself or the later of the two children of that kind. */
  predicate Follows(c: Child, d: Child) {
    || c == d
    || (c == HubServiceAccount && d == WorkerServiceAccount)
    || (c == HubDeployment && d == FrontendDeployment)
    || (c == HubService && d == FrontendService)
  }

  lemma LaterOfOneKindFollows(i: nat, j: nat)
    requires i <= j < COUNT && KindFor(ORDER[i]) == KindFor(ORDER[j])
    ensures Follows(ORDER[i], ORDER[j])
  {
  }

  lemma SecretAbsorbs(v: View, k: ObjKey, b: Body)
    requires k.kind == KSecret
    ensures DefaultBody(k, ShapeBody(LicenseSecret, v, DefaultBody(k, ShapeBody(LicenseSecret, v, b))))
            == DefaultBody(k, ShapeBody(LicenseSecret, v, b))
  {
    var t := Typed(k.kind, b);
    var e := SecretEntries(v.spec.secret);
    var m := t.secretData + (t.stringData + e);
    assert m + (map[] + e) == m;
  }

  /** A deployment step overwrites all but the strategy, which it keeps. */
  lemma DeploymentBody(d: Child, v: View, k: ObjKey, b: Body) returns (n: int, sel: StrMap, t: PodTemplate)
    requires d == HubDeployment || d == FrontendDeployment
    requires k.kind == KDeployment
    ensures n == (if d == HubDeployment then HubReplicas(v.spec) else 1)
    ensures sel == ComponentLabels(v.Name())
    ensures t == DefaultTemplate(if d == HubDeployment then HubTemplate(v) else FrontendTemplate(v))
    ensures DefaultBody(k, ShapeBody(d, v, b))
            == Deployment(n, sel, t, OrElse(Typed(KDeployment, b).strategy, "RollingUpdate"))
  {
    n := if d == HubDeployment then HubReplicas(v.spec) else 1;
    sel := ComponentLabels(v.Name());
    t := DefaultTemplate(if d == HubDeployment then HubTemplate(v) else FrontendTemplate(v));
  }

  lemma DeploymentAbsorbs(c: Child, d: Child, v: View, k: ObjKey, b: Body)
    requires Follows(c, d) && KindFor(c) == k.kind == KDeployment
    ensures DefaultBody(k, ShapeBody(d, v, DefaultBody(k, ShapeBody(c, v, b))))
            == DefaultBody(k, ShapeBody(d, v, b))
  {
    var n, sel, t := DeploymentBody(c, v, k, b);
    var n', sel', t' := DeploymentBody(d, v, k, b);
    var n'', sel'', t'' := DeploymentBody(d, v, k, DefaultBody(k, ShapeBody(c, v, b)));
  }

  lemma BodyAbsorbs(c: Child, d: Child, v: View, k: ObjKey, b: Body)
    requires Follows(c, d) && KindFor(c) == k.kind
    ensures DefaultBody(k, ShapeBody(d, v, DefaultBody(k, ShapeBody(c, v, b))))
            == DefaultBody(k, ShapeBody(d, v, b))
  {
    match k.kind
    case KSecret => SecretAbsorbs(v, k, b);
    case KDeployment => DeploymentAbsorbs(c, d, v, k, b);
    case KService => ServiceAbsorbs(c, d, v, k, b);
    case KServiceAccount =>
    case KDaemonSet => DaemonSetAbsorbs(v, k, b);
    case _ => RestAbsorbs(c, v, k, b);
  }

  lemma DaemonSetAbsorbs(v: View, k: ObjKey, b: Body)
    ensures DefaultBody(k, ShapeBody(WorkerDaemonSet, v, DefaultBody(k, ShapeBody(WorkerDaemonSet, v, b))))
            == DefaultBody(k, ShapeBody(WorkerDaemonSet, v, b))
  {
    hide DefaultTemplate, WorkerTemplate;
  }

  lemma RestAbsorbs(c: Child, v: View, k: ObjKey, b: Body)
    requires KindFor(c) == k.kind && k.kind in {KConfigMap, KIngress, KClusterRole, KClusterRoleBinding}
    ensures DefaultBody(k, ShapeBody(c, v, DefaultBody(k, ShapeBody(c, v, b))))
            == DefaultBody(k, ShapeBody(c, v, b))
  {
    hide DefaultTemplate, SecretEntries, HubTemplate, FrontendTemplate, WorkerTemplate, HubConfig, RulesFor;
    assert DefaultBody(k, ShapeBody(c, v, b)) == ShapeBody(c, v, b);
  }

  /** A service step overwrites the selector and the ports, and the type only for the frontend. */
  lemma ServiceBody(d: Child, v: View, k: ObjKey, b: Body) returns (ports: seq<ServicePort>)
    requires d == HubService || d == FrontendService
    requires k.kind == KService
    ensures ports == (if d == HubService then [ServicePort("", 80, 8080, "TCP")]
                      else [ServicePort("http", 80, 8080, "TCP")])
    ensures var t := if d == HubService then OrElse(Typed(KService, b).serviceType, "ClusterIP") else "ClusterIP";
            DefaultBody(k, ShapeBody(d, v, b))
            == Service(t, ComponentLabels(v.Name()), ports,
                       OrElse(Typed(KService, b).clusterIP, AllocatedIP(k)))
  {
    hide DefaultTemplate, SecretEntries, HubTemplate, FrontendTemplate, WorkerTemplate, HubConfig, RulesFor;
    ports := [ServicePort(if d == HubService then "" else "http", 80, 8080, "TCP")];
  }

  lemma ServiceAbsorbs(c: Child, d: Child, v: View, k: ObjKey, b: Body)
    requires Follows(c, d) && KindFor(c) == k.kind == KService
    ensures DefaultBody(k, ShapeBody(d, v, DefaultBody(k, ShapeBody(c, v, b))))
            == DefaultBody(k, ShapeBody(d, v, b))
  {
    hide ShapeBody, DefaultBody;
    var p := ServiceBody(c, v, k, b);
    var q := ServiceBody(d, v, k, b);
    var r := ServiceBody(d, v, k, DefaultBody(k, ShapeBody(c, v, b)));
  }

  lemma PutBody(c: Child, v: View, x: Option<Object>)
    ensures Put(c, v, x).body == DefaultBody(KeyOf(c, v), ShapeBody(c, v, Found(c, x).body))
  {
    hide DefaultBody, Found, DefaultTemplate, HubTemplate, FrontendTemplate, WorkerTemplate, SecretEntries;
  }

  /** A later step of the pass on the same key overwrites everything an earlier one wrote there. */
  lemma PutAbsorbs(i: nat, j: nat, v: View, x: Option<Object>)
    requires i <= j < COUNT
    requires KeyAt(i, v) == KeyAt(j, v)
    ensures Put(ORDER[j], v, Some(Put(ORDER[i], v, x))) == Put(ORDER[j], v, x)
  {
    hide DefaultBody, ShapeBody, Typed, BlankBody;
    var c, d := ORDER[i], ORDER[j];
    SameKeySameKind(i, j, v);
    LaterOfOneKindFollows(i, j);
    assert Namespaced(c) <==> Namespaced(d);
    PutBody(c, v, x);
    PutBody(d, v, x);
    PutBody(d, v, Some(Put(c, v, x)));
    BodyAbsorbs(ORDER[i], ORDER[j], v, KeyAt(i, v), Found(ORDER[i], x).body);
  }

  /** Whether a step is blocked depends on the key's object only, not on which step asks. */
  lemma BlockedAgrees(i: nat, j: nat, v: View, x: Option<Object>)
    requires i < COUNT && j < COUNT && KeyAt(i, v) == KeyAt(j, v)
    ensures Blocked(ORDER[i], v, x) <==> Blocked(ORDER[j], v, x)
  {
    SameKeySameKind(i, j, v);
  }

  lemma PutNeverBlocks(c: Child, v: View, x: Option<Object>)
    ensures !Blocked(c, v, Some(Put(c, v, x)))
  {
    hide DefaultTemplate, HubTemplate, FrontendTemplate, WorkerTemplate, HubConfig, RulesFor, SecretEntries, KeyOf;
  }

  /** After one step on a key, no step of the same pass is blocked on that key. */
  lemma PutUnblocks(i: nat, j: nat, v: View, x: Option<Object>)
    requires i < COUNT && j < COUNT && KeyAt(i, v) == KeyAt(j, v)
    ensures !Blocked(ORDER[j], v, Some(Put(ORDER[i], v, x)))
  {
    PutNeverBlocks(ORDER[i], v, x);
    BlockedAgrees(i, j, v, Some(Put(ORDER[i], v, x)));
  }

  // ----- Which children can share a key -----

  /** Among the first n steps no hub and frontend step share a Deployment or a Service. */
  predicate DistinctNames(v: View, n: nat) {
    && (n > 8 ==> HubDeploymentName(v) != FrontendDeploymentName(v))
    && (n > 9 ==> HubServiceName(v) != FrontendServiceName(v))
  }

  /** The two steps write different objects, so neither leaves the other's in place. */
  lemma SharedKeysFight(i: nat, j: nat, v: View, x: Option<Object>)
    requires i < j < COUNT && KeyAt(i, v) == KeyAt(j, v)
    requires (ORDER[i] == HubDeployment && ORDER[j] == FrontendDeployment)
             || (ORDER[i] == HubService && ORDER[j] == FrontendService)
    ensures Put(ORDER[i], v, x) != Put(ORDER[j], v, Some(Put(ORDER[i], v, x)))
  {
    PutConforms(ORDER[i], v, x);
    PutConforms(ORDER[j], v, Some(Put(ORDER[i], v, x)));
    if ORDER[i] == HubService {
      assert "" != "http";
    }
  }

  /** With distinct names every shared key is shared by steps that write the same object. */
  lemma SharedKeysAgree(i: nat, j: nat, v: View, x: Option<Object>)
    requires i < j < COUNT && KeyAt(i, v) == KeyAt(j, v)
    requires DistinctNames(v, j + 1)
    ensures Put(ORDER[i], v, x) == Put(ORDER[j], v, x)
  {
    SameKeySameKind(i, j, v);
    assert ORDER[i] == HubServiceAccount && ORDER[j] == WorkerServiceAccount;
  }

  // ----- Key sets of different resources -----

  predicate OnlyDefaultNames(s: Spec) {
    && s.hubServiceName == "" && s.hubDeploymentName == "" && s.hubConfigMapName == ""
    && s.workerDaemonSetName == "" && s.ingressName == "" && s.serviceAccountHub == ""
    && s.serviceAccountWorker == "" && s.clusterRoleName == "" && s.clusterRoleBindingName == ""
  }

  ghost predicate DisjointKeys(v: View, w: View) {
    forall i, j :: 0 <= i < COUNT && 0 <= j < COUNT ==> KeyAt(i, v) != KeyAt(j, w)
  }

  function SuffixFor(c: Child): (s: string)
    requires Namespaced(c)
    ensures s != ""
  {
    match c
    case HubConfigMap => "-config"
    case HubServiceAccount => "-hub"
    case HubDeployment => "-hub"
    case HubService => "-hub"
    case WorkerServiceAccount => "-worker"
    case WorkerDaemonSet => "-worker"
    case FrontendDeployment => "-frontend"
    case FrontendService => "-frontend"
    case FrontendIngress => "-frontend-ingress"
    case LicenseSecret => "-secret"
  }

  lemma DefaultNameIsSuffixed(c: Child, v: View)
    requires Namespaced(c) && OnlyDefaultNames(v.spec)
    ensures NameFor(c, v) == v.Name() + SuffixFor(c)
  {
  }

  lemma SuffixesOfOneKind(c: Child, d: Child)
    requires Namespaced(c) && Namespaced(d) && KindFor(c) == KindFor(d)
    ensures SuffixFor(c) == SuffixFor(d)
            || SuffixFor(c)[|SuffixFor(c)| - 1] != SuffixFor(d)[|SuffixFor(d)| - 1]
  {
  }

  lemma DefaultKeysDiffer(c: Child, d: Child, v: View, w: View)
    requires OnlyDefaultNames(v.spec) && OnlyDefaultNames(w.spec)
    requires v.id.key != w.id.key
    requires v.Ns() == w.Ns() || ('-' !in v.Ns() && '-' !in w.Ns())
    ensures KeyOf(c, v) != KeyOf(d, w)
  {
    if KeyOf(c, v) == KeyOf(d, w) {
      if Namespaced(c) {
        DefaultNameIsSuffixed(c, v);
        DefaultNameIsSuffixed(d, w);
        SuffixesOfOneKind(c, d);
        if SuffixFor(c) == SuffixFor(d) {
          SameSuffix(v.Name(), w.Name(), SuffixFor(c));
        } else {
          LastCharsDiffer(v.Name(), SuffixFor(c), w.Name(), SuffixFor(d));
        }
      } else {
        DefaultClusterNamesInjective(v.id.key, w.id.key);
      }
    }
  }

  /** Resources with default names never touch each other's children, within a namespace or across dash-free ones. */
  lemma DefaultNamesAreDisjoint(v: View, w: View)
    requires OnlyDefaultNames(v.spec) && OnlyDefaultNames(w.spec)
    requires v.id.key != w.id.key
    requires v.Ns() == w.Ns() || ('-' !in v.Ns() && '-' !in w.Ns())
    ensures DisjointKeys(v, w)
  {
    forall i, j | 0 <= i < COUNT && 0 <= j < COUNT
      ensures KeyAt(i, v) != KeyAt(j, w)
    {
      DefaultKeysDiffer(ORDER[i], ORDER[j], v, w);
    }
  }
}
