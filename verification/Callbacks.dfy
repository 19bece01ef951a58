/** Objects in memory and the mutate callbacks, which change them field by field. */
module Callbacks {
  import opened Wrappers
  import opened Api
  import opened Objects
  import opened Names
  import opened Components

  // ----- Objects in memory -----

  /** A custom resource in memory; `version` stands for the resource version it was read at. */
  class ResourceCopy {
    const version: Kubeshark
    const id: CrId
    const generation: nat
    const deleting: bool
    const spec: Spec
    var finalizers: seq<string>
    var conditions: seq<Condition>
    var observedGeneration: nat

    constructor (cr: Kubeshark, version: Kubeshark)
      ensures Value() == cr && this.version == version
    {
      this.version := version;
      id, generation, deleting, spec := cr.id, cr.generation, cr.deleting, cr.spec;
      finalizers, conditions, observedGeneration := cr.finalizers, cr.status.conditions, cr.status.observedGeneration;
    }

    function Value(): Kubeshark
      reads this
    {
      Kubeshark(id, generation, deleting, finalizers, spec, Status(conditions, observedGeneration))
    }

    function ToView(): View {
      View(id, spec)
    }

    method AddFinalizer()
      modifies `finalizers
      ensures Value() == Api.AddFinalizer(old(Value()))
    {
      if FINALIZER !in finalizers {
        finalizers := finalizers + [FINALIZER];
      }
    }

    method RemoveFinalizer()
      modifies `finalizers
      ensures Value() == Api.RemoveFinalizer(old(Value()))
    {
      finalizers := Without(finalizers, FINALIZER);
    }

    method DeepCopy() returns (copy: ResourceCopy)
      ensures fresh(copy) && copy.Value() == Value() && copy.version == version
    {
      copy := new ResourceCopy(Value(), version);
    }
  }

  /** A child in memory, filled by a Get and changed field by field by the callbacks. */
  class ChildObject {
    var owner: Option<OwnerRef>
    var labels: StrMap
    var annotations: StrMap
    var body: Body

    constructor (kind: Kind)
      ensures Value() == Blank(kind)
    {
      owner, labels, annotations, body := None, map[], map[], BlankBody(kind);
    }

    function Value(): Object
      reads this
    {
      Object(owner, labels, annotations, body)
    }

    method Load(o: Object)
      modifies this
      ensures Value() == o
    {
      owner, labels, annotations, body := o.owner, o.labels, o.annotations, o.body;
    }
  }

  // ----- Mutate callbacks -----

  method SetOwner(v: View, obj: ChildObject) returns (err: Option<string>)
    modifies obj`owner
    ensures match SetControllerReference(v, old(obj.Value()))
            case Ok(o) => err == None && obj.Value() == o
            case Err(why) => err == Some(why) && obj.Value() == old(obj.Value())
  {
    if Foreign(v, obj.Value()) {
      return Some("already owned by another controller");
    }
    obj.owner := Some(KubesharkOwner(v.Name(), v.id.uid));
    return None;
  }

  method ShapeConfigMap(v: View, obj: ChildObject)
    requires obj.body.ConfigMap?
    modifies obj`body
    ensures obj.body == ShapeBody(HubConfigMap, v, old(obj.body))
  {
    if v.spec.hubConfigMapData.Some? {
      obj.body := obj.body.(data := Config(v.spec.hubConfigMapData.value));
    } else {
      obj.body := obj.body.(data := DefaultConfig);
    }
  }

  method ShapeHubDeployment(v: View, labels: StrMap, obj: ChildObject)
    requires obj.body.Deployment? && labels == ComponentLabels(v.Name())
    modifies obj`body
    ensures obj.body == ShapeBody(HubDeployment, v, old(obj.body))
  {
    obj.body := obj.body.(replicas := HubReplicas(v.spec), selector := labels);
    var ports := if v.spec.hubContainerPorts.Some? then v.spec.hubContainerPorts.value else [];
    if ports == [] {
      ports := [ContainerPort("", 0, 8080, "", "")];
    }
    var template :=
      PodTemplate(labels, HubServiceAccountName(v), HubContainers, OrElse(v.spec.hubImage, DEFAULT_HUB_IMAGE), ports,
          "");
    obj.body := Deployment(obj.body.replicas, obj.body.selector, template, obj.body.strategy);
  }

  method ShapeFrontendDeployment(v: View, labels: StrMap, obj: ChildObject)
    requires obj.body.Deployment? && labels == ComponentLabels(v.Name())
    modifies obj`body
    ensures obj.body == ShapeBody(FrontendDeployment, v, old(obj.body))
  {
    obj.body := obj.body.(replicas := 1, selector := labels);
    var template :=
      PodTemplate(labels, "", FrontendContainers, OrElse(v.spec.frontendImage, DEFAULT_FRONTEND_IMAGE),
                  [ContainerPort("", 0, 8080, "", "")], "");
    obj.body := Deployment(obj.body.replicas, obj.body.selector, template, obj.body.strategy);
  }

  method ShapeHubService(v: View, labels: StrMap, obj: ChildObject)
    requires obj.body.Service? && labels == ComponentLabels(v.Name())
    modifies obj`body
    ensures obj.body == ShapeBody(HubService, v, old(obj.body))
  {
    obj.body := obj.body.(selector := labels, ports := [ServicePort("", 80, 8080, "")]);
  }

  method ShapeFrontendService(v: View, labels: StrMap, obj: ChildObject)
    requires obj.body.Service? && labels == ComponentLabels(v.Name())
    modifies obj`body
    ensures obj.body == ShapeBody(FrontendService, v, old(obj.body))
  {
    obj.body := obj.body.(serviceType := "ClusterIP", selector := labels);
    obj.body := obj.body.(ports := [ServicePort("http", 80, 8080, "")]);
  }

  method ShapeRole(v: View, obj: ChildObject)
    requires obj.body.ClusterRole?
    modifies obj`body
    ensures obj.body == ShapeBody(OperatorRole, v, old(obj.body))
  {
    if v.spec.clusterRoleRules.Some? && |v.spec.clusterRoleRules.value| > 0 {
      obj.body := obj.body.(roleRules := Rules(v.spec.clusterRoleRules.value));
    } else {
      obj.body := obj.body.(roleRules := DefaultRules);
    }
  }

  method ShapeBinding(v: View, obj: ChildObject)
    requires obj.body.ClusterRoleBinding?
    modifies obj`body
    ensures obj.body == ShapeBody(OperatorBinding, v, old(obj.body))
  {
    obj.body := obj.body.(roleRef := ClusterRoleName(v));
    obj.body := obj.body.(subjects :=
      [Subject(HubServiceAccountName(v), v.Ns()), Subject(WorkerServiceAccountName(v), v.Ns())]);
  }

  method ShapeDaemonSet(v: View, labels: StrMap, obj: ChildObject)
    requires obj.body.DaemonSet? && labels == ComponentLabels(v.Name())
    modifies obj`body
    ensures obj.body == ShapeBody(WorkerDaemonSet, v, old(obj.body))
  {
    var image := OrElse(v.spec.workerImage, DEFAULT_WORKER_IMAGE);
    obj.body := DaemonSet(labels, PodTemplate(labels, WorkerServiceAccountName(v), WorkerContainers, image, [], ""),
        "");
  }

  method ShapeIngress(v: View, obj: ChildObject)
    requires obj.body.Ingress?
    modifies obj`body
    ensures obj.body == ShapeBody(FrontendIngress, v, old(obj.body))
  {
    if v.spec.ingressClassName != "" {
      obj.body := obj.body.(className := Some(v.spec.ingressClassName));
    }
    obj.body := obj.body.(rules := [IngressRule(v.spec.ingressHost, FrontendServiceName(v), 80)]);
  }

  /** Sets the four keys one by one; whatever else `stringData` holds stays. */
  method ShapeSecret(v: View, obj: ChildObject)
    requires obj.body.Secret?
    modifies obj`body
    ensures obj.body == ShapeBody(LicenseSecret, v, old(obj.body))
  {
    var s := v.spec.secret;
    obj.body := obj.body.(secretType := "Opaque");
    var entries := obj.body.stringData;
    entries := entries["LICENSE" := OrElse(s.license, "")];
    entries := entries["SCRIPTING_ENV" := OrElse(s.scriptingEnvJson, "{}")];
    entries := entries["OIDC_CLIENT_ID" := OrElse(s.oidcClientID, "not set")];
    entries := entries["OIDC_CLIENT_SECRET" := OrElse(s.oidcClientSecret, "not set")];
    assert entries == obj.body.stringData + SecretEntries(s);
    obj.body := obj.body.(stringData := entries);
  }

  /** The callback of each child: controller first, then labels, then the fields it owns. */
  method Apply(c: Child, v: View, labels: StrMap, obj: ChildObject) returns (err: Option<string>)
    requires KindOf(obj.body) == KindFor(c) && labels == ComponentLabels(v.Name())
    modifies obj
    ensures match Mutate(c, v, old(obj.Value()))
            case Ok(o) => err == None && obj.Value() == o
            case Err(why) => err == Some(why)
  {
    if Namespaced(c) {
      err := SetOwner(v, obj);
      if err.Some? {
        return;
      }
    }
    obj.labels := labels;
    match c {
      case HubConfigMap => ShapeConfigMap(v, obj);
      case HubServiceAccount =>
      case WorkerServiceAccount =>
      case HubDeployment => ShapeHubDeployment(v, labels, obj);
      case FrontendDeployment => ShapeFrontendDeployment(v, labels, obj);
      case HubService => ShapeHubService(v, labels, obj);
      case FrontendService => ShapeFrontendService(v, labels, obj);
      case OperatorRole => ShapeRole(v, obj);
      case OperatorBinding => ShapeBinding(v, obj);
      case WorkerDaemonSet => ShapeDaemonSet(v, labels, obj);
      case FrontendIngress => ShapeIngress(v, obj);
      case LicenseSecret => ShapeSecret(v, obj);
    }
    return None;
  }
}
