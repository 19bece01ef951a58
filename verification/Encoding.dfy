/** The JSON form of a custom resource (api/v1beta1/kubeshark_types.go), its round trip, and the status patch in it. */
module Encoding {
  import opened Wrappers
  import opened Api
  import opened Objects
  import opened Components
  import opened Laws
  import opened Conditions
  import opened Json

  // ----- Building blocks -----

  /** An object with the given members, those that are present. */
  function Record(names: set<Member>, at: Member -> Option<Json>): (j: Json)
    ensures j.Obj?
    ensures forall f :: Lookup(j.members, f) == if f in names then at(f) else None
  {
    Obj(map f | f in names && at(f).Some? :: at(f).value)
  }

  function Unless(omitted: bool, j: Json): Option<Json> {
    if omitted then None else Some(j)
  }

  function Strings(xs: seq<string>): Json {
    Arr(seq(|xs|, i requires 0 <= i < |xs| => Text(xs[i])))
  }

  function StringMap(m: StrMap): Json {
    Obj(map k | k in m :: Entry(k) := Text(m[k]))
  }

  function TextIn(j: Option<Json>): string {
    if j.Some? && j.value.Text? then j.value.text else ""
  }

  function NumIn(j: Option<Json>): int {
    if j.Some? && j.value.Num? then j.value.number else 0
  }

  function ItemsIn(j: Option<Json>): seq<Json> {
    if j.Some? && j.value.Arr? then j.value.items else []
  }

  function MembersIn(j: Option<Json>): map<Member, Json> {
    if j.Some? && j.value.Obj? then j.value.members else map[]
  }

  function StringsIn(j: Option<Json>): seq<string> {
    var xs := ItemsIn(j);
    seq(|xs|, i requires 0 <= i < |xs| => TextIn(Some(xs[i])))
  }

  function StringMapIn(j: Option<Json>): StrMap {
    var m := MembersIn(j);
    map e | e in m && e.Entry? :: e.text := TextIn(Some(m[e]))
  }

  function Present<T>(j: Option<Json>, value: T): Option<T> {
    if j.Some? then Some(value) else None
  }

  lemma StringsRoundTrip(xs: seq<string>)
    ensures StringsIn(Some(Strings(xs))) == xs
    ensures StringsIn(Unless(xs == [], Strings(xs))) == xs
  {
  }

  lemma StringMapRoundTrip(m: StrMap)
    ensures StringMapIn(Some(StringMap(m))) == m
  {
    var r := StringMapIn(Some(StringMap(m)));
    forall k
      ensures k in r <==> k in m
      ensures k in m ==> r[k] == m[k]
    {
      if k in m { assert Entry(k) in StringMap(m).members; }
    }
  }

  // ----- Rules, ports, the secret -----

  const RULE_MEMBERS: set<Member> := {AsVerbs, AsApiGroups, AsResources, AsResourceNames, AsNonResourceUrls}

  function RuleMember(r: PolicyRule, f: Member): Option<Json> {
    match f
    case AsVerbs => Some(Strings(r.verbs))
    case AsApiGroups => Unless(r.apiGroups == [], Strings(r.apiGroups))
    case AsResources => Unless(r.resources == [], Strings(r.resources))
    case AsResourceNames => Unless(r.resourceNames == [], Strings(r.resourceNames))
    case AsNonResourceUrls => Unless(r.nonResourceUrls == [], Strings(r.nonResourceUrls))
    case _ => None
  }

  function EncodeRule(r: PolicyRule): Json {
    Record(RULE_MEMBERS, f => RuleMember(r, f))
  }

  function DecodeRule(j: Json): PolicyRule {
    var m := MembersIn(Some(j));
    PolicyRule(StringsIn(Lookup(m, AsVerbs)), StringsIn(Lookup(m, AsApiGroups)), StringsIn(Lookup(m, AsResources)),
               StringsIn(Lookup(m, AsResourceNames)), StringsIn(Lookup(m, AsNonResourceUrls)))
  }

  lemma RuleRoundTrip(r: PolicyRule)
    ensures DecodeRule(EncodeRule(r)) == r
  {
    hide Strings, StringsIn, RuleMember, Unless;
    var m := EncodeRule(r).members;
    assert Lookup(m, AsVerbs) == RuleMember(r, AsVerbs) && Lookup(m, AsApiGroups) == RuleMember(r, AsApiGroups);
    assert Lookup(m, AsResources) == RuleMember(r, AsResources);
    assert Lookup(m, AsResourceNames) == RuleMember(r, AsResourceNames);
    assert Lookup(m, AsNonResourceUrls) == RuleMember(r, AsNonResourceUrls);
    RuleMembersRoundTrip(r);
  }

  lemma RuleMembersRoundTrip(r: PolicyRule)
    ensures StringsIn(RuleMember(r, AsVerbs)) == r.verbs
    ensures StringsIn(RuleMember(r, AsApiGroups)) == r.apiGroups && StringsIn(RuleMember(r, AsResources)) == r.resources
    ensures StringsIn(RuleMember(r, AsResourceNames)) == r.resourceNames
    ensures StringsIn(RuleMember(r, AsNonResourceUrls)) == r.nonResourceUrls
  {
    hide Strings, StringsIn, Unless;
    StringsRoundTrip(r.verbs);
    StringsRoundTrip(r.apiGroups);
    StringsRoundTrip(r.resources);
    StringsRoundTrip(r.resourceNames);
    StringsRoundTrip(r.nonResourceUrls);
  }

  function EncodeRules(rs: seq<PolicyRule>): Json {
    Arr(seq(|rs|, i requires 0 <= i < |rs| => EncodeRule(rs[i])))
  }

  function RulesIn(j: Option<Json>): seq<PolicyRule> {
    var xs := ItemsIn(j);
    seq(|xs|, i requires 0 <= i < |xs| => DecodeRule(xs[i]))
  }

  lemma RulesRoundTrip(rs: seq<PolicyRule>)
    ensures RulesIn(Some(EncodeRules(rs))) == rs
  {
    forall i | 0 <= i < |rs|
      ensures DecodeRule(EncodeRule(rs[i])) == rs[i]
    {
      RuleRoundTrip(rs[i]);
    }
  }

  const PORT_MEMBERS: set<Member> := {AsName, AsHostPort, AsContainerPort, AsProtocol, AsHostIP}

  function PortMember(p: ContainerPort, f: Member): Option<Json> {
    match f
    case AsName => Unless(p.name == "", Text(p.name))
    case AsHostPort => Unless(p.hostPort == 0, Num(p.hostPort))
    case AsContainerPort => Some(Num(p.containerPort))
    case AsProtocol => Unless(p.protocol == "", Text(p.protocol))
    case AsHostIP => Unless(p.hostIP == "", Text(p.hostIP))
    case _ => None
  }

  function EncodePort(p: ContainerPort): Json {
    Record(PORT_MEMBERS, f => PortMember(p, f))
  }

  function DecodePort(j: Json): ContainerPort {
    var m := MembersIn(Some(j));
    ContainerPort(TextIn(Lookup(m, AsName)), NumIn(Lookup(m, AsHostPort)), NumIn(Lookup(m, AsContainerPort)),
                  TextIn(Lookup(m, AsProtocol)), TextIn(Lookup(m, AsHostIP)))
  }

  lemma PortRoundTrip(p: ContainerPort)
    ensures DecodePort(EncodePort(p)) == p
  {
  }

  function EncodePorts(ps: seq<ContainerPort>): Json {
    Arr(seq(|ps|, i requires 0 <= i < |ps| => EncodePort(ps[i])))
  }

  function PortsIn(j: Option<Json>): seq<ContainerPort> {
    var xs := ItemsIn(j);
    seq(|xs|, i requires 0 <= i < |xs| => DecodePort(xs[i]))
  }

  lemma PortsRoundTrip(ps: seq<ContainerPort>)
    ensures PortsIn(Some(EncodePorts(ps))) == ps
  {
    forall i | 0 <= i < |ps|
      ensures DecodePort(EncodePort(ps[i])) == ps[i]
    {
      PortRoundTrip(ps[i]);
    }
  }

  const SECRET_MEMBERS: set<Member> := {AsLicense, AsScriptingEnv, AsOidcClientId, AsOidcClientSecret}

  function SecretMember(s: SecretSpec, f: Member): Option<Json> {
    match f
    case AsLicense => Unless(s.license == "", Text(s.license))
    case AsScriptingEnv => Unless(s.scriptingEnvJson == "", Text(s.scriptingEnvJson))
    case AsOidcClientId => Unless(s.oidcClientID == "", Text(s.oidcClientID))
    case AsOidcClientSecret => Unless(s.oidcClientSecret == "", Text(s.oidcClientSecret))
    case _ => None
  }

  function EncodeSecret(s: SecretSpec): Json {
    Record(SECRET_MEMBERS, f => SecretMember(s, f))
  }

  function SecretIn(j: Option<Json>): SecretSpec {
    var m := MembersIn(j);
    SecretSpec(TextIn(Lookup(m, AsLicense)), TextIn(Lookup(m, AsScriptingEnv)),
               TextIn(Lookup(m, AsOidcClientId)), TextIn(Lookup(m, AsOidcClientSecret)))
  }

  lemma SecretRoundTrip(s: SecretSpec)
    ensures SecretIn(Some(EncodeSecret(s))) == s
  {
  }

  // ----- The spec -----

  const SPEC_MEMBERS: set<Member> :=
    {AsHubImage, AsFrontendImage, AsHubReplicas, AsWorkerImage, AsNamespace,
     AsIngressHost, AsIngressClassName, AsIngressName, AsServiceAccountHub, AsServiceAccountWorker,
     AsHubConfigMapData, AsClusterRoleRules, AsClusterRoleName, AsClusterRoleBindingName,
     AsHubDeploymentName, AsHubLabels, AsHubContainerPorts, AsWorkerDaemonSetName, AsWorkerLabels,
     AsHubServiceName, AsHubConfigMapName, AsSecret}

  /** `omitempty`: empty strings, nil pointers and empty maps and slices are left out; a struct never is. */
  function SpecMember(s: Spec, f: Member): Option<Json> {
    match f
    case AsHubImage => Unless(s.hubImage == "", Text(s.hubImage))
    case AsFrontendImage => Unless(s.frontendImage == "", Text(s.frontendImage))
    case AsHubReplicas => if s.hubReplicas.Some? then Some(Num(s.hubReplicas.value)) else None
    case AsWorkerImage => Unless(s.workerImage == "", Text(s.workerImage))
    case AsNamespace => Unless(s.targetNamespace == "", Text(s.targetNamespace))
    case AsIngressHost => Unless(s.ingressHost == "", Text(s.ingressHost))
    case AsIngressClassName => Unless(s.ingressClassName == "", Text(s.ingressClassName))
    case AsIngressName => Unless(s.ingressName == "", Text(s.ingressName))
    case AsServiceAccountHub => Unless(s.serviceAccountHub == "", Text(s.serviceAccountHub))
    case AsServiceAccountWorker => Unless(s.serviceAccountWorker == "", Text(s.serviceAccountWorker))
    case AsHubConfigMapData => MapMember(s.hubConfigMapData)
    case AsClusterRoleRules =>
      if s.clusterRoleRules.Some?
      then Unless(s.clusterRoleRules.value == [], EncodeRules(s.clusterRoleRules.value)) else None
    case AsClusterRoleName => Unless(s.clusterRoleName == "", Text(s.clusterRoleName))
    case AsClusterRoleBindingName => Unless(s.clusterRoleBindingName == "", Text(s.clusterRoleBindingName))
    case AsHubDeploymentName => Unless(s.hubDeploymentName == "", Text(s.hubDeploymentName))
    case AsHubLabels => MapMember(s.hubLabels)
    case AsHubContainerPorts =>
      if s.hubContainerPorts.Some?
      then Unless(s.hubContainerPorts.value == [], EncodePorts(s.hubContainerPorts.value)) else None
    case AsWorkerDaemonSetName => Unless(s.workerDaemonSetName == "", Text(s.workerDaemonSetName))
    case AsWorkerLabels => MapMember(s.workerLabels)
    case AsHubServiceName => Unless(s.hubServiceName == "", Text(s.hubServiceName))
    case AsHubConfigMapName => Unless(s.hubConfigMapName == "", Text(s.hubConfigMapName))
    case AsSecret => Some(EncodeSecret(s.secret))
    case _ => None
  }

  function MapMember(m: Option<StrMap>): Option<Json> {
    if m.Some? then Unless(m.value == map[], StringMap(m.value)) else None
  }

  function EncodeSpec(s: Spec): Json {
    Record(SPEC_MEMBERS, f => SpecMember(s, f))
  }

  function MapIn(j: Option<Json>): Option<StrMap> {
    Present(j, StringMapIn(j))
  }

  function DecodeSpec(j: Json): Spec {
    var m := MembersIn(Some(j));
    Spec(TextIn(Lookup(m, AsHubImage)), TextIn(Lookup(m, AsFrontendImage)),
         Present(Lookup(m, AsHubReplicas), NumIn(Lookup(m, AsHubReplicas))),
         TextIn(Lookup(m, AsWorkerImage)), TextIn(Lookup(m, AsNamespace)),
         TextIn(Lookup(m, AsIngressHost)), TextIn(Lookup(m, AsIngressClassName)), TextIn(Lookup(m, AsIngressName)),
         TextIn(Lookup(m, AsServiceAccountHub)), TextIn(Lookup(m, AsServiceAccountWorker)),
         MapIn(Lookup(m, AsHubConfigMapData)),
         Present(Lookup(m, AsClusterRoleRules), RulesIn(Lookup(m, AsClusterRoleRules))),
         TextIn(Lookup(m, AsClusterRoleName)), TextIn(Lookup(m, AsClusterRoleBindingName)),
         TextIn(Lookup(m, AsHubDeploymentName)), MapIn(Lookup(m, AsHubLabels)),
         Present(Lookup(m, AsHubContainerPorts), PortsIn(Lookup(m, AsHubContainerPorts))),
         TextIn(Lookup(m, AsWorkerDaemonSetName)), MapIn(Lookup(m, AsWorkerLabels)),
         TextIn(Lookup(m, AsHubServiceName)), TextIn(Lookup(m, AsHubConfigMapName)),
         SecretIn(Lookup(m, AsSecret)))
  }

  lemma MapMemberRoundTrip(m: Option<StrMap>)
    ensures MapIn(MapMember(m)) == if m == Some(map[]) then None else m
  {
    if m.Some? { StringMapRoundTrip(m.value); }
  }

  /** A map of members that reads as the encoding of the spec does. */
  ghost predicate Encodes(m: map<Member, Json>, s: Spec) {
    forall f <- SPEC_MEMBERS :: Lookup(m, f) == SpecMember(s, f)
  }

  lemma TextRoundTrip(m: map<Member, Json>, s: Spec, f: Member, text: string)
    requires Encodes(m, s) && f in SPEC_MEMBERS && SpecMember(s, f) == Unless(text == "", Text(text))
    ensures TextIn(Lookup(m, f)) == text
  {
    hide SpecMember;
  }

  lemma ImagesRoundTrip(m: map<Member, Json>, s: Spec)
    requires Encodes(m, s)
    ensures var t := DecodeSpec(Obj(m));
            && t.hubImage == s.hubImage && t.frontendImage == s.frontendImage
            && t.workerImage == s.workerImage && t.targetNamespace == s.targetNamespace
            && t.serviceAccountHub == s.serviceAccountHub
            && t.serviceAccountWorker == s.serviceAccountWorker
  {
    hide Encodes, TextIn, NumIn, MapIn, PortsIn, RulesIn, SecretIn, Unless, Lookup, Present, WriteBack;
    TextRoundTrip(m, s, AsHubImage, s.hubImage);
    TextRoundTrip(m, s, AsFrontendImage, s.frontendImage);
    TextRoundTrip(m, s, AsWorkerImage, s.workerImage);
    TextRoundTrip(m, s, AsNamespace, s.targetNamespace);
    TextRoundTrip(m, s, AsServiceAccountHub, s.serviceAccountHub);
    TextRoundTrip(m, s, AsServiceAccountWorker, s.serviceAccountWorker);
  }

  lemma ClusterNamesRoundTrip(m: map<Member, Json>, s: Spec)
    requires Encodes(m, s)
    ensures var t := DecodeSpec(Obj(m));
            && t.ingressHost == s.ingressHost && t.ingressClassName == s.ingressClassName
            && t.ingressName == s.ingressName && t.clusterRoleName == s.clusterRoleName
            && t.clusterRoleBindingName == s.clusterRoleBindingName
  {
    hide Encodes, TextIn, NumIn, MapIn, PortsIn, RulesIn, SecretIn, Unless, Lookup, Present, WriteBack;
    TextRoundTrip(m, s, AsIngressHost, s.ingressHost);
    TextRoundTrip(m, s, AsIngressClassName, s.ingressClassName);
    TextRoundTrip(m, s, AsIngressName, s.ingressName);
    TextRoundTrip(m, s, AsClusterRoleName, s.clusterRoleName);
    TextRoundTrip(m, s, AsClusterRoleBindingName, s.clusterRoleBindingName);
  }

  lemma ObjectNamesRoundTrip(m: map<Member, Json>, s: Spec)
    requires Encodes(m, s)
    ensures var t := DecodeSpec(Obj(m));
            && t.hubDeploymentName == s.hubDeploymentName
            && t.workerDaemonSetName == s.workerDaemonSetName && t.hubServiceName == s.hubServiceName
            && t.hubConfigMapName == s.hubConfigMapName
  {
    hide Encodes, TextIn, NumIn, MapIn, PortsIn, RulesIn, SecretIn, Unless, Lookup, Present, WriteBack;
    TextRoundTrip(m, s, AsHubDeploymentName, s.hubDeploymentName);
    TextRoundTrip(m, s, AsWorkerDaemonSetName, s.workerDaemonSetName);
    TextRoundTrip(m, s, AsHubServiceName, s.hubServiceName);
    TextRoundTrip(m, s, AsHubConfigMapName, s.hubConfigMapName);
  }

  lemma MapRoundTrip(m: map<Member, Json>, s: Spec, f: Member, value: Option<StrMap>)
    requires Encodes(m, s) && f in SPEC_MEMBERS && SpecMember(s, f) == MapMember(value)
    ensures MapIn(Lookup(m, f)) == if value == Some(map[]) then None else value
  {
    hide SpecMember, MapIn, MapMember, Lookup;
    EncodedMember(m, s, f);
    MapMemberRoundTrip(value);
  }

  lemma MapsRoundTrip(m: map<Member, Json>, s: Spec)
    requires Encodes(m, s)
    ensures var t, u := DecodeSpec(Obj(m)), WriteBack(s);
            t.hubConfigMapData == u.hubConfigMapData && t.hubLabels == u.hubLabels && t.workerLabels == u.workerLabels
  {
    hide RulesIn, PortsIn, SecretIn, MapIn, MapMember, TextIn, NumIn, Encodes, Lookup, Present;
    MapRoundTrip(m, s, AsHubConfigMapData, s.hubConfigMapData);
    MapRoundTrip(m, s, AsHubLabels, s.hubLabels);
    MapRoundTrip(m, s, AsWorkerLabels, s.workerLabels);
  }

  lemma EncodedMember(m: map<Member, Json>, s: Spec, f: Member)
    requires Encodes(m, s) && f in SPEC_MEMBERS
    ensures Lookup(m, f) == SpecMember(s, f)
  {
  }

  lemma RulesMemberRoundTrip(m: map<Member, Json>, s: Spec)
    requires Encodes(m, s)
    ensures DecodeSpec(Obj(m)).clusterRoleRules == WriteBack(s).clusterRoleRules
  {
    hide EncodeRules, RulesIn, PortsIn, SecretIn, MapIn, TextIn, NumIn, Encodes, Lookup;
    EncodedMember(m, s, AsClusterRoleRules);
    if s.clusterRoleRules.Some? { RulesRoundTrip(s.clusterRoleRules.value); }
  }

  lemma PortsMemberRoundTrip(m: map<Member, Json>, s: Spec)
    requires Encodes(m, s)
    ensures DecodeSpec(Obj(m)).hubContainerPorts == WriteBack(s).hubContainerPorts
  {
    hide EncodePorts, RulesIn, PortsIn, SecretIn, MapIn, TextIn, NumIn, Encodes, Lookup;
    EncodedMember(m, s, AsHubContainerPorts);
    if s.hubContainerPorts.Some? { PortsRoundTrip(s.hubContainerPorts.value); }
  }

  lemma RestRoundTrip(m: map<Member, Json>, s: Spec)
    requires Encodes(m, s)
    ensures DecodeSpec(Obj(m)).hubReplicas == s.hubReplicas && DecodeSpec(Obj(m)).secret == s.secret
  {
    hide RulesIn, PortsIn, EncodeSecret, SecretIn, MapIn, TextIn, Encodes, Lookup, WriteBack;
    EncodedMember(m, s, AsHubReplicas);
    EncodedMember(m, s, AsSecret);
    SecretRoundTrip(s.secret);
  }

  /** Encoding and decoding a spec loses only the difference between an empty map or slice and none. */
  lemma SpecRoundTrip(s: Spec)
    ensures DecodeSpec(EncodeSpec(s)) == WriteBack(s)
    ensures var t := DecodeSpec(EncodeSpec(s));
            && t.hubConfigMapData == (if s.hubConfigMapData == Some(map[]) then None else s.hubConfigMapData)
            && t.clusterRoleRules == (if s.clusterRoleRules == Some([]) then None else s.clusterRoleRules)
            && t.hubLabels == (if s.hubLabels == Some(map[]) then None else s.hubLabels)
            && t.hubContainerPorts == (if s.hubContainerPorts == Some([]) then None else s.hubContainerPorts)
            && t.workerLabels == (if s.workerLabels == Some(map[]) then None else s.workerLabels)
            && s == t.(hubConfigMapData := s.hubConfigMapData, clusterRoleRules := s.clusterRoleRules,
                       hubLabels := s.hubLabels, hubContainerPorts := s.hubContainerPorts,
                       workerLabels := s.workerLabels)
  {
    hide DecodeSpec, SpecMember, Record;
    var m := EncodeSpec(s).members;
    assert Encodes(m, s);
    ImagesRoundTrip(m, s);
    ClusterNamesRoundTrip(m, s);
    ObjectNamesRoundTrip(m, s);
    MapsRoundTrip(m, s);
    RulesMemberRoundTrip(m, s);
    PortsMemberRoundTrip(m, s);
    RestRoundTrip(m, s);
  }

  /** What writing a resource back may change in its children: the key, the callback and the result of each step. */
  ghost predicate SameChildren(v: View, w: View) {
    forall c, x: Option<Object> :: SameChild(c, v, w, x)
  }

  ghost predicate SameChild(c: Child, v: View, w: View, x: Option<Object>) {
    KeyOf(c, v) == KeyOf(c, w) && Put(c, v, x) == Put(c, w, x) && (Blocked(c, v, x) <==> Blocked(c, w, x))
  }

  lemma WriteBackSameShape(id: CrId, s: Spec, c: Child, b: Body)
    requires s.hubConfigMapData != Some(map[])
    ensures ShapeBody(c, View(id, s), b) == ShapeBody(c, View(id, WriteBack(s)), b)
  {
    hide Typed;
    var v, w := View(id, s), View(id, WriteBack(s));
    assert HubTemplate(v) == HubTemplate(w);
    assert RulesFor(v.spec) == RulesFor(w.spec) && HubConfig(v.spec) == HubConfig(w.spec);
  }

  lemma WriteBackSameChild(id: CrId, s: Spec, c: Child, x: Option<Object>)
    requires s.hubConfigMapData != Some(map[])
    ensures SameChild(c, View(id, s), View(id, WriteBack(s)), x)
  {
    hide Put, FieldBlocks, KeyOf;
    WriteBackSameKey(id, s, c);
    WriteBackSamePut(id, s, c, x);
    WriteBackSameFields(id, s, c, x);
  }

  lemma WriteBackSameKey(id: CrId, s: Spec, c: Child)
    ensures KeyOf(c, View(id, s)) == KeyOf(c, View(id, WriteBack(s)))
  {
  }

  lemma WriteBackSamePut(id: CrId, s: Spec, c: Child, x: Option<Object>)
    requires s.hubConfigMapData != Some(map[])
    ensures Put(c, View(id, s), x) == Put(c, View(id, WriteBack(s)), x)
  {
    hide Admit, ShapeBody, KeyOf;
    WriteBackSameKey(id, s, c);
    WriteBackSameShape(id, s, c, Found(c, x).body);
  }

  lemma WriteBackSameFields(id: CrId, s: Spec, c: Child, x: Option<Object>)
    requires s.hubConfigMapData != Some(map[])
    ensures FieldBlocks(c, View(id, s), x) <==> FieldBlocks(c, View(id, WriteBack(s)), x)
  {
    hide ImmutableKept, ShapeBody;
    if x.Some? { WriteBackSameShape(id, s, c, x.value.body); }
  }

  /** A write-back preserves every desired child exactly when the hub config data is not empty-but-present. */
  lemma WriteBackKeepsChildren(id: CrId, s: Spec)
    ensures SameChildren(View(id, s), View(id, WriteBack(s))) <==> s.hubConfigMapData != Some(map[])
  {
    hide Put, Blocked, KeyOf;
    var v, w := View(id, s), View(id, WriteBack(s));
    if s.hubConfigMapData != Some(map[]) {
      forall c, x: Option<Object>
        ensures SameChild(c, v, w, x)
      {
        WriteBackSameChild(id, s, c, x);
      }
    } else {
      PutConforms(HubConfigMap, v, None);
      PutConforms(HubConfigMap, w, None);
      assert !SameChild(HubConfigMap, v, w, None);
    }
  }

  // ----- The status -----

  const CONDITION_MEMBERS: set<Member> :=
    {AsType, AsStatus, AsReason, AsMessage, AsObservedGeneration, AsTransition}

  function ConditionMember(c: Condition, f: Member): Option<Json> {
    match f
    case AsType => Some(Text(c.kind))
    case AsStatus => Some(Text(if c.status then "True" else "False"))
    case AsReason => Some(Text(c.reason))
    case AsMessage => Some(Text(c.message))
    case AsObservedGeneration => Unless(c.observedGeneration == 0, Num(c.observedGeneration))
    case AsTransition => Some(Num(c.since))
    case _ => None
  }

  function EncodeCondition(c: Condition): Json {
    Record(CONDITION_MEMBERS, f => ConditionMember(c, f))
  }

  function EncodeConditions(cs: seq<Condition>): (j: Json)
    ensures j.Arr?
  {
    Arr(seq(|cs|, i requires 0 <= i < |cs| => EncodeCondition(cs[i])))
  }

  lemma EncodeConditionInjective(c: Condition, d: Condition)
    requires EncodeCondition(c) == EncodeCondition(d)
    ensures c == d
  {
    var m, n := EncodeCondition(c).members, EncodeCondition(d).members;
    forall f <- CONDITION_MEMBERS
      ensures ConditionMember(c, f) == ConditionMember(d, f)
    {
      assert Lookup(m, f) == Lookup(n, f);
    }
    assert ConditionMember(c, AsType) == ConditionMember(d, AsType);
    assert ConditionMember(c, AsStatus) == ConditionMember(d, AsStatus);
    assert |"True"| != |"False"|;
    assert ConditionMember(c, AsReason) == ConditionMember(d, AsReason);
    assert ConditionMember(c, AsMessage) == ConditionMember(d, AsMessage);
    assert ConditionMember(c, AsObservedGeneration) == ConditionMember(d, AsObservedGeneration);
    assert ConditionMember(c, AsTransition) == ConditionMember(d, AsTransition);
  }

  lemma EncodeConditionsInjective(cs: seq<Condition>, ds: seq<Condition>)
    requires EncodeConditions(cs) == EncodeConditions(ds)
    ensures cs == ds
  {
    var xs, ys := EncodeConditions(cs).items, EncodeConditions(ds).items;
    assert |cs| == |xs| == |ys| == |ds|;
    forall i | 0 <= i < |cs|
      ensures cs[i] == ds[i]
    {
      assert xs[i] == ys[i];
      EncodeConditionInjective(cs[i], ds[i]);
    }
  }

  const STATUS_MEMBERS: set<Member> := {AsConditions, AsObservedGeneration}

  function StatusMember(s: Status, f: Member): Option<Json> {
    match f
    case AsConditions => Unless(s.conditions == [], EncodeConditions(s.conditions))
    case AsObservedGeneration => Unless(s.observedGeneration == 0, Num(s.observedGeneration))
    case _ => None
  }

  function EncodeStatus(s: Status): (j: Json)
    ensures j.Obj?
  {
    Record(STATUS_MEMBERS, f => StatusMember(s, f))
  }

  // ----- The resource -----

  const META_MEMBERS: set<Member> := {AsName, AsNamespace, AsUid, AsGeneration, AsDeletion, AsFinalizers}

  function MetaMember(id: CrId, generation: nat, deleting: bool, finalizers: seq<string>, f: Member): Option<Json> {
    match f
    case AsName => Unless(id.key.name == "", Text(id.key.name))
    case AsNamespace => Unless(id.key.ns == "", Text(id.key.ns))
    case AsUid => Some(Num(id.uid))
    case AsGeneration => Unless(generation == 0, Num(generation))
    case AsDeletion => Unless(!deleting, Bool(true))
    case AsFinalizers => Unless(finalizers == [], Strings(finalizers))
    case _ => None
  }

  function EncodeMeta(id: CrId, generation: nat, deleting: bool, finalizers: seq<string>): Json {
    Record(META_MEMBERS, f => MetaMember(id, generation, deleting, finalizers, f))
  }

  const CR_MEMBERS: set<Member> := {AsMetadata, AsSpec, AsStatus}

  /** `omitzero`: a zero status is left out altogether. */
  function CrMember(cr: Kubeshark, f: Member): Option<Json> {
    match f
    case AsMetadata => Some(EncodeMeta(cr.id, cr.generation, cr.deleting, cr.finalizers))
    case AsSpec => Some(EncodeSpec(cr.spec))
    case AsStatus => Unless(cr.status == EMPTY_STATUS, EncodeStatus(cr.status))
    case _ => None
  }

  function EncodeCr(cr: Kubeshark): (j: Json)
    ensures j.Obj?
  {
    Record(CR_MEMBERS, f => CrMember(cr, f))
  }

  // ----- The status patch -----

  lemma RecordNullFree(names: set<Member>, at: Member -> Option<Json>)
    requires forall f <- names :: at(f).Some? ==> NullFree(at(f).value)
    ensures NullFree(Record(names, at))
  {
    var m := Record(names, at).members;
    forall f <- m
      ensures NullFree(m[f])
    {
      assert Lookup(m, f) == at(f);
    }
  }

  lemma StringMapNullFree(m: StrMap)
    ensures NullFree(StringMap(m))
  {
  }

  lemma SpecMemberNullFree(s: Spec, f: Member)
    ensures SpecMember(s, f).Some? ==> NullFree(SpecMember(s, f).value)
  {
    hide StringMap, EncodeSecret;
    if s.hubConfigMapData.Some? { StringMapNullFree(s.hubConfigMapData.value); }
    if s.hubLabels.Some? { StringMapNullFree(s.hubLabels.value); }
    if s.workerLabels.Some? { StringMapNullFree(s.workerLabels.value); }
    SecretNullFree(s.secret);
  }

  lemma SecretNullFree(s: SecretSpec)
    ensures NullFree(EncodeSecret(s))
  {
    hide NullFree;
    forall f
      ensures SecretMember(s, f).Some? ==> NullFree(SecretMember(s, f).value)
    {
      SecretMemberNullFree(s, f);
    }
    RecordNullFree(SECRET_MEMBERS, f => SecretMember(s, f));
  }

  lemma SecretMemberNullFree(s: SecretSpec, f: Member)
    ensures SecretMember(s, f).Some? ==> NullFree(SecretMember(s, f).value)
  {
  }

  lemma SpecNullFree(s: Spec)
    ensures NullFree(EncodeSpec(s))
  {
    hide NullFree, SpecMember;
    forall f <- SPEC_MEMBERS
      ensures SpecMember(s, f).Some? ==> NullFree(SpecMember(s, f).value)
    {
      SpecMemberNullFree(s, f);
    }
    RecordNullFree(SPEC_MEMBERS, f => SpecMember(s, f));
  }

  lemma MetaNullFree(id: CrId, generation: nat, deleting: bool, finalizers: seq<string>)
    ensures NullFree(EncodeMeta(id, generation, deleting, finalizers))
  {
    RecordNullFree(META_MEMBERS, f => MetaMember(id, generation, deleting, finalizers, f));
  }

  lemma StatusNullFree(s: Status)
    ensures NullFree(EncodeStatus(s))
  {
    hide EncodeConditions;
    RecordNullFree(STATUS_MEMBERS, f => StatusMember(s, f));
  }

  /** The JSON form of a resource holds no null, so a computed patch turns any resource into any other. */
  lemma ResourcesArePatchable(before: Kubeshark, after: Kubeshark)
    ensures MergePatch(EncodeCr(before), Diff(EncodeCr(before), EncodeCr(after))) == EncodeCr(after)
  {
    hide MergePatch, Diff, EncodeMeta, EncodeSpec, EncodeStatus;
    SpecNullFree(after.spec);
    MetaNullFree(after.id, after.generation, after.deleting, after.finalizers);
    StatusNullFree(after.status);
    RecordNullFree(CR_MEMBERS, f => CrMember(after, f));
    DiffThenPatch(EncodeCr(before), EncodeCr(after));
  }

  /** Patching the status of a resource, member by member. */
  lemma StatusPatchMember(stored: Status, orig: Status, changed: Status, f: Member)
    requires f in STATUS_MEMBERS
    ensures Lookup(MergePatch(EncodeStatus(stored), Diff(EncodeStatus(orig), EncodeStatus(changed))).members, f)
            == StatusMember(PatchStatus(stored, orig, changed), f)
  {
    hide EncodeConditions, MergePatch, Diff;
    var a, b := EncodeStatus(orig), EncodeStatus(changed);
    assert Lookup(a.members, f) == StatusMember(orig, f);
    assert Lookup(b.members, f) == StatusMember(changed, f);
    assert Lookup(EncodeStatus(stored).members, f) == StatusMember(stored, f);
    PatchedElsewhere(EncodeStatus(stored), a, b, f);
    StatusMembersInjective(orig, changed);
  }

  lemma StatusMembersInjective(s: Status, t: Status)
    ensures StatusMember(s, AsConditions) == StatusMember(t, AsConditions) ==> s.conditions == t.conditions
    ensures StatusMember(s, AsObservedGeneration) == StatusMember(t, AsObservedGeneration) ==>
              s.observedGeneration == t.observedGeneration
  {
    if StatusMember(s, AsConditions) == StatusMember(t, AsConditions) && s.conditions != [] {
      EncodeConditionsInjective(s.conditions, t.conditions);
    }
  }

  /** Whether or not there was a status before, patching it in merges member by member. */
  lemma StatusPatched(stored: Status, orig: Status, changed: Status)
    ensures MergePatch(EncodeStatus(stored), Diff(EncodeStatus(orig), EncodeStatus(changed)))
            == EncodeStatus(PatchStatus(stored, orig, changed))
  {
    hide MergePatch, PatchStatus, StatusMember;
    var a, b, t := EncodeStatus(orig), EncodeStatus(changed), EncodeStatus(stored);
    var r, e := MergePatch(t, Diff(a, b)), EncodeStatus(PatchStatus(stored, orig, changed));
    forall f
      ensures f in r.members <==> f in e.members
      ensures f in r.members ==> r.members[f] == e.members[f]
    {
      if f in STATUS_MEMBERS {
        StatusPatchMember(stored, orig, changed, f);
        assert Lookup(r.members, f) == Lookup(e.members, f);
      } else {
        OutsideRecord(t, a, b, f);
      }
    }
    assert r.members == e.members;
  }

  lemma OutsideRecord(target: Json, a: Json, b: Json, f: Member)
    requires target.Obj? && a.Obj? && b.Obj?
    requires f !in target.members && f !in a.members && f !in b.members
    ensures f !in MergePatch(target, Diff(a, b)).members
  {
  }

  lemma SameOutsideStatus(cr: Kubeshark, status: Status, f: Member)
    requires f != AsStatus
    ensures Lookup(EncodeCr(cr).members, f) == Lookup(EncodeCr(cr.(status := status)).members, f)
  {
    hide EncodeMeta, EncodeSpec, EncodeStatus;
  }

  lemma Untouched(target: Json, patch: Json, f: Member)
    requires target.Obj? && patch.Obj? && f !in patch.members
    ensures Lookup(MergePatch(target, patch).members, f) == Lookup(target.members, f)
  {
  }

  lemma ReportsAreNotZero(cr: Kubeshark, verdict: Verdict, now: nat)
    ensures ReportedStatus(cr, verdict, now).conditions != []
    ensures ReportedStatus(cr, verdict, now).observedGeneration == cr.generation
  {
  }

  lemma EncodeStatusInjective(s: Status, t: Status)
    requires EncodeStatus(s) == EncodeStatus(t)
    ensures s == t
  {
    hide EncodeConditions;
    var m, n := EncodeStatus(s).members, EncodeStatus(t).members;
    assert Lookup(m, AsConditions) == StatusMember(s, AsConditions);
    assert Lookup(n, AsConditions) == StatusMember(t, AsConditions);
    assert Lookup(m, AsObservedGeneration) == StatusMember(s, AsObservedGeneration);
    assert Lookup(n, AsObservedGeneration) == StatusMember(t, AsObservedGeneration);
    StatusMembersInjective(s, t);
  }

  lemma NoStatusIsEmpty()
    ensures EncodeStatus(EMPTY_STATUS) == Obj(map[])
  {
    var m := EncodeStatus(EMPTY_STATUS).members;
    forall f
      ensures f !in m
    {
      assert Lookup(m, f) == None;
    }
    assert m == map[];
  }

  lemma DiffFromEmpty(b: Json)
    requires b.Obj?
    ensures Diff(Obj(map[]), b) == b
  {
    assert Diff(Obj(map[]), b).members == b.members;
  }

  /** The status part of the patch is the patch of the status parts, also where one of them is left out. */
  lemma StatusDiff(cr: Kubeshark, status: Status)
    requires status.conditions != []
    ensures var patch := Diff(EncodeCr(cr), EncodeCr(cr.(status := status)));
            Lookup(patch.members, AsStatus) ==
            if cr.status == status then None else Some(Diff(EncodeStatus(cr.status), EncodeStatus(status)))
  {
    hide EncodeStatus, EncodeMeta, EncodeSpec;
    var a, b := EncodeCr(cr), EncodeCr(cr.(status := status));
    var x, y := EncodeStatus(cr.status), EncodeStatus(status);
    assert Lookup(a.members, AsStatus) == CrMember(cr, AsStatus);
    assert Lookup(b.members, AsStatus) == Some(y);
    DiffEmptyIffSame(x, y);
    if x == y { EncodeStatusInjective(cr.status, status); }
    if cr.status == EMPTY_STATUS {
      NoStatusIsEmpty();
      DiffFromEmpty(y);
    }
  }

  lemma StatusMemberPatched(stored: Kubeshark, cr: Kubeshark, status: Status)
    requires status.conditions != [] && status.observedGeneration != 0
    ensures var patch := Diff(EncodeCr(cr), EncodeCr(cr.(status := status)));
            var want := EncodeCr(stored.(status := PatchStatus(stored.status, cr.status, status)));
            Lookup(MergePatch(EncodeCr(stored), patch).members, AsStatus) == Lookup(want.members, AsStatus)
  {
    hide EncodeStatus, EncodeMeta, EncodeSpec, Diff;
    var patch := Diff(EncodeCr(cr), EncodeCr(cr.(status := status)));
    var s' := PatchStatus(stored.status, cr.status, status);
    var t := EncodeCr(stored);
    assert Lookup(t.members, AsStatus) == CrMember(stored, AsStatus);
    assert Lookup(EncodeCr(stored.(status := s')).members, AsStatus) == CrMember(stored.(status := s'), AsStatus);
    StatusDiff(cr, status);
    NoStatusIsEmpty();
    StatusPatched(stored.status, cr.status, status);
  }

  /**
   The status patch is exact. The patch between the copy and the copy with its status set mentions nothing but
   the status, whatever else was changed in memory before the copy was taken; and applying it to the stored
   resource, however that has moved on, gives the stored resource with each status member taken from the
   intended status where it differs from the copy's, and kept otherwise.
   */
  lemma StatusPatchIsExact(stored: Kubeshark, cr: Kubeshark, verdict: Verdict, now: nat)
    requires cr.generation > 0
    ensures var status := ReportedStatus(cr, verdict, now);
            var patch := Diff(EncodeCr(cr), EncodeCr(cr.(status := status)));
            && patch.members.Keys <= {AsStatus}
            && MergePatch(EncodeCr(stored), patch)
               == EncodeCr(stored.(status := PatchStatus(stored.status, cr.status, status)))
  {
    hide MergePatch, PatchStatus, EncodeSpec, EncodeMeta, EncodeStatus, ReportedStatus, EncodeCr, Diff;
    var status := ReportedStatus(cr, verdict, now);
    ReportsAreNotZero(cr, verdict, now);
    var changed := cr.(status := status);
    var a, b, t := EncodeCr(cr), EncodeCr(changed), EncodeCr(stored);
    var patch := Diff(a, b);
    forall f <- patch.members
      ensures f == AsStatus
    {
      DiffTouches(a, b, f);
      if f != AsStatus { SameOutsideStatus(cr, status, f); }
    }
    var want := EncodeCr(stored.(status := PatchStatus(stored.status, cr.status, status)));
    var r := MergePatch(t, patch);
    forall f
      ensures f in r.members <==> f in want.members
      ensures f in r.members ==> r.members[f] == want.members[f]
    {
      if f == AsStatus {
        StatusMemberPatched(stored, cr, status);
      } else {
        Untouched(t, patch, f);
        SameOutsideStatus(stored, PatchStatus(stored.status, cr.status, status), f);
      }
      assert Lookup(r.members, f) == Lookup(want.members, f);
    }
    assert r.members == want.members;
  }


  // ----- Each member by its name -----

  /** A text, left out where it is empty. */
  predicate IsText(j: Option<Json>, text: string) {
    if text == "" then j.None? else j == Some(Text(text))
  }

  predicate IsNumber(j: Option<Json>, n: int) {
    if n == 0 then j.None? else j == Some(Num(n))
  }

  predicate IsList(j: Json, xs: seq<string>) {
    j.Arr? && |j.items| == |xs| && forall i :: 0 <= i < |xs| ==> j.items[i] == Text(xs[i])
  }

  predicate IsListOrNone(j: Option<Json>, xs: seq<string>) {
    if xs == [] then j.None? else j.Some? && IsList(j.value, xs)
  }

  ghost predicate IsStringMap(j: Option<Json>, m: Option<StrMap>) {
    if m == None || m == Some(map[]) then j.None?
    else
      && j.Some? && j.value.Obj?
      && (forall k <- m.value :: Lookup(j.value.members, Entry(k)) == Some(Text(m.value[k])))
      && (forall e <- j.value.members :: e.Entry? && e.text in m.value)
  }

  predicate IsRule(j: Json, r: PolicyRule) {
    && j.Obj? && Lookup(j.members, AsVerbs).Some? && IsList(j.members[AsVerbs], r.verbs)
    && IsListOrNone(Lookup(j.members, AsApiGroups), r.apiGroups)
    && IsListOrNone(Lookup(j.members, AsResources), r.resources)
    && IsListOrNone(Lookup(j.members, AsResourceNames), r.resourceNames)
    && IsListOrNone(Lookup(j.members, AsNonResourceUrls), r.nonResourceUrls)
  }

  predicate IsPort(j: Json, p: ContainerPort) {
    && j.Obj? && Lookup(j.members, AsContainerPort) == Some(Num(p.containerPort))
    && IsText(Lookup(j.members, AsName), p.name) && IsNumber(Lookup(j.members, AsHostPort), p.hostPort)
    && IsText(Lookup(j.members, AsProtocol), p.protocol) && IsText(Lookup(j.members, AsHostIP), p.hostIP)
  }

  predicate IsSecret(j: Option<Json>, s: SecretSpec) {
    && j.Some? && j.value.Obj?
    && IsText(Lookup(j.value.members, AsLicense), s.license)
    && IsText(Lookup(j.value.members, AsScriptingEnv), s.scriptingEnvJson)
    && IsText(Lookup(j.value.members, AsOidcClientId), s.oidcClientID)
    && IsText(Lookup(j.value.members, AsOidcClientSecret), s.oidcClientSecret)
  }

  ghost predicate HoldsTexts(m: map<Member, Json>, s: Spec) {
    && IsText(Lookup(m, AsHubImage), s.hubImage) && IsText(Lookup(m, AsFrontendImage), s.frontendImage)
    && IsText(Lookup(m, AsWorkerImage), s.workerImage) && IsText(Lookup(m, AsNamespace), s.targetNamespace)
    && IsText(Lookup(m, AsIngressHost), s.ingressHost)
    && IsText(Lookup(m, AsIngressClassName), s.ingressClassName)
  }

  ghost predicate HoldsNames(m: map<Member, Json>, s: Spec) {
    && IsText(Lookup(m, AsIngressName), s.ingressName)
    && IsText(Lookup(m, AsServiceAccountHub), s.serviceAccountHub)
    && IsText(Lookup(m, AsServiceAccountWorker), s.serviceAccountWorker)
    && IsText(Lookup(m, AsClusterRoleName), s.clusterRoleName)
    && IsText(Lookup(m, AsClusterRoleBindingName), s.clusterRoleBindingName)
    && IsText(Lookup(m, AsHubDeploymentName), s.hubDeploymentName)
    && IsText(Lookup(m, AsWorkerDaemonSetName), s.workerDaemonSetName)
    && IsText(Lookup(m, AsHubServiceName), s.hubServiceName)
    && IsText(Lookup(m, AsHubConfigMapName), s.hubConfigMapName)
  }

  ghost predicate HoldsRest(m: map<Member, Json>, s: Spec) {
    && Lookup(m, AsHubReplicas) == (if s.hubReplicas.Some? then Some(Num(s.hubReplicas.value)) else None)
    && IsStringMap(Lookup(m, AsHubConfigMapData), s.hubConfigMapData)
    && IsStringMap(Lookup(m, AsHubLabels), s.hubLabels)
    && IsStringMap(Lookup(m, AsWorkerLabels), s.workerLabels)
    && IsSecret(Lookup(m, AsSecret), s.secret)
    && var rules, ports := Lookup(m, AsClusterRoleRules), Lookup(m, AsHubContainerPorts);
       && (if s.clusterRoleRules == None || s.clusterRoleRules == Some([]) then rules.None?
           else rules.Some? && rules.value.Arr? && |rules.value.items| == |s.clusterRoleRules.value|
                && forall i :: 0 <= i < |rules.value.items| ==>
                     IsRule(rules.value.items[i], s.clusterRoleRules.value[i]))
       && (if s.hubContainerPorts == None || s.hubContainerPorts == Some([]) then ports.None?
           else ports.Some? && ports.value.Arr? && |ports.value.items| == |s.hubContainerPorts.value|
                && forall i :: 0 <= i < |ports.value.items| ==>
                     IsPort(ports.value.items[i], s.hubContainerPorts.value[i]))
  }

  predicate IsCondition(j: Json, c: Condition) {
    && j.Obj? && Lookup(j.members, AsType) == Some(Text(c.kind))
    && Lookup(j.members, AsStatus) == Some(Text(if c.status then "True" else "False"))
    && Lookup(j.members, AsReason) == Some(Text(c.reason)) && Lookup(j.members, AsMessage) == Some(Text(c.message))
    && IsNumber(Lookup(j.members, AsObservedGeneration), c.observedGeneration)
    && Lookup(j.members, AsTransition) == Some(Num(c.since))
  }

  ghost predicate HoldsStatus(m: map<Member, Json>, s: Status) {
    && IsNumber(Lookup(m, AsObservedGeneration), s.observedGeneration)
    && var cs := Lookup(m, AsConditions);
       if s.conditions == [] then cs.None?
       else cs.Some? && cs.value.Arr? && |cs.value.items| == |s.conditions|
            && forall i :: 0 <= i < |s.conditions| ==> IsCondition(cs.value.items[i], s.conditions[i])
  }

  lemma RuleHolds(r: PolicyRule)
    ensures IsRule(EncodeRule(r), r)
  {
    hide Strings, IsList, IsListOrNone, RuleMember;
    var m := EncodeRule(r).members;
    assert Lookup(m, AsVerbs) == RuleMember(r, AsVerbs) && Lookup(m, AsApiGroups) == RuleMember(r, AsApiGroups);
    assert Lookup(m, AsResources) == RuleMember(r, AsResources);
    assert Lookup(m, AsResourceNames) == RuleMember(r, AsResourceNames);
    assert Lookup(m, AsNonResourceUrls) == RuleMember(r, AsNonResourceUrls);
    RuleMembersHold(r);
  }

  lemma RuleMembersHold(r: PolicyRule)
    ensures RuleMember(r, AsVerbs).Some? && IsList(RuleMember(r, AsVerbs).value, r.verbs)
    ensures IsListOrNone(RuleMember(r, AsApiGroups), r.apiGroups)
    ensures IsListOrNone(RuleMember(r, AsResources), r.resources)
    ensures IsListOrNone(RuleMember(r, AsResourceNames), r.resourceNames)
    ensures IsListOrNone(RuleMember(r, AsNonResourceUrls), r.nonResourceUrls)
  {
  }

  lemma ListHolds(xs: seq<string>)
    ensures IsList(Strings(xs), xs)
  {
  }

  lemma MapHolds(m: Option<StrMap>)
    ensures IsStringMap(MapMember(m), m)
  {
    if m.Some? && m.value != map[] {
      forall k <- m.value
        ensures Lookup(StringMap(m.value).members, Entry(k)) == Some(Text(m.value[k]))
      {
        assert Entry(k) in StringMap(m.value).members;
      }
    }
  }

  lemma RestHolds(m: map<Member, Json>, s: Spec)
    requires Encodes(m, s)
    ensures HoldsRest(m, s)
  {
    hide SpecMember, MapMember, IsStringMap, EncodeRule, IsRule, EncodePort, IsPort, EncodeSecret, IsSecret;
    EncodedRest(m, s);
    MapHolds(s.hubConfigMapData);
    MapHolds(s.hubLabels);
    MapHolds(s.workerLabels);
    assert IsSecret(Some(EncodeSecret(s.secret)), s.secret) by { SecretHolds(s.secret); }
    forall r: PolicyRule
      ensures IsRule(EncodeRule(r), r)
    {
      RuleHolds(r);
    }
    forall p: ContainerPort
      ensures IsPort(EncodePort(p), p)
    {
      PortHolds(p);
    }
  }

  lemma EncodedRest(m: map<Member, Json>, s: Spec)
    requires Encodes(m, s)
    ensures Lookup(m, AsHubReplicas) == if s.hubReplicas.Some? then Some(Num(s.hubReplicas.value)) else None
    ensures Lookup(m, AsHubConfigMapData) == MapMember(s.hubConfigMapData)
    ensures Lookup(m, AsHubLabels) == MapMember(s.hubLabels) && Lookup(m, AsWorkerLabels) == MapMember(s.workerLabels)
    ensures Lookup(m, AsSecret) == Some(EncodeSecret(s.secret))
    ensures s.clusterRoleRules == None || s.clusterRoleRules == Some([]) ==> Lookup(m, AsClusterRoleRules) == None
    ensures s.clusterRoleRules.Some? && s.clusterRoleRules.value != [] ==>
              Lookup(m, AsClusterRoleRules) == Some(EncodeRules(s.clusterRoleRules.value))
    ensures s.hubContainerPorts == None || s.hubContainerPorts == Some([]) ==> Lookup(m, AsHubContainerPorts) == None
    ensures s.hubContainerPorts.Some? && s.hubContainerPorts.value != [] ==>
              Lookup(m, AsHubContainerPorts) == Some(EncodePorts(s.hubContainerPorts.value))
  {
    hide MapMember, EncodeRules, EncodePorts, EncodeSecret, Encodes;
    EncodedMember(m, s, AsHubReplicas);
    EncodedMember(m, s, AsHubConfigMapData);
    EncodedMember(m, s, AsHubLabels);
    EncodedMember(m, s, AsWorkerLabels);
    EncodedMember(m, s, AsSecret);
    EncodedMember(m, s, AsClusterRoleRules);
    EncodedMember(m, s, AsHubContainerPorts);
  }

  lemma SecretHolds(s: SecretSpec)
    ensures IsSecret(Some(EncodeSecret(s)), s)
  {
  }

  lemma PortHolds(p: ContainerPort)
    ensures IsPort(EncodePort(p), p)
  {
  }

  lemma TextHolds(m: map<Member, Json>, s: Spec, f: Member, text: string)
    requires Encodes(m, s) && f in SPEC_MEMBERS && SpecMember(s, f) == Unless(text == "", Text(text))
    ensures IsText(Lookup(m, f), text)
  {
    hide SpecMember;
  }

  lemma TextsHold(m: map<Member, Json>, s: Spec)
    requires Encodes(m, s)
    ensures HoldsTexts(m, s)
  {
    hide Encodes, IsText;
    TextHolds(m, s, AsHubImage, s.hubImage);
    TextHolds(m, s, AsFrontendImage, s.frontendImage);
    TextHolds(m, s, AsWorkerImage, s.workerImage);
    TextHolds(m, s, AsNamespace, s.targetNamespace);
    TextHolds(m, s, AsIngressHost, s.ingressHost);
    TextHolds(m, s, AsIngressClassName, s.ingressClassName);
  }

  lemma NamesHold(m: map<Member, Json>, s: Spec)
    requires Encodes(m, s)
    ensures HoldsNames(m, s)
  {
    hide Encodes, IsText;
    TextHolds(m, s, AsIngressName, s.ingressName);
    TextHolds(m, s, AsServiceAccountHub, s.serviceAccountHub);
    TextHolds(m, s, AsServiceAccountWorker, s.serviceAccountWorker);
    TextHolds(m, s, AsClusterRoleName, s.clusterRoleName);
    TextHolds(m, s, AsClusterRoleBindingName, s.clusterRoleBindingName);
    TextHolds(m, s, AsHubDeploymentName, s.hubDeploymentName);
    TextHolds(m, s, AsWorkerDaemonSetName, s.workerDaemonSetName);
    TextHolds(m, s, AsHubServiceName, s.hubServiceName);
    TextHolds(m, s, AsHubConfigMapName, s.hubConfigMapName);
  }

  lemma StatusHolds(s: Status)
    ensures HoldsStatus(EncodeStatus(s).members, s)
  {
    hide EncodeCondition, IsCondition;
    assert Lookup(EncodeStatus(s).members, AsConditions) == StatusMember(s, AsConditions);
    assert Lookup(EncodeStatus(s).members, AsObservedGeneration) == StatusMember(s, AsObservedGeneration);
    forall i | 0 <= i < |s.conditions|
      ensures IsCondition(EncodeCondition(s.conditions[i]), s.conditions[i])
    {
      ConditionHolds(s.conditions[i]);
    }
  }

  lemma ConditionHolds(c: Condition)
    ensures IsCondition(EncodeCondition(c), c)
  {
  }

  /** Each field is in the JSON form under its own tag, or left out where `omitempty` or `omitzero` says so. */
  lemma EveryFieldByItsTag(cr: Kubeshark)
    ensures var m := EncodeCr(cr).members;
            && m.Keys == {AsMetadata, AsSpec} + (if cr.status == EMPTY_STATUS then {} else {AsStatus})
            && m[AsSpec].Obj? && HoldsTexts(m[AsSpec].members, cr.spec) && HoldsNames(m[AsSpec].members, cr.spec)
            && HoldsRest(m[AsSpec].members, cr.spec)
            && (AsStatus in m ==> m[AsStatus].Obj? && HoldsStatus(m[AsStatus].members, cr.status))
  {
    hide EncodeSpec, EncodeStatus, EncodeMeta, HoldsTexts, HoldsNames, HoldsRest, HoldsStatus;
    var m := EncodeCr(cr).members;
    assert Lookup(m, AsMetadata) == CrMember(cr, AsMetadata) && Lookup(m, AsSpec) == CrMember(cr, AsSpec);
    assert Lookup(m, AsStatus) == CrMember(cr, AsStatus);
    forall f <- m
      ensures f in CR_MEMBERS
    {
      assert Lookup(m, f).Some?;
    }
    SpecHolds(cr.spec);
    StatusHolds(cr.status);
  }

  lemma SpecHolds(s: Spec)
    ensures EncodeSpec(s).Obj? && HoldsTexts(EncodeSpec(s).members, s) && HoldsNames(EncodeSpec(s).members, s)
    ensures HoldsRest(EncodeSpec(s).members, s)
  {
    hide SpecMember, HoldsTexts, HoldsNames, HoldsRest;
    assert Encodes(EncodeSpec(s).members, s);
    TextsHold(EncodeSpec(s).members, s);
    NamesHold(EncodeSpec(s).members, s);
    RestHolds(EncodeSpec(s).members, s);
  }
}
