/**
 Deep copy on the heap (api/v1beta1/zz_generated.deepcopy.go): pointers, maps and slices are objects, so that
 sharing is visible; and the in-place condition update whose patch depends on the copy (status.go).
 */
module DeepCopy {
  import opened Wrappers
  import opened Api
  import opened Conditions

  // ----- What the source reaches by pointer -----

  class IntCell {
    var value: int
    constructor (value: int)
      ensures this.value == value
    {
      this.value := value;
    }
  }

  class StringMap {
    var entries: StrMap
    constructor ()
      ensures entries == map[]
    {
      entries := map[];
    }
  }

  /** A policy rule holds five slices of strings, each of which may be nil. */
  datatype RuleRefs = RuleRefs(
    verbs: array?<string>, apiGroups: array?<string>, resources: array?<string>,
    resourceNames: array?<string>, nonResourceUrls: array?<string>)

  /** The fields that an assignment of the struct copies by value. */
  datatype Flat = Flat(
    hubImage: string, frontendImage: string, workerImage: string, targetNamespace: string,
    ingressHost: string, ingressClassName: string, ingressName: string,
    serviceAccountHub: string, serviceAccountWorker: string,
    clusterRoleName: string, clusterRoleBindingName: string,
    hubDeploymentName: string, workerDaemonSetName: string, hubServiceName: string, hubConfigMapName: string,
    secret: SecretSpec)

  // ----- Values: what a reader sees, nil told apart from empty -----

  datatype RuleValue = RuleValue(
    verbs: Option<seq<string>>, apiGroups: Option<seq<string>>, resources: Option<seq<string>>,
    resourceNames: Option<seq<string>>, nonResourceUrls: Option<seq<string>>)

  datatype SpecValue = SpecValue(
    flat: Flat, hubReplicas: Option<int>, hubConfigMapData: Option<StrMap>,
    clusterRoleRules: Option<seq<RuleValue>>, hubLabels: Option<StrMap>,
    hubContainerPorts: Option<seq<ContainerPort>>, workerLabels: Option<StrMap>)

  function CellOf(o: object?): set<object> {
    if o == null then {} else {o}
  }

  function ItemsOf<T>(a: array?<T>): Option<seq<T>>
    reads a
  {
    if a == null then None else Some(a[..])
  }

  function NumberIn(c: IntCell?): Option<int>
    reads c
  {
    if c == null then None else Some(c.value)
  }

  function EntriesOf(m: StringMap?): Option<StrMap>
    reads m
  {
    if m == null then None else Some(m.entries)
  }

  ghost function RuleCells(r: RuleRefs): set<object> {
    CellOf(r.verbs) + CellOf(r.apiGroups) + CellOf(r.resources) + CellOf(r.resourceNames) + CellOf(r.nonResourceUrls)
  }

  function ValueOfRule(r: RuleRefs): RuleValue
    reads RuleCells(r)
  {
    RuleValue(ItemsOf(r.verbs), ItemsOf(r.apiGroups), ItemsOf(r.resources),
              ItemsOf(r.resourceNames), ItemsOf(r.nonResourceUrls))
  }

  ghost function AllRuleCells(rs: seq<RuleRefs>): set<object> {
    set i, o | 0 <= i < |rs| && o in RuleCells(rs[i]) :: o
  }

  function ValueOfRules(rs: seq<RuleRefs>): (r: seq<RuleValue>)
    reads AllRuleCells(rs)
  {
    seq(|rs|, i requires 0 <= i < |rs| reads AllRuleCells(rs) => ValueOfRule(rs[i]))
  }

  ghost function SliceCells(rules: array?<RuleRefs>): set<object>
    reads rules
  {
    if rules == null then {} else {rules} + AllRuleCells(rules[..])
  }

  function RulesOf(rules: array?<RuleRefs>): Option<seq<RuleValue>>
    reads rules, SliceCells(rules)
  {
    if rules == null then None else Some(ValueOfRules(rules[..]))
  }

  // ----- The spec -----

  class SpecRecord {
    var flat: Flat
    var hubReplicas: IntCell?
    var hubConfigMapData: StringMap?
    var clusterRoleRules: array?<RuleRefs>
    var hubLabels: StringMap?
    var hubContainerPorts: array?<ContainerPort>
    var workerLabels: StringMap?

    constructor ()
    {
      var none := SecretSpec("", "", "", "");
      flat := Flat("", "", "", "", "", "", "", "", "", "", "", "", "", "", "", none);
      hubReplicas, hubConfigMapData, clusterRoleRules, hubLabels, hubContainerPorts, workerLabels :=
        null, null, null, null, null, null;
    }

    /** Assignment of the struct: what it points to is shared. */
    method Assign(input: SpecRecord)
      requires input != this
      modifies this
      ensures flat == input.flat
      ensures RulesOf(input.clusterRoleRules) == old(RulesOf(input.clusterRoleRules))
    {
      hide RulesOf;
      RecordsAreNoCells(input.clusterRoleRules, this);
      flat, hubReplicas, hubConfigMapData := input.flat, input.hubReplicas, input.hubConfigMapData;
      clusterRoleRules, hubLabels := input.clusterRoleRules, input.hubLabels;
      hubContainerPorts, workerLabels := input.hubContainerPorts, input.workerLabels;
      RulesFrame(input.clusterRoleRules);
    }

    method SetRules(rules: array?<RuleRefs>)
      modifies `clusterRoleRules
      ensures clusterRoleRules == rules
      ensures RulesOf(rules) == old(RulesOf(rules)) && SliceCells(rules) == old(SliceCells(rules))
    {
      hide RulesOf;
      RecordsAreNoCells(rules, this);
      clusterRoleRules := rules;
      RulesFrame(rules);
    }

    /** Everything mutable that is reached from the struct. */
    ghost function Cells(): set<object>
      reads this, clusterRoleRules
    {
      CellOf(hubReplicas) + CellOf(hubConfigMapData) + SliceCells(clusterRoleRules) + CellOf(hubLabels)
      + CellOf(hubContainerPorts) + CellOf(workerLabels)
    }

    ghost function Value(): SpecValue
      reads this, clusterRoleRules, Cells()
    {
      SpecValue(flat, NumberIn(hubReplicas), EntriesOf(hubConfigMapData), RulesOf(clusterRoleRules),
          EntriesOf(hubLabels),
                ItemsOf(hubContainerPorts), EntriesOf(workerLabels))
    }
  }

  // ----- Copying the parts -----

  method CopyCell(c: IntCell?) returns (copy: IntCell?)
    ensures NumberIn(copy) == NumberIn(c) && fresh(CellOf(copy))
  {
    if c == null {
      return null;
    }
    copy := new IntCell(c.value);
  }

  /** A new map filled entry by entry, in whatever order the iteration takes. */
  method CopyMap(m: StringMap?) returns (copy: StringMap?)
    ensures EntriesOf(copy) == EntriesOf(m) && fresh(CellOf(copy))
  {
    if m == null {
      return null;
    }
    copy := new StringMap();
    var left := m.entries.Keys;
    while left != {}
      invariant left <= m.entries.Keys && copy.entries.Keys == m.entries.Keys - left
      invariant forall k <- copy.entries :: copy.entries[k] == m.entries[k]
      invariant fresh(copy)
    {
      var k :| k in left;
      copy.entries := copy.entries[k := m.entries[k]];
      left := left - {k};
    }
    assert copy.entries == m.entries;
  }

  method CopyItems<T(0)>(a: array?<T>) returns (copy: array?<T>)
    ensures ItemsOf(copy) == ItemsOf(a) && fresh(CellOf(copy))
  {
    if a == null {
      return null;
    }
    copy := new T[a.Length];
    for i := 0 to a.Length
      invariant copy[..i] == a[..i]
    {
      copy[i] := a[i];
    }
    assert copy[..] == a[..];
  }

  method CopyRule(r: RuleRefs) returns (copy: RuleRefs)
    ensures ValueOfRule(copy) == old(ValueOfRule(r)) && fresh(RuleCells(copy))
  {
    var verbs := CopyItems(r.verbs);
    var apiGroups := CopyItems(r.apiGroups);
    var resources := CopyItems(r.resources);
    var resourceNames := CopyItems(r.resourceNames);
    var nonResourceUrls := CopyItems(r.nonResourceUrls);
    copy := RuleRefs(verbs, apiGroups, resources, resourceNames, nonResourceUrls);
  }

  const NIL_RULE := RuleRefs(null, null, null, null, null)

  /** A slice of structs that hold slices: both levels are new. */
  method CopyRules(rules: array?<RuleRefs>) returns (copy: array?<RuleRefs>)
    ensures fresh(SliceCells(copy)) && RulesOf(copy) == old(RulesOf(rules))
  {
    if rules == null {
      return null;
    }
    copy := CopyEachRule(rules);
    assert ValueOfRules(copy[..]) == old(ValueOfRules(rules[..]));
  }

  method CopyEachRule(rules: array<RuleRefs>) returns (copy: array<RuleRefs>)
    ensures fresh(copy) && copy.Length == rules.Length
    ensures forall j :: 0 <= j < rules.Length ==>
              fresh(RuleCells(copy[j])) && ValueOfRule(copy[j]) == old(ValueOfRule(rules[j]))
  {
    copy := new RuleRefs[rules.Length](_ => NIL_RULE);
    for i := 0 to rules.Length
      invariant fresh(copy) && copy.Length == rules.Length
      invariant forall j :: 0 <= j < i ==>
                  fresh(RuleCells(copy[j])) && ValueOfRule(copy[j]) == old(ValueOfRule(rules[j]))
    {
      CopyRuleInto(rules[i], copy, i);
    }
  }

  method CopyRuleInto(rule: RuleRefs, copy: array<RuleRefs>, i: nat)
    requires i < copy.Length
    modifies copy
    ensures forall j :: 0 <= j < copy.Length && j != i ==> copy[j] == old(copy[j])
    ensures fresh(RuleCells(copy[i])) && ValueOfRule(copy[i]) == old(ValueOfRule(rule))
    ensures forall j :: 0 <= j < copy.Length && j != i ==> ValueOfRule(copy[j]) == old(ValueOfRule(copy[j]))
  {
    var r := CopyRule(rule);
    copy[i] := r;
  }

  // ----- What survives writes elsewhere -----

  twostate lemma RulesFrame(rules: array?<RuleRefs>)
    requires unchanged(old(SliceCells(rules)))
    ensures RulesOf(rules) == old(RulesOf(rules)) && SliceCells(rules) == old(SliceCells(rules))
  {
  }

  lemma RecordsAreNoCells(rules: array?<RuleRefs>, x: SpecRecord)
    ensures SliceCells(rules) !! {x}
  {
  }

  /** The replica count and the config data. */
  method CopyHeadInto(input: SpecRecord, out: SpecRecord)
    requires out != input
    modifies out`hubReplicas, out`hubConfigMapData
    ensures NumberIn(out.hubReplicas) == old(NumberIn(input.hubReplicas)) && fresh(CellOf(out.hubReplicas))
    ensures EntriesOf(out.hubConfigMapData) == old(EntriesOf(input.hubConfigMapData))
    ensures fresh(CellOf(out.hubConfigMapData))
    ensures RulesOf(input.clusterRoleRules) == old(RulesOf(input.clusterRoleRules))
  {
    hide RulesOf;
    RecordsAreNoCells(input.clusterRoleRules, out);
    out.hubReplicas := CopyCell(input.hubReplicas);
    out.hubConfigMapData := CopyMap(input.hubConfigMapData);
    RulesFrame(input.clusterRoleRules);
  }

  method CopyRulesInto(input: SpecRecord, out: SpecRecord)
    requires out != input
    modifies out`clusterRoleRules
    ensures RulesOf(out.clusterRoleRules) == old(RulesOf(input.clusterRoleRules))
    ensures fresh(SliceCells(out.clusterRoleRules))
  {
    var copy := CopyRules(input.clusterRoleRules);
    out.SetRules(copy);
  }

  /** The labels of the hub, its ports and the labels of the workers. */
  method CopyTailInto(input: SpecRecord, out: SpecRecord)
    requires out != input
    modifies out`hubLabels, out`hubContainerPorts, out`workerLabels
    ensures EntriesOf(out.hubLabels) == old(EntriesOf(input.hubLabels)) && fresh(CellOf(out.hubLabels))
    ensures ItemsOf(out.hubContainerPorts) == old(ItemsOf(input.hubContainerPorts))
    ensures fresh(CellOf(out.hubContainerPorts))
    ensures EntriesOf(out.workerLabels) == old(EntriesOf(input.workerLabels)) && fresh(CellOf(out.workerLabels))
    ensures RulesOf(out.clusterRoleRules) == old(RulesOf(out.clusterRoleRules))
    ensures SliceCells(out.clusterRoleRules) == old(SliceCells(out.clusterRoleRules))
  {
    hide RulesOf;
    RecordsAreNoCells(out.clusterRoleRules, out);
    out.hubLabels := CopyMap(input.hubLabels);
    out.hubContainerPorts := CopyItems(input.hubContainerPorts);
    out.workerLabels := CopyMap(input.workerLabels);
    RulesFrame(out.clusterRoleRules);
  }

  /** Copies the struct, then replaces every pointer, map and slice by a copy of its own, nil by nil. */
  method CopySpecInto(input: SpecRecord, out: SpecRecord)
    requires out != input
    modifies out
    ensures out.Value() == old(input.Value()) && fresh(out.Cells())
    ensures input.Value() == old(input.Value())
  {
    hide RulesOf, SpecRecord.Value, SpecRecord.Cells;
    FillSpec(input, out);
    forall s | s == input
      ensures s.Value() == old(s.Value())
    {
      RecordsAreNoCells(s.clusterRoleRules, out);
      SpecFrame(s);
    }
  }

  method FillSpec(input: SpecRecord, out: SpecRecord)
    requires out != input
    modifies out
    ensures out.Value() == old(input.Value()) && fresh(out.Cells())
  {
    hide SliceCells, RulesOf;
    out.Assign(input);
    CopyHeadInto(input, out);
    CopyRulesInto(input, out);
    CopyTailInto(input, out);
  }

  /** What a spec shows depends on nothing but the record and its cells. */
  twostate lemma SpecFrame(s: SpecRecord)
    requires unchanged(s) && unchanged(old(SliceCells(s.clusterRoleRules)))
    requires unchanged(old(CellOf(s.hubReplicas))) && unchanged(old(CellOf(s.hubConfigMapData)))
    requires unchanged(old(CellOf(s.hubLabels))) && unchanged(old(CellOf(s.workerLabels)))
    requires unchanged(old(CellOf(s.hubContainerPorts)))
    ensures s.Value() == old(s.Value()) && s.Cells() == old(s.Cells())
  {
    hide SliceCells, RulesOf;
    RulesFrame(s.clusterRoleRules);
  }

  // ----- Metadata, status, the whole resource -----

  datatype MetaValue = MetaValue(id: CrId, generation: nat, deleting: bool, finalizers: Option<seq<string>>)
  datatype StatusValue = StatusValue(conditions: Option<seq<Condition>>, observedGeneration: nat)
  datatype CrValue = CrValue(meta: MetaValue, spec: SpecValue, status: StatusValue)

  class MetaRecord {
    var id: CrId
    var generation: nat
    var deleting: bool
    var finalizers: array?<string>

    constructor ()
    {
      id, generation, deleting, finalizers := CrId(CrKey("", ""), 0), 0, false, null;
    }

    ghost function Cells(): set<object>
      reads this
    {
      CellOf(finalizers)
    }

    function Value(): MetaValue
      reads this, finalizers
    {
      MetaValue(id, generation, deleting, ItemsOf(finalizers))
    }
  }

  class StatusRecord {
    var conditions: array?<Condition>
    var observedGeneration: nat

    constructor ()
    {
      conditions, observedGeneration := null, 0;
    }

    ghost function Cells(): set<object>
      reads this
    {
      CellOf(conditions)
    }

    function Value(): StatusValue
      reads this, conditions
    {
      StatusValue(ItemsOf(conditions), observedGeneration)
    }
  }

  /** The structs inside a resource are allocated with it. */
  class CrRecord {
    const meta: MetaRecord
    const spec: SpecRecord
    const status: StatusRecord

    constructor ()
      ensures fresh(meta) && fresh(spec) && fresh(status)
    {
      meta := new MetaRecord();
      spec := new SpecRecord();
      status := new StatusRecord();
    }

    ghost function Cells(): set<object>
      reads this, meta, spec, status, spec.clusterRoleRules
    {
      {meta, spec, status} + meta.Cells() + spec.Cells() + status.Cells()
    }

    ghost function Value(): CrValue
      reads this, meta, spec, status, spec.clusterRoleRules, Cells()
    {
      CrValue(meta.Value(), spec.Value(), status.Value())
    }

    /** A zero resource, allocated beside this one. */
    method Zero() returns (copy: CrRecord)
      ensures fresh(copy) && fresh(copy.meta) && fresh(copy.spec) && fresh(copy.status)
      ensures spec.Value() == old(spec.Value())
    {
      hide RulesOf;
      copy := new CrRecord();
      SpecFrame(spec);
    }

    method CopyMeta(copy: CrRecord)
      requires copy.meta != meta
      modifies copy.meta
      ensures copy.meta.Value() == old(meta.Value()) && fresh(copy.meta.Cells())
      ensures spec.Value() == old(spec.Value())
    {
      hide RulesOf;
      StructsAreNoCells(spec.clusterRoleRules, copy.meta, copy.status);
      CopyMetaInto(meta, copy.meta);
      SpecFrame(spec);
    }

    method CopyStatus(copy: CrRecord)
      requires copy.status != status
      modifies copy.status
      ensures copy.status.Value() == old(status.Value()) && fresh(copy.status.Cells())
      ensures copy.spec.Value() == old(copy.spec.Value()) && copy.spec.Cells() == old(copy.spec.Cells())
      ensures spec.Value() == old(spec.Value())
    {
      CopyStatusInto(status, copy.status, {spec, copy.spec});
    }

    /** The copy shows what the original showed, shares no mutable cell with it, and the original is as it was. */
    method DeepCopy() returns (copy: CrRecord)
      ensures fresh(copy) && fresh(copy.Cells())
      ensures copy.Value() == old(Value()) && Value() == old(Value())
    {
      hide SpecRecord.Value, SpecRecord.Cells;
      copy := Zero();
      CopyMeta(copy);
      CopySpecInto(spec, copy.spec);
      CopyStatus(copy);
    }
  }

  /**
   Copies are independent: what a resource shows depends on nothing but its own structs and cells, so whatever is
   written through another resource that shares none of them leaves it as it reads.
   */
  twostate lemma CrFrame(cr: CrRecord)
    requires unchanged(cr.meta) && unchanged(cr.spec) && unchanged(cr.status)
    requires unchanged(old(CellOf(cr.meta.finalizers))) && unchanged(old(CellOf(cr.status.conditions)))
    requires unchanged(old(SliceCells(cr.spec.clusterRoleRules)))
    requires unchanged(old(CellOf(cr.spec.hubReplicas))) && unchanged(old(CellOf(cr.spec.hubConfigMapData)))
    requires unchanged(old(CellOf(cr.spec.hubLabels))) && unchanged(old(CellOf(cr.spec.workerLabels)))
    requires unchanged(old(CellOf(cr.spec.hubContainerPorts)))
    ensures cr.Value() == old(cr.Value())
  {
    hide SliceCells, RulesOf, SpecRecord.Value, SpecRecord.Cells;
    SpecFrame(cr.spec);
  }

  lemma StructsAreNoCells(rules: array?<RuleRefs>, m: MetaRecord, s: StatusRecord)
    ensures SliceCells(rules) !! {m, s}
  {
  }

  method CopyMetaInto(input: MetaRecord, out: MetaRecord)
    requires out != input
    modifies out
    ensures out.Value() == old(input.Value()) && fresh(out.Cells())
  {
    out.id, out.generation := input.id, input.generation;
    out.deleting, out.finalizers := input.deleting, input.finalizers;
    out.finalizers := CopyItems(input.finalizers);
  }

  /** Copying a status changes nothing that any spec shows. */
  method CopyStatusInto(input: StatusRecord, out: StatusRecord, ghost specs: set<SpecRecord>)
    requires out != input
    modifies out
    ensures out.Value() == old(input.Value()) && fresh(out.Cells())
    ensures forall s <- specs :: s.Value() == old(s.Value()) && s.Cells() == old(s.Cells())
  {
    hide RulesOf;
    out.conditions, out.observedGeneration := input.conditions, input.observedGeneration;
    out.conditions := CopyItems(input.conditions);
    forall s <- specs
      ensures s.Value() == old(s.Value()) && s.Cells() == old(s.Cells())
    {
      ConditionsAreNoCells(s.clusterRoleRules, out);
      SpecFrame(s);
    }
  }

  // ----- The in-place status update that the copy is for -----

  function ConditionsIn(st: StatusRecord): seq<Condition>
    reads st, st.conditions
  {
    if st.conditions == null then [] else st.conditions[..]
  }

  function OrEmpty<T>(xs: Option<seq<T>>): seq<T> {
    if xs.Some? then xs.value else []
  }

  function AsStatus(v: StatusValue): Status {
    Status(OrEmpty(v.conditions), v.observedGeneration)
  }

  function AsRule(r: RuleValue): PolicyRule {
    PolicyRule(OrEmpty(r.verbs), OrEmpty(r.apiGroups), OrEmpty(r.resources), OrEmpty(r.resourceNames),
        OrEmpty(r.nonResourceUrls))
  }

  function AsRules(rs: seq<RuleValue>): seq<PolicyRule> {
    seq(|rs|, i requires 0 <= i < |rs| => AsRule(rs[i]))
  }

  function AsSpec(v: SpecValue): Spec {
    var f := v.flat;
    Spec(f.hubImage, f.frontendImage, v.hubReplicas, f.workerImage, f.targetNamespace,
         f.ingressHost, f.ingressClassName, f.ingressName, f.serviceAccountHub, f.serviceAccountWorker,
         v.hubConfigMapData, if v.clusterRoleRules.Some? then Some(AsRules(v.clusterRoleRules.value)) else None,
         f.clusterRoleName, f.clusterRoleBindingName, f.hubDeploymentName, v.hubLabels, v.hubContainerPorts,
         f.workerDaemonSetName, v.workerLabels, f.hubServiceName, f.hubConfigMapName, f.secret)
  }

  /** The resource that the value-level model knows. */
  function AsResource(v: CrValue): Kubeshark {
    Kubeshark(v.meta.id, v.meta.generation, v.meta.deleting, OrEmpty(v.meta.finalizers), AsSpec(v.spec),
        AsStatus(v.status))
  }

  /** The upsert, in the slice itself where the kind is there, in a longer slice where it is not. */
  method SetCondition(st: StatusRecord, c: Condition)
    modifies st`conditions, st.conditions
    ensures ConditionsIn(st) == SetStatusCondition(old(ConditionsIn(st)), c)
    ensures st.conditions == old(st.conditions) || fresh(st.conditions)
  {
    var n := if st.conditions == null then 0 else st.conditions.Length;
    ghost var before := ConditionsIn(st);
    var i := 0;
    while i < n && st.conditions[i].kind != c.kind
      invariant 0 <= i <= n == |before| && ConditionsIn(st) == before && st.conditions == old(st.conditions)
      invariant forall j :: 0 <= j < i ==> before[j].kind != c.kind
    {
      i := i + 1;
    }
    assert FindCondition(before, c.kind) == i by { FirstOfKind(before, c.kind, i); }
    if i == n {
      var longer := new Condition[n + 1](_ => c);
      for j := 0 to n
        invariant longer[..j] == before[..j] && longer[n] == c
        invariant ConditionsIn(st) == before && st.conditions == old(st.conditions)
      {
        longer[j] := st.conditions[j];
      }
      st.conditions := longer;
      assert longer[..] == before + [c];
    } else {
      var since := if st.conditions[i].status == c.status then st.conditions[i].since else c.since;
      st.conditions[i] := c.(since := since);
    }
  }

  lemma {:induction false} FirstOfKind(cs: seq<Condition>, kind: string, i: nat)
    requires i <= |cs| && (forall j :: 0 <= j < i ==> cs[j].kind != kind) && (i < |cs| ==> cs[i].kind == kind)
    ensures FindCondition(cs, kind) == i
  {
    if i > 0 { FirstOfKind(cs[1..], kind, i - 1); }
  }

  lemma ConditionsAreNoCells(rules: array?<RuleRefs>, st: StatusRecord)
    ensures SliceCells(rules) !! CellOf(st.conditions) + {st}
  {
  }

  /** Writing the status in place changes nothing that a spec shows, its own or another's. */
  method UpdateStatus(st: StatusRecord, verdict: Verdict, generation: nat, now: nat, ghost specs: set<SpecRecord>)
    modifies st, st.conditions
    ensures forall s <- specs :: s.Value() == old(s.Value())
    ensures AsStatus(st.Value()) ==
            Status(SetStatusCondition(old(ConditionsIn(st)), ReadyCondition(verdict, generation, now)), generation)
  {
    hide RulesOf, SetStatusCondition;
    SetCondition(st, ReadyCondition(verdict, generation, now));
    st.observedGeneration := generation;
    forall s <- specs
      ensures s.Value() == old(s.Value())
    {
      ConditionsAreNoCells(s.clusterRoleRules, st);
      SpecFrame(s);
    }
  }

  /**
   The copy is taken before the update in place, and after it still shows what the resource was: the two differ
   exactly in the reported status, so that is what the patch between them carries.
   */
  method ReportInPlace(cr: CrRecord, verdict: Verdict, now: nat) returns (orig: CrRecord)
    modifies cr.status, cr.status.conditions
    ensures orig.Value() == old(cr.Value())
    ensures AsResource(cr.Value()) ==
            var before := AsResource(old(cr.Value())); before.(status := ReportedStatus(before, verdict, now))
  {
    hide RulesOf, SetStatusCondition, SpecRecord.Value, SpecRecord.Cells, AsSpec;
    orig := cr.DeepCopy();
    UpdateStatus(cr.status, verdict, cr.meta.generation, now, {cr.spec, orig.spec});
  }
}
