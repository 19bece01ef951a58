/**
 The operator as a transition system over the API server's store. Each API call of a reconcile is one
 step; between any two calls the environment, or the reconcile of another resource, may act.
 */
module Operator {
  import opened Wrappers
  import opened Api
  import opened Objects
  import opened Components
  import opened Conditions

  // ----- State -----

  datatype Store = Store(
    crs: map<CrKey, Kubeshark>,
    objs: map<ObjKey, Object>,
    revision: nat,     // counts the writes that changed something
    nextUid: nat)

  /** Where a reconcile stands: the API call it makes next, with the copies it holds. */
  datatype Phase =
    | Reading
    | AddingFinalizer(cr: Kubeshark)
    | Fetching(cr: Kubeshark, i: nat)
    | Writing(cr: Kubeshark, i: nat, seen: Option<Object>)
    | Deleting(cr: Kubeshark, i: nat)
    | DroppingFinalizer(cr: Kubeshark)
    | Reporting(cr: Kubeshark, verdict: Verdict)

  datatype Pass = Pass(number: nat, phase: Phase)

  /** History, kept only to state what runs do. */
  datatype Entry =
    | Version(id: CrId, generation: nat, spec: Spec)
    | Done(number: nat, view: View, generation: nat, i: nat, obj: Object)
    | Managed(id: CrId, key: ObjKey)
    | Removed(number: nat, id: CrId, key: ObjKey)
    | DeletionRead(id: CrId, spec: Spec)
    | Released(number: nat, id: CrId, spec: Spec)

  datatype System = System(store: Store, passes: map<CrKey, Pass>, nextPass: nat, log: set<Entry>)

  const INITIAL := System(Store(map[], map[], 0, 0), map[], 0, {})

  /** A call is served, refused without effect, or takes effect while its answer is lost. */
  datatype Outcome = Served | Refused(why: string) | Lost(why: string)

  datatype Action =
    | CreateCr(key: CrKey, spec: Spec, finalizers: seq<string>)
    | EditSpec(key: CrKey, spec: Spec)
    | EditFinalizers(key: CrKey, finalizers: seq<string>)
    | RequestDelete(key: CrKey)
    | Drift(obj: ObjKey, content: Option<Object>)
    | Collect(obj: ObjKey)

  datatype Event =
    | Start(key: CrKey)
    | Call(key: CrKey, outcome: Outcome, now: nat)
    | Crash(key: CrKey)
    | Outside(action: Action)

  // ----- Writes to the store -----

  function WithObjs(s: Store, objs: map<ObjKey, Object>): Store {
    if objs == s.objs then s else s.(objs := objs, revision := s.revision + 1)
  }

  function WithCrs(s: Store, crs: map<CrKey, Kubeshark>): Store {
    if crs == s.crs then s else s.(crs := crs, revision := s.revision + 1)
  }

  /** A typed write of a whole resource: the spec goes through `omitempty`, a changed spec is a new generation. */
  function Rewritten(cr: Kubeshark): Kubeshark {
    var spec := WriteBack(cr.spec);
    cr.(spec := spec, generation := if spec == cr.spec then cr.generation else cr.generation + 1)
  }

  function CurrentVersion(cr: Kubeshark): Entry {
    Version(cr.id, cr.generation, cr.spec)
  }

  // ----- The API calls of one reconcile -----

  /** Next phase (None: the reconcile returns), the store after the call, and what to remember. */
  datatype Effect = Effect(store: Store, next: Option<Phase>, notes: set<Entry>)

  function ReadCr(s: Store, key: CrKey, outcome: Outcome): Effect {
    if !outcome.Served? || key !in s.crs then Effect(s, None, {})
    else
      var cr := s.crs[key];
      if cr.deleting then
        Effect(s, if HasFinalizer(cr) then Some(Deleting(cr, 0)) else None, {DeletionRead(cr.id, cr.spec)})
      else if !HasFinalizer(cr) then Effect(s, Some(AddingFinalizer(cr)), {})
      else Effect(s, Some(Fetching(cr, 0)), {})
  }

  function PutFinalizer(s: Store, key: CrKey, cr: Kubeshark, outcome: Outcome): Effect {
    if outcome.Refused? || key !in s.crs || s.crs[key] != cr then Effect(s, None, {})
    else
      var cr' := Rewritten(AddFinalizer(cr));
      Effect(WithCrs(s, s.crs[key := cr']), None, {CurrentVersion(cr')})
  }

  function StepError(i: nat, why: string): Verdict
    requires i < COUNT
  {
    match ORDER[i]
    case HubDeployment => StepFailed("hub Deployment: " + why)
    case FrontendDeployment => StepFailed("frontend Deployment: " + why)
    case OperatorRole => StepFailed("ClusterRole: " + why)
    case OperatorBinding => StepFailed("ClusterRoleBinding: " + why)
    case _ => StepFailed(why)
  }

  function Advanced(cr: Kubeshark, i: nat): Phase
    requires i < COUNT
  {
    if i + 1 == COUNT then Reporting(cr, Reconciled) else Fetching(cr, i + 1)
  }

  /** CreateOrUpdate, first half: get the object, mutate the copy, stop here if nothing changed. */
  function FetchChild(s: Store, number: nat, cr: Kubeshark, i: nat, outcome: Outcome): Effect
    requires i < COUNT
  {
    if !outcome.Served? then Effect(s, Some(Reporting(cr, StepError(i, outcome.why))), {})
    else
      var v := cr.ToView();
      var x := Lookup(s.objs, KeyAt(i, v));
      match Mutate(ORDER[i], v, Found(ORDER[i], x))
      case Err(why) => Effect(s, Some(Reporting(cr, StepError(i, why))), {})
      case Ok(o) =>
        if x == Some(o) then Effect(s, Some(Advanced(cr, i)),
            {Managed(cr.id, KeyAt(i, v)), Done(number, v, cr.generation, i, o)})
        else Effect(s, Some(Writing(cr, i, x)), {})
  }

  /** Why the server turns a create (nothing seen) or an update of `seen` down, if it does. */
  function Rejection(s: Store, key: ObjKey, seen: Option<Object>, o: Object): Option<string> {
    if seen.None? then
      if key in s.objs then Some("already exists") else None
    else if key !in s.objs then Some("not found")
    else if s.objs[key] != seen.value then Some("the object has been modified")
    else if !ImmutableKept(seen.value.body, o.body) then Some("field is immutable")
    else None
  }

  /** CreateOrUpdate, second half: create or update with the mutated copy. */
  function WriteChild(s: Store, number: nat, cr: Kubeshark, i: nat, seen: Option<Object>, outcome: Outcome): Effect
    requires i < COUNT
  {
    if outcome.Refused? then Effect(s, Some(Reporting(cr, StepError(i, outcome.why))), {})
    else
      var v := cr.ToView();
      var key := KeyAt(i, v);
      match Mutate(ORDER[i], v, Found(ORDER[i], seen))
      case Err(why) => Effect(s, Some(Reporting(cr, StepError(i, why))), {})
      case Ok(o) =>
        match Rejection(s, key, seen, o)
        case Some(why) => Effect(s, Some(Reporting(cr, StepError(i, why))), {})
        case None =>
          var o' := Admit(key, o);
          var s' := WithObjs(s, s.objs[key := o']);
          if outcome.Lost? then Effect(s', Some(Reporting(cr, StepError(i, outcome.why))), {Managed(cr.id, key)})
          else Effect(s', Some(Advanced(cr, i)), {Managed(cr.id, key), Done(number, v, cr.generation, i, o')})
  }

  function ClusterKey(v: View, i: nat): ObjKey {
    if i == 0 then KeyOf(OperatorRole, v) else KeyOf(OperatorBinding, v)
  }

  /** Deletion of the i-th cluster object; one that is already gone is no error. */
  function DeleteCluster(s: Store, number: nat, cr: Kubeshark, i: nat, outcome: Outcome): Effect {
    if outcome.Refused? then Effect(s, Some(Reporting(cr, DeleteFailed(outcome.why))), {})
    else
      var key := ClusterKey(cr.ToView(), i);
      var s' := WithObjs(s, s.objs - {key});
      Effect(s', Some(if outcome.Lost? then Reporting(cr, DeleteFailed(outcome.why))
                      else if i == 0 then Deleting(cr, 1)
                      else DroppingFinalizer(cr)), {Removed(number, cr.id, key)})
  }

  /** A deleted resource disappears with its last finalizer. */
  function DropFinalizer(s: Store, number: nat, key: CrKey, cr: Kubeshark, outcome: Outcome): Effect {
    var copy := RemoveFinalizer(cr);
    if outcome.Refused? then Effect(s, Some(Reporting(copy, DeleteFailed(outcome.why))), {})
    else if key !in s.crs then Effect(s, Some(Reporting(copy, DeleteFailed("not found"))), {})
    else if s.crs[key] != cr then
      Effect(s, Some(Reporting(copy, DeleteFailed("the object has been modified"))), {})
    else
      var cr' := Rewritten(copy);
      var s' := WithCrs(s, if cr'.finalizers == [] then s.crs - {key} else s.crs[key := cr']);
      Effect(s', if outcome.Lost? then Some(Reporting(copy, DeleteFailed(outcome.why))) else None,
             {Released(number, cr.id, cr.spec), CurrentVersion(cr')})
  }

  /** The status patch names the resource only by its key. */
  function Report(s: Store, key: CrKey, cr: Kubeshark, verdict: Verdict, outcome: Outcome, now: nat): Effect {
    if outcome.Refused? || key !in s.crs then Effect(s, None, {})
    else
      var stored := s.crs[key];
      var status := PatchStatus(stored.status, cr.status, ReportedStatus(cr, verdict, now));
      Effect(WithCrs(s, s.crs[key := stored.(status := status)]), None, {})
  }

  predicate InRange(ph: Phase) {
    (ph.Fetching? || ph.Writing? ==> ph.i < COUNT) && (ph.Deleting? ==> ph.i < 2)
  }

  /** The effect of a reconcile's next API call. */
  function Serve(s: Store, key: CrKey, p: Pass, outcome: Outcome, now: nat): Effect
    requires InRange(p.phase)
  {
    match p.phase
    case Reading => ReadCr(s, key, outcome)
    case AddingFinalizer(cr) => PutFinalizer(s, key, cr, outcome)
    case Fetching(cr, i) => FetchChild(s, p.number, cr, i, outcome)
    case Writing(cr, i, seen) => WriteChild(s, p.number, cr, i, seen, outcome)
    case Deleting(cr, i) => DeleteCluster(s, p.number, cr, i, outcome)
    case DroppingFinalizer(cr) => DropFinalizer(s, p.number, key, cr, outcome)
    case Reporting(cr, verdict) => Report(s, key, cr, verdict, outcome, now)
  }

  // ----- The environment -----

  predicate OwnerIsLive(s: Store, k: ObjKey, o: Object) {
    o.owner.Some? && o.owner.value.KubesharkOwner? ==>
      var key := CrKey(k.ns, o.owner.value.name);
      key in s.crs && s.crs[key].id.uid == o.owner.value.uid
  }

  function Perturb(s: Store, a: Action): (Store, set<Entry>) {
    match a
    case CreateCr(key, spec, fs) =>
      if key in s.crs then (s, {})
      else
        var cr := Kubeshark(CrId(key, s.nextUid), 1, false, fs, spec, EMPTY_STATUS);
        (WithCrs(s, s.crs[key := cr]).(nextUid := s.nextUid + 1), {CurrentVersion(cr)})
    case EditSpec(key, spec) =>
      if key !in s.crs || s.crs[key].spec == spec then (s, {})
      else
        var cr := s.crs[key].(spec := spec, generation := s.crs[key].generation + 1);
        (WithCrs(s, s.crs[key := cr]), {CurrentVersion(cr)})
    case EditFinalizers(key, fs) =>
      if key !in s.crs || (s.crs[key].deleting && exists f <- fs :: f !in s.crs[key].finalizers) then (s, {})
      else if s.crs[key].deleting && fs == [] then (WithCrs(s, s.crs - {key}), {})
      else (WithCrs(s, s.crs[key := s.crs[key].(finalizers := fs)]), {})
    case RequestDelete(key) =>
      if key !in s.crs || s.crs[key].deleting then (s, {})
      else if s.crs[key].finalizers == [] then (WithCrs(s, s.crs - {key}), {})
      else
        var cr := s.crs[key].(deleting := true, generation := s.crs[key].generation + 1);
        (WithCrs(s, s.crs[key := cr]), {CurrentVersion(cr)})
    case Drift(k, content) =>
      (WithObjs(s, if content.Some? then s.objs[k := Admit(k, content.value)] else s.objs - {k}), {})
    case Collect(k) =>
      (if k in s.objs && !OwnerIsLive(s, k, s.objs[k]) then WithObjs(s, s.objs - {k}) else s, {})
  }

  // ----- Steps and runs -----

  function Stepped(sys: System, key: CrKey, e: Effect): System
    requires key in sys.passes
  {
    sys.(store := e.store,
         passes := if e.next.Some? then sys.passes[key := Pass(sys.passes[key].number, e.next.value)]
                   else sys.passes - {key},
         log := sys.log + e.notes)
  }

  predicate Callable(sys: System, key: CrKey) {
    key in sys.passes && InRange(sys.passes[key].phase)
  }

  /** At most one reconcile per resource; events that do not apply change nothing. */
  function Next(sys: System, ev: Event): System {
    match ev
    case Start(key) =>
      if key in sys.passes then sys
      else sys.(passes := sys.passes[key := Pass(sys.nextPass, Reading)], nextPass := sys.nextPass + 1)
    case Call(key, outcome, now) =>
      if !Callable(sys, key) then sys
      else Stepped(sys, key, Serve(sys.store, key, sys.passes[key], outcome, now))
    case Crash(key) => sys.(passes := sys.passes - {key})
    case Outside(a) =>
      var (s, notes) := Perturb(sys.store, a);
      sys.(store := s, log := sys.log + notes)
  }

  function Run(sys: System, evs: seq<Event>): System {
    if evs == [] then sys else Next(Run(sys, evs[..|evs| - 1]), evs[|evs| - 1])
  }
}
