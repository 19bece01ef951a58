/**
 The reconciler as it is written: API calls with early return, in-place changes, loops over steps and over
 cluster objects. Each method is proved against the transition system: one reconcile leaves the cluster as
 `Passes.Reconcile` says, whatever happens between its calls, and returns the error that `Answer` says.
 */
module Reconciler {
  import opened Wrappers
  import opened Api
  import opened Objects
  import opened Names
  import opened Components
  import opened Conditions
  import opened Operator
  import opened Passes
  import opened Callbacks
  import opened Answers

  // ----- What the API server answers -----

  datatype ApiError = NotFound | Failure(text: string) {
    function Text(): string {
      if NotFound? then "not found" else text
    }
  }

  function WrittenStore(s: Store, k: ObjKey, seen: Option<Object>, o: Object, outcome: Outcome): Store {
    if outcome.Refused? || Rejection(s, k, seen, o).Some? then s else WithObjs(s, s.objs[k := Admit(k, o)])
  }

  function WriteError(s: Store, k: ObjKey, seen: Option<Object>, o: Object, outcome: Outcome): Option<string> {
    if outcome.Refused? then Some(outcome.why)
    else if Rejection(s, k, seen, o).Some? then Rejection(s, k, seen, o)
    else if outcome.Lost? then Some(outcome.why)
    else None
  }

  function UpdatedStore(s: Store, key: CrKey, version: Kubeshark, cr: Kubeshark, outcome: Outcome): Store {
    if outcome.Refused? || key !in s.crs || s.crs[key] != version then s
    else
      var cr' := Rewritten(cr);
      WithCrs(s, if cr'.deleting && cr'.finalizers == [] then s.crs - {key} else s.crs[key := cr'])
  }

  function PatchedStore(s: Store, key: CrKey, orig: Status, changed: Status, outcome: Outcome): Store {
    if outcome.Refused? || key !in s.crs then s
    else
      var stored := s.crs[key];
      WithCrs(s, s.crs[key := stored.(status := Conditions.PatchStatus(stored.status, orig, changed))])
  }

  // ----- The cluster without the reconcile itself -----

  /** What the reconciler can affect: the model state but for its own control point and the history. */
  predicate Agrees(world: System, model: System, key: CrKey) {
    && world.store == model.store
    && world.passes == model.passes - {key}
    && world.nextPass == model.nextPass
  }

  lemma AgreesNext(world: System, model: System, ev: Event, key: CrKey)
    requires Agrees(world, model, key) && !Moves(ev, key)
    ensures Agrees(Next(world, ev), Next(model, ev), key)
  {
    hide Serve, Perturb;
  }

  lemma {:induction false} InterfereAgrees(world: System, model: System, evs: seq<Event>, key: CrKey)
    requires Agrees(world, model, key)
    ensures Agrees(Interfere(world, evs, key), Interfere(model, evs, key), key)
  {
    hide Next;
    if evs != [] {
      InterfereAgrees(world, model, evs[..|evs| - 1], key);
      if !Moves(evs[|evs| - 1], key) {
        var init := evs[..|evs| - 1];
        AgreesNext(Interfere(world, init, key), Interfere(model, init, key), evs[|evs| - 1], key);
      }
    }
  }

  /** One call of the model, in terms of the store the call finds. */
  lemma CallAgrees(world: System, model: System, key: CrKey, turn: Turn)
    requires Agrees(world, model, key) && Callable(model, key)
    ensures var mid := Interfere(world, turn.before, key);
            var p := model.passes[key];
            var e := Serve(mid.store, key, p, turn.outcome, turn.now);
            var model' := OneCall(model, key, turn);
            && mid.store == Interfere(model, turn.before, key).store
            && Agrees(mid.(store := e.store), model', key)
            && Lookup(model'.passes, key) == (if e.next.Some? then Some(Pass(p.number, e.next.value)) else None)
  {
    hide Serve, Next;
    InterfereAgrees(world, model, turn.before, key);
    InterferenceLeavesPass(model, turn.before, key);
    CallSteps(Interfere(model, turn.before, key), key, turn);
  }

  lemma CallSteps(sys: System, key: CrKey, turn: Turn)
    requires Callable(sys, key)
    ensures Next(sys, Call(key, turn.outcome, turn.now))
            == Stepped(sys, key, Serve(sys.store, key, sys.passes[key], turn.outcome, turn.now))
  {
  }

  // ----- Stored objects have the kind of their key -----

  ghost predicate Kinded(s: Store) {
    forall k <- s.objs :: KindOf(s.objs[k].body) == k.kind
  }

  lemma AdmitKinds(k: ObjKey, o: Object)
    ensures KindOf(Admit(k, o).body) == k.kind
  {
  }

  lemma CallKinded(s: Store, key: CrKey, p: Pass, outcome: Outcome, now: nat)
    requires Kinded(s) && InRange(p.phase)
    ensures Kinded(Serve(s, key, p, outcome, now).store)
  {
    hide Admit, Mutate, KeyAt, ClusterKey, WriteBack, Without, PatchStatus, ReportedStatus;
    if p.phase.Writing? {
      match Mutate(ORDER[p.phase.i], p.phase.cr.ToView(), Found(ORDER[p.phase.i], p.phase.seen)) {
        case Ok(o) => AdmitKinds(KeyAt(p.phase.i, p.phase.cr.ToView()), o);
        case Err(_) =>
      }
    }
  }

  lemma NextKinded(sys: System, ev: Event)
    requires Kinded(sys.store)
    ensures Kinded(Next(sys, ev).store)
  {
    hide Admit, Serve;
    match ev {
      case Call(key, outcome, now) =>
        if Callable(sys, key) { CallKinded(sys.store, key, sys.passes[key], outcome, now); }
      case Outside(Drift(k, content)) => if content.Some? { AdmitKinds(k, content.value); }
      case _ =>
    }
  }

  lemma {:induction false} InterfereKinded(sys: System, evs: seq<Event>, key: CrKey)
    requires Kinded(sys.store)
    ensures Kinded(Interfere(sys, evs, key).store)
  {
    hide Next;
    if evs != [] {
      InterfereKinded(sys, evs[..|evs| - 1], key);
      NextKinded(Interfere(sys, evs[..|evs| - 1], key), evs[|evs| - 1]);
    }
  }

  // ----- The client -----

  /** The API server as one reconcile meets it: other events happen before each of its calls, by a script. */
  class Cluster {
    const key: CrKey
    const script: Script
    var world: System
    var pos: nat
    ghost var model: System

    /** The world follows the model, in which the reconcile stands before the call of `ph`. */
    ghost predicate At(ph: Phase)
      reads this
    {
      && Agrees(world, model, key) && Kinded(world.store)
      && InRange(ph) && key in model.passes && model.passes[key].phase == ph
    }

    ghost predicate Over()
      reads this
    {
      Agrees(world, model, key) && Kinded(world.store) && key !in model.passes
    }

    /** Where the model is going: the end of this reconcile, and its answer. */
    ghost function Goal(): System
      reads this
    {
      Drive(model, key, script, pos)
    }

    ghost function GoalAnswer(): Option<string>
      reads this
    {
      Answer(model, key, script, pos)
    }

    constructor (world: System, key: CrKey, script: Script)
      requires key !in world.passes && Kinded(world.store)
      ensures this.key == key && this.script == script && this.world == world && pos == 0
      ensures Over() && model == world
    {
      this.world, this.key, this.script, pos, model := world, key, script, 0, world;
      new;
      assert world.passes - {key} == world.passes;
    }

    /** The work queue hands out the key. */
    method Begin()
      requires Over()
      modifies `world, `model
      ensures model == Next(old(model), Start(key)) && At(Reading)
    {
      world := world.(nextPass := world.nextPass + 1);
      model := Next(model, Start(key));
      assert model.passes - {key} == old(model).passes - {key};
    }

    /** Everybody else's events before the next call. */
    ghost function Met(): System
      reads this
    {
      Interfere(world, script(pos).before, key)
    }

    method Arrive() returns (t: Turn)
      requires Kinded(world.store)
      modifies `world, `pos
      ensures t == script(old(pos)) && pos == old(pos) + 1
      ensures world == old(Met()) && Kinded(world.store)
    {
      t := script(pos);
      InterfereKinded(world, t.before, key);
      world := Interfere(world, t.before, key);
      pos := pos + 1;
    }

    /** The model makes the same call. */
    ghost method Follow(before: System, turn: Turn, ph: Phase)
      requires Agrees(before, model, key) && key in model.passes && model.passes[key].phase == ph && InRange(ph)
      requires pos > 0 && turn == script(pos - 1)
      requires var mid := Interfere(before, turn.before, key);
               world == mid.(store := Serve(mid.store, key, model.passes[key], turn.outcome, turn.now).store)
      modifies `model
      ensures var mid := Interfere(before, turn.before, key);
              var e := Serve(mid.store, key, old(model).passes[key], turn.outcome, turn.now);
              && Agrees(world, model, key)
              && (if e.next.None? then
                    && key !in model.passes && model == Drive(old(model), key, script, pos - 1)
                    && LastAnswer(mid.store, key, ph, turn.outcome) == Answer(old(model), key, script, pos - 1)
                  else
                    && key in model.passes && InRange(e.next.value)
                    && model.passes[key] == Pass(old(model).passes[key].number, e.next.value)
                    && Goal() == Drive(old(model), key, script, pos - 1)
                    && GoalAnswer() == Answer(old(model), key, script, pos - 1))
    {
      hide Serve, Interfere, OneCall, Agrees;
      CallAgrees(before, model, key, turn);
      OneCallRanksDown(model, key, turn);
      model := OneCall(model, key, turn);
    }

    // ----- API calls -----

    method Get(k: ObjKey) returns (r: Result<Option<Object>>)
      requires Kinded(world.store)
      modifies `world, `pos
      ensures pos == old(pos) + 1 && world == old(Met()) && Kinded(world.store)
      ensures var outcome := script(old(pos)).outcome;
              r == if outcome.Served? then Ok(Lookup(world.store.objs, k)) else Err(outcome.why)
    {
      var t := Arrive();
      r := if t.outcome.Served? then Ok(Lookup(world.store.objs, k)) else Err(t.outcome.why);
    }

    method Create(k: ObjKey, o: Object) returns (err: Option<string>)
      requires Kinded(world.store)
      modifies `world, `pos
      ensures pos == old(pos) + 1 && Kinded(world.store)
      ensures var mid, outcome := old(Met()), script(old(pos)).outcome;
              && world == mid.(store := WrittenStore(mid.store, k, None, o, outcome))
              && err == WriteError(mid.store, k, None, o, outcome)
    {
      var t := Arrive();
      AdmitKinds(k, o);
      if t.outcome.Refused? {
        return Some(t.outcome.why);
      }
      if k in world.store.objs {
        return Some("already exists");
      }
      world := world.(store := WithObjs(world.store, world.store.objs[k := Admit(k, o)]));
      err := if t.outcome.Lost? then Some(t.outcome.why) else None;
    }

    /** An update of the object last seen as `seen`. */
    method Update(k: ObjKey, seen: Object, o: Object) returns (err: Option<string>)
      requires Kinded(world.store)
      modifies `world, `pos
      ensures pos == old(pos) + 1 && Kinded(world.store)
      ensures var mid, outcome := old(Met()), script(old(pos)).outcome;
              && world == mid.(store := WrittenStore(mid.store, k, Some(seen), o, outcome))
              && err == WriteError(mid.store, k, Some(seen), o, outcome)
    {
      var t := Arrive();
      AdmitKinds(k, o);
      if t.outcome.Refused? {
        return Some(t.outcome.why);
      }
      if k !in world.store.objs {
        return Some("not found");
      }
      if world.store.objs[k] != seen {
        return Some("the object has been modified");
      }
      if !ImmutableKept(seen.body, o.body) {
        return Some("field is immutable");
      }
      world := world.(store := WithObjs(world.store, world.store.objs[k := Admit(k, o)]));
      err := if t.outcome.Lost? then Some(t.outcome.why) else None;
    }

    method Delete(k: ObjKey) returns (err: Option<ApiError>)
      requires Kinded(world.store)
      modifies `world, `pos
      ensures pos == old(pos) + 1 && Kinded(world.store)
      ensures var mid, outcome := old(Met()), script(old(pos)).outcome;
              && world == mid.(store := if outcome.Refused? then mid.store
                                        else WithObjs(mid.store, mid.store.objs - {k}))
              && (if outcome.Served? then err == (if k in mid.store.objs then None else Some(NotFound))
                  else err == Some(Failure(outcome.why)))
    {
      var t := Arrive();
      if t.outcome.Refused? {
        return Some(Failure(t.outcome.why));
      }
      var found := k in world.store.objs;
      assert !found ==> world.store.objs - {k} == world.store.objs;
      world := world.(store := WithObjs(world.store, world.store.objs - {k}));
      if t.outcome.Lost? {
        return Some(Failure(t.outcome.why));
      }
      err := if found then None else Some(NotFound);
    }

    /** Reads the resource; an answer that is not an error and not an object means it does not exist. */
    method GetResource() returns (r: Result<Option<Kubeshark>>)
      requires Kinded(world.store)
      modifies `world, `pos
      ensures pos == old(pos) + 1 && world == old(Met()) && Kinded(world.store)
      ensures var outcome := script(old(pos)).outcome;
              r == if outcome.Served? then Ok(Lookup(world.store.crs, key)) else Err(outcome.why)
    {
      var t := Arrive();
      r := if t.outcome.Served? then Ok(Lookup(world.store.crs, key)) else Err(t.outcome.why);
    }

    method UpdateResource(cr: ResourceCopy) returns (err: Option<string>)
      requires Kinded(world.store)
      modifies `world, `pos
      ensures pos == old(pos) + 1 && Kinded(world.store)
      ensures var mid, outcome := old(Met()), script(old(pos)).outcome;
              && world == mid.(store := UpdatedStore(mid.store, key, cr.version, cr.Value(), outcome))
              && err == UpdateError(mid.store, key, cr.version, outcome)
    {
      var t := Arrive();
      err := UpdateError(world.store, key, cr.version, t.outcome);
      world := world.(store := UpdatedStore(world.store, key, cr.version, cr.Value(), t.outcome));
    }

    /** Patches the status with what changed between the two copies. */
    method PatchStatus(orig: ResourceCopy, changed: ResourceCopy) returns (err: Option<string>)
      requires Kinded(world.store)
      modifies `world, `pos
      ensures pos == old(pos) + 1 && Kinded(world.store)
      ensures var mid, outcome := old(Met()), script(old(pos)).outcome;
              && err == PatchError(mid.store, key, outcome)
              && world == mid.(store :=
                   PatchedStore(mid.store, key, orig.Value().status, changed.Value().status, outcome))
    {
      var t := Arrive();
      err := PatchError(world.store, key, t.outcome);
      world := world.(store := PatchedStore(world.store, key, orig.Value().status, changed.Value().status, t.outcome));
    }
  }

  // ----- One child -----

  /** Where the Get of child i leads. */
  function Fetched(cr: Kubeshark, i: nat, r: Result<Option<Object>>): Phase
    requires i < COUNT
  {
    match r
    case Err(why) => Reporting(cr, StepError(i, why))
    case Ok(x) =>
      match Mutate(ORDER[i], cr.ToView(), Found(ORDER[i], x))
      case Err(why) => Reporting(cr, StepError(i, why))
      case Ok(o) => if x == Some(o) then Advanced(cr, i) else Writing(cr, i, x)
  }

  lemma FetchCalled(s: Store, key: CrKey, number: nat, cr: Kubeshark, i: nat, outcome: Outcome, now: nat)
    requires i < COUNT
    ensures var e := Serve(s, key, Pass(number, Fetching(cr, i)), outcome, now);
            && e.store == s
            && e.next == Some(Fetched(cr, i,
                 if outcome.Served? then Ok(Lookup(s.objs, KeyAt(i, cr.ToView()))) else Err(outcome.why)))
  {
    hide Mutate, StepError, Advanced, KeyAt;
  }

  lemma WriteCalled(s: Store, key: CrKey, number: nat, cr: Kubeshark, i: nat, seen: Option<Object>, o: Object,
          outcome: Outcome, now: nat)
    requires i < COUNT && Mutate(ORDER[i], cr.ToView(), Found(ORDER[i], seen)) == Ok(o)
    ensures var e := Serve(s, key, Pass(number, Writing(cr, i, seen)), outcome, now);
            var k := KeyAt(i, cr.ToView());
            var err := WriteError(s, k, seen, o, outcome);
            && e.store == WrittenStore(s, k, seen, o, outcome)
            && e.next == Some(if err.None? then Advanced(cr, i) else Reporting(cr, StepError(i, err.value)))
  {
    hide Mutate, StepError, Advanced, KeyAt, Admit;
  }

  /** Sends the mutated copy: a create where nothing was found, an update of what was. */
  method Send(cl: Cluster, cr: ResourceCopy, i: nat, seen: Option<Object>, o: Object) returns (err: Option<string>)
    requires i < COUNT && cl.At(Writing(cr.Value(), i, seen))
    requires Mutate(ORDER[i], cr.ToView(), Found(ORDER[i], seen)) == Ok(o)
    modifies cl
    ensures cl.At(if err.None? then Advanced(cr.Value(), i) else Reporting(cr.Value(), StepError(i, err.value)))
    ensures cl.Goal() == old(cl.Goal()) && cl.GoalAnswer() == old(cl.GoalAnswer())
  {
    hide Serve, Mutate, WrittenStore, WriteError, StepError, Drive, Answer, Interfere, Agrees, LastAnswer, Admit;
    var k := KeyOf(ORDER[i], cr.ToView());
    ghost var w, t, mid, number := cl.world, cl.script(cl.pos), cl.Met(), cl.model.passes[cl.key].number;
    if seen.None? {
      err := cl.Create(k, o);
    } else {
      err := cl.Update(k, seen.value, o);
    }
    WriteCalled(mid.store, cl.key, number, cr.Value(), i, seen, o, t.outcome, t.now);
    cl.Follow(w, t, Writing(cr.Value(), i, seen));
  }

  /** Get, mutate the copy, write only if there is something to change. */
  method CreateOrUpdate(cl: Cluster, cr: ResourceCopy, labels: StrMap, i: nat) returns (err: Option<string>)
    requires i < COUNT && cl.At(Fetching(cr.Value(), i)) && labels == ComponentLabels(cr.id.key.name)
    modifies cl
    ensures cl.At(if err.None? then Advanced(cr.Value(), i) else Reporting(cr.Value(), StepError(i, err.value)))
    ensures cl.Goal() == old(cl.Goal()) && cl.GoalAnswer() == old(cl.GoalAnswer())
  {
    hide Serve, Mutate, StepError, Drive, Answer, Interfere, Agrees, ComponentLabels, LastAnswer;
    var c, v := ORDER[i], cr.ToView();
    var k := KeyOf(c, v);
    var obj := new ChildObject(KindFor(c));
    ghost var copy := cr.Value();
    ghost var w, t, number := cl.world, cl.script(cl.pos), cl.model.passes[cl.key].number;
    var found := cl.Get(k);
    FetchCalled(cl.world.store, cl.key, number, copy, i, t.outcome, t.now);
    cl.Follow(w, t, Fetching(copy, i));
    if found.Err? {
      return Some(found.why);
    }
    if found.value.None? {
      err := Apply(c, v, labels, obj);
      if err.Some? {
        return;
      }
      err := Send(cl, cr, i, None, obj.Value());
      return;
    }
    var existing := found.value.value;
    obj.Load(existing);
    err := Apply(c, v, labels, obj);
    if err.Some? {
      return;
    }
    if obj.Value() == existing {
      return None;
    }
    err := Send(cl, cr, i, Some(existing), obj.Value());
  }

  // ----- The components, each in its own order -----

  /** The index of a component's first child. */
  const FIRST: seq<nat> := [0, 4, 7, 8, 11, 12]

  /** Where a component leaves the reconcile. */
  ghost predicate StepDone(cl: Cluster, cr: Kubeshark, i: nat, err: Option<string>)
    requires 0 < i <= COUNT
    reads cl
  {
    if err.Some? then cl.At(Reporting(cr, StepFailed(err.value))) else cl.At(Advanced(cr, i - 1))
  }

  method ReconcileHub(cl: Cluster, cr: ResourceCopy, labels: StrMap) returns (err: Option<string>)
    requires cl.At(Fetching(cr.Value(), 0)) && labels == ComponentLabels(cr.id.key.name)
    modifies cl
    ensures StepDone(cl, cr.Value(), 4, err)
    ensures cl.Goal() == old(cl.Goal()) && cl.GoalAnswer() == old(cl.GoalAnswer())
  {
    hide Drive, Answer, Agrees, Kinded;
    err := CreateOrUpdate(cl, cr, labels, 0);
    if err.Some? { return; }
    err := CreateOrUpdate(cl, cr, labels, 1);
    if err.Some? { return; }
    err := CreateOrUpdate(cl, cr, labels, 2);
    if err.Some? { return Some("hub Deployment: " + err.value); }
    err := CreateOrUpdate(cl, cr, labels, 3);
  }

  method ReconcileRbac(cl: Cluster, cr: ResourceCopy, labels: StrMap) returns (err: Option<string>)
    requires cl.At(Fetching(cr.Value(), 4)) && labels == ComponentLabels(cr.id.key.name)
    modifies cl
    ensures StepDone(cl, cr.Value(), 7, err)
    ensures cl.Goal() == old(cl.Goal()) && cl.GoalAnswer() == old(cl.GoalAnswer())
  {
    hide Drive, Answer, Agrees, Kinded;
    err := CreateOrUpdate(cl, cr, labels, 4);
    if err.Some? { return; }
    err := CreateOrUpdate(cl, cr, labels, 5);
    if err.Some? { return Some("ClusterRole: " + err.value); }
    err := CreateOrUpdate(cl, cr, labels, 6);
    if err.Some? { return Some("ClusterRoleBinding: " + err.value); }
  }

  method ReconcileWorker(cl: Cluster, cr: ResourceCopy, labels: StrMap) returns (err: Option<string>)
    requires cl.At(Fetching(cr.Value(), 7)) && labels == ComponentLabels(cr.id.key.name)
    modifies cl
    ensures StepDone(cl, cr.Value(), 8, err)
    ensures cl.Goal() == old(cl.Goal()) && cl.GoalAnswer() == old(cl.GoalAnswer())
  {
    hide Drive, Answer, Agrees, Kinded;
    err := CreateOrUpdate(cl, cr, labels, 7);
  }

  method ReconcileFrontend(cl: Cluster, cr: ResourceCopy, labels: StrMap) returns (err: Option<string>)
    requires cl.At(Fetching(cr.Value(), 8)) && labels == ComponentLabels(cr.id.key.name)
    modifies cl
    ensures StepDone(cl, cr.Value(), 11, err)
    ensures cl.Goal() == old(cl.Goal()) && cl.GoalAnswer() == old(cl.GoalAnswer())
  {
    hide Drive, Answer, Agrees, Kinded;
    err := CreateOrUpdate(cl, cr, labels, 8);
    if err.Some? { return Some("frontend Deployment: " + err.value); }
    err := CreateOrUpdate(cl, cr, labels, 9);
    if err.Some? { return; }
    err := CreateOrUpdate(cl, cr, labels, 10);
  }

  method ReconcileSecret(cl: Cluster, cr: ResourceCopy, labels: StrMap) returns (err: Option<string>)
    requires cl.At(Fetching(cr.Value(), 11)) && labels == ComponentLabels(cr.id.key.name)
    modifies cl
    ensures StepDone(cl, cr.Value(), 12, err)
    ensures cl.Goal() == old(cl.Goal()) && cl.GoalAnswer() == old(cl.GoalAnswer())
  {
    hide Drive, Answer, Agrees, Kinded;
    err := CreateOrUpdate(cl, cr, labels, 11);
  }

  datatype Step = Hub | Rbac | Worker | Frontend | SecretStep

  method RunStep(step: Step, n: nat, cl: Cluster, cr: ResourceCopy, labels: StrMap) returns (err: Option<string>)
    requires n < 5 && step == [Hub, Rbac, Worker, Frontend, SecretStep][n]
    requires cl.At(Fetching(cr.Value(), FIRST[n])) && labels == ComponentLabels(cr.id.key.name)
    modifies cl
    ensures StepDone(cl, cr.Value(), FIRST[n + 1], err)
    ensures cl.Goal() == old(cl.Goal()) && cl.GoalAnswer() == old(cl.GoalAnswer())
  {
    hide Drive, Answer, Agrees, Kinded;
    match step {
      case Hub => err := ReconcileHub(cl, cr, labels);
      case Rbac => err := ReconcileRbac(cl, cr, labels);
      case Worker => err := ReconcileWorker(cl, cr, labels);
      case Frontend => err := ReconcileFrontend(cl, cr, labels);
      case SecretStep => err := ReconcileSecret(cl, cr, labels);
    }
  }

  // ----- The status report -----

  /** Sets the Ready condition on the copy, then patches what changed; the patch error is the caller's to report. */
  method SetReadyCondition(cl: Cluster, cr: ResourceCopy, ready: bool, reason: string, message: string,
          ghost verdict: Verdict)
    returns (err: Option<string>)
    requires cl.At(Reporting(cr.Value(), verdict))
    requires ready == verdict.Reconciled? && reason == Reason(verdict) && message == Message(verdict)
    modifies cl, cr`conditions, cr`observedGeneration
    ensures cl.Over() && cl.model == old(cl.Goal())
    ensures old(cl.GoalAnswer()) == if ready then err else Some(message)
  {
    hide Drive, Answer, Interfere, Agrees, Conditions.PatchStatus, SetStatusCondition;
    ghost var copy := cr.Value();
    ghost var w, t, mid := cl.world, cl.script(cl.pos), cl.Met();
    var orig := cr.DeepCopy();
    var now := cl.script(cl.pos).now;
    cr.conditions := SetStatusCondition(cr.conditions, Condition(READY, ready, reason, message, cr.generation, now));
    cr.observedGeneration := cr.generation;
    assert cr.Value() == copy.(status := ReportedStatus(copy, verdict, now));
    err := cl.PatchStatus(orig, cr);
    cl.Follow(w, t, Reporting(copy, verdict));
    if err.Some? {
      err := Some("patch status: " + err.value);
    }
  }

  // ----- Deletion -----

  /** Deletes the cluster-scoped objects, which no owner reference covers, then gives up the finalizer. */
  method ReconcileDelete(cl: Cluster, cr: ResourceCopy) returns (err: Option<string>)
    requires cr.deleting && cr.version == cr.Value()
    requires if HasFinalizer(cr.Value()) then cl.At(Deleting(cr.Value(), 0)) else cl.Over()
    modifies cl, cr`finalizers
    ensures !old(HasFinalizer(cr.Value())) ==> err == None && cl.Over() && cl.model == old(cl.model)
    ensures old(HasFinalizer(cr.Value())) ==>
              if err.None? then cl.Over() && cl.model == old(cl.Goal()) && old(cl.GoalAnswer()) == None
              else && cl.At(Reporting(cr.Value(), DeleteFailed(err.value)))
                   && cl.Goal() == old(cl.Goal()) && cl.GoalAnswer() == old(cl.GoalAnswer())
  {
    hide Drive, Answer, Interfere, Agrees, WriteBack, Without;
    if FINALIZER !in cr.finalizers {
      return None;
    }
    ghost var copy := cr.Value();
    var v := cr.ToView();
    var clusterObjects := [KeyOf(OperatorRole, v), KeyOf(OperatorBinding, v)];
    for n := 0 to 2
      invariant cl.At(if n < 2 then Deleting(copy, n) else DroppingFinalizer(copy))
      invariant cl.Goal() == old(cl.Goal()) && cl.GoalAnswer() == old(cl.GoalAnswer())
      invariant cr.Value() == copy
    {
      ghost var w, t, mid := cl.world, cl.script(cl.pos), cl.Met();
      assert clusterObjects[n] == ClusterKey(v, n);
      var failed := cl.Delete(clusterObjects[n]);
      cl.Follow(w, t, Deleting(copy, n));
      if failed.Some? && failed.value != NotFound {
        return Some(failed.value.Text());
      }
    }
    cr.RemoveFinalizer();
    ghost var w, t, mid := cl.world, cl.script(cl.pos), cl.Met();
    err := cl.UpdateResource(cr);
    cl.Follow(w, t, DroppingFinalizer(copy));
  }

  // ----- Reconcile -----

  lemma ReadCalled(s: Store, key: CrKey, number: nat, outcome: Outcome, now: nat)
    ensures var e := Serve(s, key, Pass(number, Reading), outcome, now);
            && e.store == s
            && e.next == (if !outcome.Served? || key !in s.crs then None
                          else if s.crs[key].deleting then
                            if HasFinalizer(s.crs[key]) then Some(Deleting(s.crs[key], 0)) else None
                          else if HasFinalizer(s.crs[key]) then Some(Fetching(s.crs[key], 0))
                          else Some(AddingFinalizer(s.crs[key])))
  {
  }

  lemma FinalizerCalled(s: Store, key: CrKey, number: nat, cr: Kubeshark, outcome: Outcome, now: nat)
    requires !cr.deleting
    ensures var e := Serve(s, key, Pass(number, AddingFinalizer(cr)), outcome, now);
            e.store == UpdatedStore(s, key, cr, Api.AddFinalizer(cr), outcome) && e.next.None?
  {
    hide WriteBack;
  }

  /** The components in order, stopping and reporting at the first error. */
  method RunSteps(cl: Cluster, cr: ResourceCopy) returns (err: Option<string>)
    requires cl.At(Fetching(cr.Value(), 0))
    modifies cl, cr`conditions, cr`observedGeneration
    ensures cl.Over() && cl.model == old(cl.Goal()) && err == old(cl.GoalAnswer())
  {
    hide Drive, Answer, Interfere, Agrees, Kinded, Serve, ComponentLabels;
    var labels := ComponentLabels(cr.id.key.name);
    var steps := [Hub, Rbac, Worker, Frontend, SecretStep];
    for n := 0 to |steps|
      invariant cr.Value() == old(cr.Value())
      invariant cl.At(if n < 5 then Fetching(cr.Value(), FIRST[n]) else Reporting(cr.Value(), Reconciled))
      invariant cl.Goal() == old(cl.Goal()) && cl.GoalAnswer() == old(cl.GoalAnswer())
    {
      err := RunStep(steps[n], n, cl, cr, labels);
      if err.Some? {
        var _ := SetReadyCondition(cl, cr, false, "ReconcileError", err.value, StepFailed(err.value));
        return;
      }
    }
    err := SetReadyCondition(cl, cr, true, "Reconciled", "All components reconciled", Reconciled);
  }

  /**
   One reconcile. Whatever happens between its calls and whichever of them fail, the cluster ends as the
   transition system says. No error is returned exactly if no call failed, and the last one then found the resource
   absent or released, gave it its finalizer or took it, or reported success; else the first failed call's error is.
   */
  method Reconcile(cl: Cluster) returns (err: Option<string>)
    requires cl.Over() && cl.pos == 0
    modifies cl
    ensures cl.Over() && cl.model == Passes.Reconcile(old(cl.model), cl.key, cl.script)
    ensures err == Answer(Next(old(cl.model), Start(cl.key)), cl.key, cl.script, 0)
    ensures Returns(Next(old(cl.model), Start(cl.key)), cl.key, cl.script, 0, err)
  {
    hide Drive, Answer, Interfere, Agrees, Kinded, Serve, UpdatedStore, ComponentLabels, Returns;
    ReconcileReturns(cl.model, cl.key, cl.script);
    cl.Begin();
    ghost var w, t, mid := cl.world, cl.script(cl.pos), cl.Met();
    ghost var number := cl.model.passes[cl.key].number;
    var got := cl.GetResource();
    ReadCalled(mid.store, cl.key, number, t.outcome, t.now);
    cl.Follow(w, t, Reading);
    if got.Err? {
      return Some(got.why);
    }
    if got.value.None? {
      return None;
    }
    var cr := new ResourceCopy(got.value.value, got.value.value);
    if cr.deleting {
      err := ReconcileDelete(cl, cr);
      if err.Some? {
        var _ := SetReadyCondition(cl, cr, false, "DeleteFailed", err.value, DeleteFailed(err.value));
      }
      return;
    }
    if FINALIZER !in cr.finalizers {
      ghost var copy := cr.Value();
      cr.AddFinalizer();
      w, t, mid := cl.world, cl.script(cl.pos), cl.Met();
      err := cl.UpdateResource(cr);
      FinalizerCalled(mid.store, cl.key, number, copy, t.outcome, t.now);
      cl.Follow(w, t, AddingFinalizer(copy));
      return;
    }
    err := RunSteps(cl, cr);
  }
}
