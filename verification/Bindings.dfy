/** The ClusterRoleBinding of a live resource, over whole runs: what it refers to, and what it may not change. */
module Bindings {
  import opened Wrappers
  import opened Api
  import opened Objects
  import opened Names
  import opened Components
  import opened Laws
  import opened Conditions
  import opened Operator
  import opened Runs
  import opened Cleanup
  import opened References

  /** Nobody else touches a cluster-scoped object once the operator manages it. */
  ghost predicate ManagedUntouched(sys: System, ev: Event) {
    match ev
    case Outside(Drift(k, _)) => ClusterScoped(k) ==> forall id :: Managed(id, k) !in sys.log
    case _ => true
  }

  ghost predicate BindingAssumptions(sys: System, ev: Event) {
    ReferenceAssumptions(sys, ev) && ManagedUntouched(sys, ev)
  }

  /** No cluster-scoped name of this incarnation was computed for another resource, or for a later incarnation. */
  ghost predicate Unshared(log: set<Entry>, id: CrId) {
    forall k :: Computed(log, id, k) ==> Exclusive(log, id, k)
  }

  ghost predicate NotCondemned(log: set<Entry>, id: CrId) {
    forall spec :: DeletionRead(id, spec) !in log
  }

  /** The binding holds what the view asks for, and the role and both service accounts are there. */
  predicate Bound(objs: map<ObjKey, Object>, v: View, k: ObjKey) {
    && k == KeyOf(OperatorBinding, v) && k in objs
    && objs[k].body == ClusterRoleBinding(ClusterRoleName(v),
                         [Subject(HubServiceAccountName(v), v.Ns()), Subject(WorkerServiceAccountName(v), v.Ns())])
    && KeyOf(OperatorRole, v) in objs
    && InPlace(objs, v, 1) && InPlace(objs, v, 4)
  }

  ghost predicate BoundSome(sys: System, id: CrId, k: ObjKey) {
    exists spec :: HasVersion(sys.log, id, spec) && Bound(sys.store.objs, View(id, spec), k)
  }

  predicate IsBinding(k: ObjKey) {
    k.kind == KClusterRoleBinding
  }

  /** A binding under management of a live incarnation that shares no name. */
  ghost predicate Tended(sys: System, id: CrId, k: ObjKey) {
    Managed(id, k) in sys.log && IsBinding(k) && Unshared(sys.log, id) && NotCondemned(sys.log, id)
  }

  ghost predicate RoleInPlace(sys: System, ph: Phase) {
    InRange(ph) && (ph.Fetching? || ph.Writing?) && ph.i > 5 && Unshared(sys.log, ph.cr.id) ==>
      KeyOf(OperatorRole, ph.cr.ToView()) in sys.store.objs
  }

  ghost predicate BindingsHold(sys: System) {
    && (forall id, k :: Tended(sys, id, k) ==> BoundSome(sys, id, k))
    && (forall key <- sys.passes :: RoleInPlace(sys, sys.passes[key].phase))
  }

  ghost predicate Good(sys: System) {
    Sound(sys) && Tidy(sys) && Linked(sys) && BindingsHold(sys)
  }

  lemma UnsharedBefore(log: set<Entry>, log': set<Entry>, id: CrId)
    requires log <= log'
    ensures Unshared(log', id) ==> Unshared(log, id)
    ensures NotCondemned(log', id) ==> NotCondemned(log, id)
  {
    if Unshared(log', id) {
      forall k | Computed(log, id, k)
        ensures Exclusive(log, id, k)
      {
        ComputedGrows(log, log', id, k);
      }
    }
  }

  lemma TendedIsLive(sys: System, id: CrId, k: ObjKey)
    requires Tidy(sys) && Tended(sys, id, k)
    ensures Live(sys.store, id)
  {
    assert ManagedOk(sys, id, k);
    ReleasedWasRead(sys, id);
  }

  lemma ReleasedWasRead(sys: System, id: CrId)
    requires Tidy(sys)
    ensures WasReleased(sys.log, id) ==> !NotCondemned(sys.log, id)
  {
    if WasReleased(sys.log, id) {
      var n: nat, spec :| Released(n, id, spec) in sys.log;
      assert DeletionRead(id, spec) in sys.log;
    }
  }

  lemma VersionComputes(log: set<Entry>, id: CrId, spec: Spec)
    requires HasVersion(log, id, spec)
    ensures Computed(log, id, KeyOf(OperatorRole, View(id, spec)))
    ensures Computed(log, id, KeyOf(OperatorBinding, View(id, spec)))
  {
    var g: nat :| Version(id, g, spec) in log;
    var v := View(id, spec);
    assert AsksFor(v, KeyOf(OperatorRole, v)) && AsksFor(v, KeyOf(OperatorBinding, v));
  }

  // ----- Steps that write no child -----

  /** Cluster-scoped objects of live incarnations are untouched. */
  ghost predicate ClusterKept(sys: System, sys': System) {
    && sys.log <= sys'.log && Benign(sys, sys')
    && (forall id, k |
          Managed(id, k) in sys.log && IsBinding(k) && Unshared(sys'.log, id) && NotCondemned(sys'.log, id) ::
          k in sys.store.objs ==> k in sys'.store.objs && sys'.store.objs[k] == sys.store.objs[k])
    && (forall id, k | Computed(sys.log, id, k) && Unshared(sys'.log, id) && NotCondemned(sys'.log, id) ::
          k in sys.store.objs ==> k in sys'.store.objs)
    && (forall e <- sys'.log :: e in sys.log || !e.Managed?)
    && (forall key <- sys'.passes ::
          (key in sys.passes && sys'.passes[key] == sys.passes[key]) || !sys'.passes[key].phase.Writing?)
  }

  lemma KeptBound(sys: System, sys': System, id: CrId, k: ObjKey)
    requires Sound(sys) && Tidy(sys) && BindingsHold(sys) && ClusterKept(sys, sys') && Tended(sys', id, k)
    ensures BoundSome(sys', id, k)
  {
    hide Benign, Sound, InPlace, Exclusive, KeyOf;
    UnsharedBefore(sys.log, sys'.log, id);
    assert Tended(sys, id, k);
    TendedIsLive(sys, id, k);
    var spec :| HasVersion(sys.log, id, spec) && Bound(sys.store.objs, View(id, spec), k);
    var v := View(id, spec);
    VersionComputes(sys.log, id, spec);
    VersionsStay(sys.log, sys'.log, id, spec);
    BenignInPlace(sys, sys', v, 1);
    BenignInPlace(sys, sys', v, 4);
    assert Bound(sys'.store.objs, v, k);
  }

  lemma KeptBindings(sys: System, sys': System)
    requires Sound(sys) && Sound(sys') && Tidy(sys) && BindingsHold(sys) && ClusterKept(sys, sys')
    ensures BindingsHold(sys')
  {
    hide Tidy, BoundSome, Tended, Unshared, StoredCrOk, LogOk, Computed;
    forall id, k | Tended(sys', id, k)
      ensures BoundSome(sys', id, k)
    {
      KeptBound(sys, sys', id, k);
    }
    forall key <- sys'.passes
      ensures RoleInPlace(sys', sys'.passes[key].phase)
    {
      var ph := sys'.passes[key].phase;
      if InRange(ph) && (ph.Fetching? || ph.Writing?) && ph.i > 5 && Unshared(sys'.log, ph.cr.id) {
        KeptRole(sys, sys', key);
      }
    }
  }

  lemma KeptRole(sys: System, sys': System, key: CrKey)
    requires Sound(sys) && Sound(sys') && BindingsHold(sys) && ClusterKept(sys, sys')
    requires key in sys'.passes && InRange(sys'.passes[key].phase)
    requires sys'.passes[key].phase.Fetching? || sys'.passes[key].phase.Writing?
    requires sys'.passes[key].phase.i > 5 && Unshared(sys'.log, sys'.passes[key].phase.cr.id)
    ensures KeyOf(OperatorRole, sys'.passes[key].phase.cr.ToView()) in sys'.store.objs
  {
    hide Tended, BoundSome, Exclusive, KeyOf, StoredCrOk, LogOk;
    var ph := sys'.passes[key].phase;
    assert CopyOk(sys', key, sys'.passes[key]);
    assert sys.passes[key].phase == ph && CopyOk(sys, key, sys.passes[key]) && RoleInPlace(sys, ph);
    UnsharedBefore(sys.log, sys'.log, ph.cr.id);
    assert CurrentVersion(ph.cr) in sys.log;
    assert HasVersion(sys.log, ph.cr.id, ph.cr.spec);
    VersionComputes(sys.log, ph.cr.id, ph.cr.spec);
  }

  lemma ComputedIsCluster(log: set<Entry>, id: CrId, k: ObjKey)
    requires Computed(log, id, k)
    ensures ClusterScoped(k)
  {
  }

  lemma OutsideKept(sys: System, a: Action)
    requires Sound(sys) && Tidy(sys) && BindingAssumptions(sys, Outside(a))
    ensures ClusterKept(sys, Next(sys, Outside(a)))
  {
    hide Benign, Unshared, NotCondemned, Computed, Sound, Tidy, Refs, Admit;
    OutsideBenign(sys, a);
    forall id, k | Computed(sys.log, id, k)
      ensures ClusterScoped(k)
    {
      ComputedIsCluster(sys.log, id, k);
    }
  }

  lemma StartKept(sys: System, ev: Event)
    requires Sound(sys) && (ev.Start? || ev.Crash?)
    ensures ClusterKept(sys, Next(sys, ev))
  {
    hide Benign, Unshared, NotCondemned, Computed, Sound;
    StartBenign(sys, ev);
  }

  lemma QuietCallKept(sys: System, key: CrKey, outcome: Outcome, now: nat)
    requires Sound(sys) && key in sys.passes && !sys.passes[key].phase.Fetching? && !sys.passes[key].phase.Writing?
    requires !sys.passes[key].phase.Deleting? && !sys.passes[key].phase.DroppingFinalizer?
    ensures ClusterKept(sys, Next(sys, Call(key, outcome, now)))
  {
    hide Benign, Unshared, NotCondemned, Computed, Sound, WriteBack, PatchStatus, ReportedStatus;
    QuietCallBenign(sys, key, outcome, now);
  }

  lemma DroppingKept(sys: System, key: CrKey, outcome: Outcome, now: nat)
    requires Sound(sys) && key in sys.passes && sys.passes[key].phase.DroppingFinalizer?
    ensures ClusterKept(sys, Next(sys, Call(key, outcome, now)))
  {
    hide Benign, Unshared, NotCondemned, Computed, Sound, WriteBack, Without;
    DroppingBenign(sys, key, outcome, now);
  }

  /** A deletion pass takes only its own names, and its incarnation is condemned. */
  lemma DeletingKept(sys: System, key: CrKey, outcome: Outcome, now: nat)
    requires Sound(sys) && Tidy(sys) && key in sys.passes && sys.passes[key].phase.Deleting?
    ensures ClusterKept(sys, Next(sys, Call(key, outcome, now)))
  {
    hide Benign, StoredCrOk, LogOk, ClusterKey, Tidy, Computed, Exclusive, Unshared, NotCondemned;
    var cr := sys.passes[key].phase.cr;
    var gone := ClusterKey(cr.ToView(), sys.passes[key].phase.i);
    var sys' := Next(sys, Call(key, outcome, now));
    DeletingBenign(sys, key, outcome, now);
    assert CopyOk(sys, key, sys.passes[key]);
    forall id, k | Unshared(sys'.log, id) && NotCondemned(sys'.log, id) && Computed(sys.log, id, k)
      ensures k != gone
    {
      CondemnedNames(sys, sys', cr, sys.passes[key].phase.i, id, k);
    }
    forall id, k | Managed(id, k) in sys.log && IsBinding(k)
      ensures Computed(sys.log, id, k)
    {
      BindingsAreComputed(sys, id, k);
    }
  }

  lemma BindingsAreComputed(sys: System, id: CrId, k: ObjKey)
    requires Tidy(sys) && Managed(id, k) in sys.log && IsBinding(k)
    ensures Computed(sys.log, id, k)
  {
    assert ManagedOk(sys, id, k);
  }

  lemma CondemnedNames(sys: System, sys': System, cr: Kubeshark, i: nat, id: CrId, k: ObjKey)
    requires Sound(sys) && Live(sys.store, cr.id)
    requires i < 2 && CurrentVersion(cr) in sys.log && DeletionRead(cr.id, cr.spec) in sys.log && sys.log <= sys'.log
    requires Unshared(sys'.log, id) && NotCondemned(sys'.log, id) && Computed(sys.log, id, k)
    ensures k != ClusterKey(cr.ToView(), i)
  {
    hide ClusterKey, StoredCrOk, CopyOk, LogOk;
    assert AsksFor(View(cr.id, cr.spec), ClusterKey(cr.ToView(), i));
    assert Computed(sys.log, cr.id, ClusterKey(cr.ToView(), i));
    UnsharedBefore(sys.log, sys'.log, id);
    assert Exclusive(sys.log, id, k);
    StoredIsLatest(sys, cr.id, id, k);
    assert DeletionRead(cr.id, cr.spec) in sys'.log;
  }

  // ----- A child's step -----

  /** The objects a child's step may have changed, seen from a binding of some incarnation. */
  lemma ChildBound(sys: System, sys': System, key: CrKey, p: Pass, id: CrId, spec: Spec, k: ObjKey)
    requires Sound(sys) && key in sys.passes && sys.passes[key] == p
    requires InRange(p.phase) && (p.phase.Fetching? || p.phase.Writing?) && CopyOk(sys, key, p)
    requires ChildWrites(sys.store.objs, sys'.store.objs, p.phase.cr.ToView(), p.phase.i)
    requires Live(sys.store, id) && Bound(sys.store.objs, View(id, spec), k)
    requires k == KeyAt(p.phase.i, p.phase.cr.ToView()) ==> sys'.store.objs == sys.store.objs
    ensures Bound(sys'.store.objs, View(id, spec), k)
  {
    hide InPlace, StoredCrOk, LogOk, Put, OwnerBlocks, KeyOf;
    var w := View(id, spec);
    var v := p.phase.cr.ToView();
    SameKeySameId(sys, key, p, id);
    WriteKeepsInPlace(sys.store.objs, sys'.store.objs, v, p.phase.i, w, 1);
    WriteKeepsInPlace(sys.store.objs, sys'.store.objs, v, p.phase.i, w, 4);
  }

  lemma SameKeySameId(sys: System, key: CrKey, p: Pass, id: CrId)
    requires CopyOkAndHolding(sys, key, p) && Live(sys.store, id)
    ensures id == p.phase.cr.id || id.key != p.phase.cr.id.key
  {
  }

  ghost predicate CopyOkAndHolding(sys: System, key: CrKey, p: Pass) {
    InRange(p.phase) && (p.phase.Fetching? || p.phase.Writing?) && CopyOk(sys, key, p)
  }

  /** The pass's own binding, right after its step. */
  lemma OwnBound(sys: System, sys': System, key: CrKey, p: Pass, e: Effect)
    requires CopyOkAndHolding(sys, key, p) && p.phase.i == 6
    requires ChildShape(sys.store, p, e) && sys'.store == e.store && e.notes != {}
    requires CopyLinked(sys.store.objs, p.phase) && KeyOf(OperatorRole, p.phase.cr.ToView()) in sys.store.objs
    ensures Bound(sys'.store.objs, p.phase.cr.ToView(), KeyAt(6, p.phase.cr.ToView()))
  {
    hide InPlace, FieldBlocks, OwnerBlocks;
    var v := p.phase.cr.ToView();
    var k := KeyAt(6, v);
    assert InPlace(sys.store.objs, v, 1) && InPlace(sys.store.objs, v, 4);
    ChildWritesSo(sys.store, p, e);
    WriteKeepsInPlace(sys.store.objs, sys'.store.objs, v, 6, v, 1);
    WriteKeepsInPlace(sys.store.objs, sys'.store.objs, v, 6, v, 4);
    PutConforms(OperatorBinding, v, Lookup(sys.store.objs, k));
  }

  lemma ChildBoundSome(sys: System, sys': System, key: CrKey, p: Pass, e: Effect, id: CrId, k: ObjKey)
    requires Sound(sys) && Tidy(sys) && Linked(sys) && BindingsHold(sys) && key in sys.passes && sys.passes[key] == p
    requires CopyOkAndHolding(sys, key, p) && ChildShape(sys.store, p, e)
    requires sys'.store == e.store && sys'.log == sys.log + e.notes
    requires Tended(sys', id, k)
    ensures BoundSome(sys', id, k)
  {
    hide ChildShape, ChildWrites, CopyLinked, KeyOf, InPlace, StoredCrOk, LogOk, Tidy, Linked, Computed, Exclusive,
         Bound;
    var cr := p.phase.cr;
    var v := cr.ToView();
    var mine := KeyAt(p.phase.i, v);
    UnsharedBefore(sys.log, sys'.log, id);
    ChildWritesSo(sys.store, p, e);
    assert CurrentVersion(cr) in sys.log;
    assert HasVersion(sys.log, cr.id, cr.spec);
    ChildNotes(sys.store, p, e, id, k);
    if k == mine && e.notes != {} {
      OwnBinding(sys, sys', key, p, e, id, k);
    } else {
      assert Tended(sys, id, k);
      TendedIsLive(sys, id, k);
      var spec :| HasVersion(sys.log, id, spec) && Bound(sys.store.objs, View(id, spec), k);
      VersionsStay(sys.log, sys'.log, id, spec);
      QuietUnlessNoted(sys.store, p, e);
      ChildBound(sys, sys', key, p, id, spec, k);
    }
  }

  /** Only the pass's own key is newly managed, and only a noted step changes anything. */
  lemma ChildNotes(s: Store, p: Pass, e: Effect, id: CrId, k: ObjKey)
    requires InRange(p.phase) && (p.phase.Fetching? || p.phase.Writing?) && ChildShape(s, p, e)
    ensures Managed(id, k) in e.notes ==> id == p.phase.cr.id && k == KeyAt(p.phase.i, p.phase.cr.ToView())
  {
    hide Put, Shape, KeyAt, Blocked, OwnerBlocks;
  }

  lemma QuietUnlessNoted(s: Store, p: Pass, e: Effect)
    requires InRange(p.phase) && (p.phase.Fetching? || p.phase.Writing?) && ChildShape(s, p, e)
    ensures e.notes == {} ==> e.store == s
  {
    hide Put, Shape, KeyAt, Blocked, OwnerBlocks;
  }

  lemma OwnBinding(sys: System, sys': System, key: CrKey, p: Pass, e: Effect, id: CrId, k: ObjKey)
    requires Sound(sys) && Linked(sys) && BindingsHold(sys) && key in sys.passes && sys.passes[key] == p
    requires CopyOkAndHolding(sys, key, p) && ChildShape(sys.store, p, e) && e.notes != {}
    requires sys'.store == e.store && sys.log <= sys'.log && HasVersion(sys.log, p.phase.cr.id, p.phase.cr.spec)
    requires k == KeyAt(p.phase.i, p.phase.cr.ToView()) && IsBinding(k) && Unshared(sys.log, id)
    requires Tidy(sys)
    requires id == p.phase.cr.id || Managed(id, k) in sys.log
    ensures BoundSome(sys', id, k)
  {
    hide ChildShape, InPlace, StoredCrOk, LogOk, Bound, KeyOf;
    var cr := p.phase.cr;
    var v := cr.ToView();
    BindingIsSixth(p.phase.i, v);
    VersionComputes(sys.log, cr.id, cr.spec);
    if Managed(id, k) in sys.log { ManagerIsUnique(sys, id, cr.id, k); }
    assert RoleInPlace(sys, p.phase) && CopyLinked(sys.store.objs, p.phase);
    OwnBound(sys, sys', key, p, e);
    VersionsStay(sys.log, sys'.log, cr.id, cr.spec);
    assert Bound(sys'.store.objs, View(cr.id, cr.spec), k);
  }

  lemma ManagerIsUnique(sys: System, id: CrId, other: CrId, k: ObjKey)
    requires Sound(sys) && Tidy(sys) && Live(sys.store, other) && Computed(sys.log, other, k)
    requires Managed(id, k) in sys.log && IsBinding(k) && Unshared(sys.log, id)
    ensures id == other
  {
    hide Sound;
    assert ManagedOk(sys, id, k);
    StoredIsLatest(sys, other, id, k);
    assert Exclusive(sys.log, id, k);
  }

  lemma BindingIsSixth(i: nat, v: View)
    requires i < COUNT && IsBinding(KeyAt(i, v))
    ensures i == 6 && KeyAt(i, v) == KeyOf(OperatorBinding, v)
  {
  }

  lemma ChildRole(sys: System, sys': System, key: CrKey, p: Pass, e: Effect, other: CrKey)
    requires Sound(sys) && BindingsHold(sys) && key in sys.passes && sys.passes[key] == p
    requires CopyOkAndHolding(sys, key, p) && ChildShape(sys.store, p, e)
    requires sys'.store == e.store && sys'.log == sys.log + e.notes
    requires e.next.Some? && sys'.passes == sys.passes[key := Pass(p.number, e.next.value)]
    requires other in sys'.passes
    ensures RoleInPlace(sys', sys'.passes[other].phase)
  {
    hide ChildShape, KeyOf, StoredCrOk, LogOk, Tended, BoundSome, ChildWrites, InPlace;
    var ph := sys'.passes[other].phase;
    UnsharedBefore(sys.log, sys'.log, p.phase.cr.id);
    ChildWritesSo(sys.store, p, e);
    ObjsGrow(sys.store.objs, sys'.store.objs, p.phase.cr.ToView(), p.phase.i);
    if other != key {
      assert RoleInPlace(sys, sys.passes[other].phase);
      if InRange(ph) && (ph.Fetching? || ph.Writing?) { UnsharedBefore(sys.log, sys'.log, ph.cr.id); }
    } else {
      assert RoleInPlace(sys, p.phase);
      if p.phase.i == 5 { RoleStep(sys.store, p, e); }
    }
  }

  lemma ObjsGrow(objs: map<ObjKey, Object>, objs': map<ObjKey, Object>, v: View, i: nat)
    requires i < COUNT && ChildWrites(objs, objs', v, i)
    ensures forall k <- objs :: k in objs'
  {
    hide Put, OwnerBlocks, KeyAt;
  }

  lemma RoleStep(s: Store, p: Pass, e: Effect)
    requires InRange(p.phase) && (p.phase.Fetching? || p.phase.Writing?) && ChildShape(s, p, e) && p.phase.i == 5
    ensures e.next == Some(Advanced(p.phase.cr, 5)) ==> KeyOf(OperatorRole, p.phase.cr.ToView()) in e.store.objs
    ensures e.next != Some(Advanced(p.phase.cr, 5)) ==>
              e.next.Some? && (e.next.value.Reporting? || (e.next.value.Writing? && e.next.value.i == 5))
  {
    hide Put, Shape, Blocked, OwnerBlocks;
  }

  lemma ChildBindings(sys: System, key: CrKey, outcome: Outcome, now: nat)
    requires Good(sys) && key in sys.passes
    requires sys.passes[key].phase.Fetching? || sys.passes[key].phase.Writing?
    ensures BindingsHold(Next(sys, Call(key, outcome, now)))
  {
    hide FetchChild, WriteChild, ChildShape, StoredCrOk, LogOk, Tidy, Linked, Tended, BoundSome, RoleInPlace;
    var p := sys.passes[key];
    var e := Serve(sys.store, key, p, outcome, now);
    var sys' := Next(sys, Call(key, outcome, now));
    assert CopyOkAndHolding(sys, key, p);
    ChildHasShape(sys.store, key, p, outcome, now);
    ChildWritesSo(sys.store, p, e);
    forall id, k | Tended(sys', id, k)
      ensures BoundSome(sys', id, k)
    {
      ChildBoundSome(sys, sys', key, p, e, id, k);
    }
    forall other <- sys'.passes
      ensures RoleInPlace(sys', sys'.passes[other].phase)
    {
      ChildRole(sys, sys', key, p, e, other);
    }
  }

  lemma NextGood(sys: System, ev: Event)
    requires Good(sys) && BindingAssumptions(sys, ev)
    ensures Good(Next(sys, ev))
  {
    hide Sound, Tidy, Linked, BindingsHold, ClusterKept;
    NextKeeps(sys, ev);
    NextTidy(sys, ev);
    NextLinked(sys, ev);
    match ev {
      case Outside(a) => OutsideKept(sys, a); KeptBindings(sys, Next(sys, ev));
      case Call(key, outcome, now) =>
        if key !in sys.passes {
          assert Next(sys, ev) == sys;
        } else {
          match sys.passes[key].phase {
            case Fetching(_, _) => ChildBindings(sys, key, outcome, now);
            case Writing(_, _, _) => ChildBindings(sys, key, outcome, now);
            case Deleting(_, _) => DeletingKept(sys, key, outcome, now); KeptBindings(sys, Next(sys, ev));
            case DroppingFinalizer(_) => DroppingKept(sys, key, outcome, now); KeptBindings(sys, Next(sys, ev));
            case _ => QuietCallKept(sys, key, outcome, now); KeptBindings(sys, Next(sys, ev));
          }
        }
      case _ => StartKept(sys, ev); KeptBindings(sys, Next(sys, ev));
    }
  }

  lemma InitiallyGood()
    ensures Good(INITIAL)
  {
  }

  lemma {:induction false} RunsAreGood(evs: seq<Event>)
    requires Along(BindingAssumptions, evs)
    ensures Good(Run(INITIAL, evs))
    decreases |evs|
  {
    hide Good, Next;
    if evs != [] {
      AlongInit(BindingAssumptions, evs);
      RunsAreGood(evs[..|evs| - 1]);
      NextGood(Run(INITIAL, evs[..|evs| - 1]), evs[|evs| - 1]);
    } else {
      InitiallyGood();
    }
  }

  /**
   Referential integrity at every boundary between API calls. Every stored child controlled by an existing
   resource names only objects that are stored and controlled by that resource; and every binding managed by
   an incarnation not yet read for deletion, whose cluster-scoped names no other resource and no later incarnation
   computed, names a stored ClusterRole and two stored service accounts, as one version of the resource asks.
   */
  lemma ReferencesResolve(evs: seq<Event>)
    requires Along(BindingAssumptions, evs)
    ensures var sys := Run(INITIAL, evs);
            && (forall k <- sys.store.objs ::
                  LiveOwner(sys.store, k, sys.store.objs[k]) ==> Resolved(sys.store.objs, k))
            && (forall id, k :: Tended(sys, id, k) ==> Live(sys.store, id) && BoundSome(sys, id, k))
  {
    hide Sound, LiveOwner, Resolved, BoundSome, Tended;
    RunsAreGood(evs);
    var sys := Run(INITIAL, evs);
    forall id, k | Tended(sys, id, k)
      ensures Live(sys.store, id)
    {
      TendedIsLive(sys, id, k);
    }
  }

  /**
   A pass attempts to change the `roleRef` of a binding that its incarnation manages only if the role name
   changed while the binding name stayed in use.
   */
  lemma RoleRefChangesOnlyWithTheName(evs: seq<Event>, id: CrId, spec: Spec)
    requires Along(BindingAssumptions, evs)
    requires Tended(Run(INITIAL, evs), id, KeyOf(OperatorBinding, View(id, spec)))
    ensures var sys := Run(INITIAL, evs);
            var v := View(id, spec);
            var k := KeyOf(OperatorBinding, v);
            && k in sys.store.objs
            && (Blocked(OperatorBinding, v, Some(sys.store.objs[k])) ==>
                  exists earlier :: HasVersion(sys.log, id, earlier) && KeyOf(OperatorBinding, View(id, earlier)) == k
                                    && ClusterRoleName(View(id, earlier)) != ClusterRoleName(v))
  {
    hide Sound, Tidy, Linked, Tended, Bound, Blocked, KeyOf, Run;
    RunsAreGood(evs);
    var sys := Run(INITIAL, evs);
    var k := KeyOf(OperatorBinding, View(id, spec));
    assert BoundSome(sys, id, k);
    var earlier :| HasVersion(sys.log, id, earlier) && Bound(sys.store.objs, View(id, earlier), k);
    BoundBlocks(sys.store.objs, View(id, earlier), View(id, spec), k);
  }

  lemma BoundBlocks(objs: map<ObjKey, Object>, v: View, w: View, k: ObjKey)
    requires Bound(objs, v, k)
    ensures k in objs && k == KeyOf(OperatorBinding, v)
    ensures Blocked(OperatorBinding, w, Some(objs[k])) ==> ClusterRoleName(v) != ClusterRoleName(w)
  {
    hide InPlace;
  }
}
