/** Who may write which child, over whole runs: one controller, the finalizer first, immutable fields left alone. */
module Ownership {
  import opened Wrappers
  import opened Api
  import opened Objects
  import opened Names
  import opened Components
  import opened Laws
  import opened Conditions
  import opened Operator
  import opened Runs
  import opened References

  predicate Differs(s: Store, s': Store, k: ObjKey) {
    Lookup(s.objs, k) != Lookup(s'.objs, k)
  }

  /** The one write a reconcile makes at a child: its own view of it, on an object nobody else controls. */
  ghost predicate WritesItsOwn(sys: System, sys': System, key: CrKey, k: ObjKey) {
    && key in sys.passes && sys.passes[key].phase.Writing? && InRange(sys.passes[key].phase)
    && var ph := sys.passes[key].phase;
       var v := ph.cr.ToView();
       && ph.cr.id.key == key && k == KeyAt(ph.i, v) && ph.seen == Lookup(sys.store.objs, k)
       && !Blocked(ORDER[ph.i], v, ph.seen)
       && Lookup(sys'.store.objs, k) == Some(Put(ORDER[ph.i], v, ph.seen))
       && (!ClusterScoped(k) ==> k.ns == key.ns && sys'.store.objs[k].owner == Mine(v))
  }

  /** A deletion pass takes away a cluster-scoped object it read the name of. */
  ghost predicate RemovesItsOwn(sys: System, sys': System, key: CrKey, k: ObjKey) {
    && key in sys.passes && sys.passes[key].phase.Deleting?
    && var cr := sys.passes[key].phase.cr;
       && k == ClusterKey(cr.ToView(), sys.passes[key].phase.i) && ClusterScoped(k)
       && k !in sys'.store.objs
       && cr.deleting && DeletionRead(cr.id, cr.spec) in sys.log
  }

  lemma ChildChanges(sys: System, key: CrKey, outcome: Outcome, now: nat, k: ObjKey)
    requires Sound(sys) && key in sys.passes
    requires sys.passes[key].phase.Fetching? || sys.passes[key].phase.Writing?
    requires Differs(sys.store, Next(sys, Call(key, outcome, now)).store, k)
    ensures WritesItsOwn(sys, Next(sys, Call(key, outcome, now)), key, k)
  {
    hide FetchChild, WriteChild, Put, Shape, KeyAt, Blocked, OwnerBlocks, StoredCrOk, LogOk;
    var p := sys.passes[key];
    ChildHasShape(sys.store, key, p, outcome, now);
    assert CopyOk(sys, key, p);
    assert k == KeyAt(p.phase.i, p.phase.cr.ToView());
    ScopeOfKey(p.phase.i, p.phase.cr.ToView());
    if !ClusterScoped(k) { PutIsMine(p.phase.i, p.phase.cr.ToView(), Lookup(sys.store.objs, k)); }
  }

  lemma ScopeOfKey(i: nat, v: View)
    requires i < COUNT
    ensures ClusterScoped(KeyAt(i, v)) <==> !Namespaced(ORDER[i])
  {
  }

  lemma RemovalChanges(sys: System, key: CrKey, outcome: Outcome, now: nat, k: ObjKey)
    requires Sound(sys) && key in sys.passes && sys.passes[key].phase.Deleting?
    requires Differs(sys.store, Next(sys, Call(key, outcome, now)).store, k)
    ensures RemovesItsOwn(sys, Next(sys, Call(key, outcome, now)), key, k)
  {
    hide StoredCrOk, LogOk, KeyOf;
    assert CopyOk(sys, key, sys.passes[key]);
    ClusterKeysAreScoped(sys.passes[key].phase.cr.ToView(), sys.passes[key].phase.i);
  }

  lemma ClusterKeysAreScoped(v: View, i: nat)
    ensures ClusterScoped(ClusterKey(v, i))
  {
  }

  lemma OtherCallsChangeNothing(sys: System, key: CrKey, outcome: Outcome, now: nat)
    requires Sound(sys) && key in sys.passes
    requires var ph := sys.passes[key].phase; !ph.Fetching? && !ph.Writing? && !ph.Deleting?
    ensures Next(sys, Call(key, outcome, now)).store.objs == sys.store.objs
  {
    hide WriteBack, Without, PatchStatus, ReportedStatus, StoredCrOk, LogOk, CopyOk;
  }

  lemma CallChanges(sys: System, key: CrKey, outcome: Outcome, now: nat, k: ObjKey)
    requires Sound(sys) && Differs(sys.store, Next(sys, Call(key, outcome, now)).store, k)
    ensures var sys' := Next(sys, Call(key, outcome, now));
            WritesItsOwn(sys, sys', key, k) || RemovesItsOwn(sys, sys', key, k)
  {
    hide Sound, Serve, WritesItsOwn, RemovesItsOwn;
    assert Callable(sys, key);
    var ph := sys.passes[key].phase;
    if ph.Fetching? || ph.Writing? {
      ChildChanges(sys, key, outcome, now, k);
    } else if ph.Deleting? {
      RemovalChanges(sys, key, outcome, now, k);
    } else {
      OtherCallsChangeNothing(sys, key, outcome, now);
    }
  }

  // ----- One controller -----

  /**
   Ownership is exclusive in every run. A call of a reconcile changes a namespaced object only in its
   resource's namespace, only where the object was absent, uncontrolled or controlled under that resource's
   name, and leaves it controlled by that resource; and a child of an existing resource keeps its controller
   through every step of the operator and of the collector.
   */
  lemma OwnershipIsExclusive(evs: seq<Event>, ev: Event, k: ObjKey)
    requires Along(FinalizerKept, evs)
    requires !ClusterScoped(k)
    ensures var sys := Run(INITIAL, evs);
            var sys' := Next(sys, ev);
            && (ev.Call? && Differs(sys.store, sys'.store, k) ==> WritesItsOwn(sys, sys', ev.key, k))
            && (k in sys.store.objs && LiveOwner(sys.store, k, sys.store.objs[k])
                && !(ev.Outside? && ev.action.Drift?) ==>
                  k in sys'.store.objs && sys'.store.objs[k].owner == sys.store.objs[k].owner)
  {
    hide Sound, Serve, WritesItsOwn, RemovesItsOwn, LiveOwner;
    RunsAreSound(evs);
    var sys := Run(INITIAL, evs);
    if ev.Call? && Differs(sys.store, Next(sys, ev).store, k) {
      CallChanges(sys, ev.key, ev.outcome, ev.now, k);
      NotRemoved(sys, Next(sys, ev), ev.key, k);
      if k in sys.store.objs && LiveOwner(sys.store, k, sys.store.objs[k]) {
        WriteKeepsLiveOwner(sys, Next(sys, ev), ev.key, k);
      }
    } else if ev.Call? {
      assert Lookup(sys.store.objs, k) == Lookup(Next(sys, ev).store.objs, k);
    } else if k in sys.store.objs && LiveOwner(sys.store, k, sys.store.objs[k]) && ev.Outside? && !ev.action.Drift? {
      OutsideSpares(sys, ev.action, k);
    }
  }

  lemma NotRemoved(sys: System, sys': System, key: CrKey, k: ObjKey)
    requires !ClusterScoped(k)
    ensures !RemovesItsOwn(sys, sys', key, k)
  {
    hide ClusterScoped;
  }

  lemma WriteKeepsLiveOwner(sys: System, sys': System, key: CrKey, k: ObjKey)
    requires Sound(sys) && WritesItsOwn(sys, sys', key, k) && !ClusterScoped(k)
    requires k in sys.store.objs && LiveOwner(sys.store, k, sys.store.objs[k])
    ensures k in sys'.store.objs && sys'.store.objs[k].owner == sys.store.objs[k].owner
  {
    hide Put, FieldBlocks, StoredCrOk, LogOk;
    var ph := sys.passes[key].phase;
    assert CopyOk(sys, key, sys.passes[key]);
    ScopeOfKey(ph.i, ph.cr.ToView());
    assert !OwnerBlocks(ORDER[ph.i], ph.cr.ToView(), ph.seen);
  }

  lemma OutsideSpares(sys: System, a: Action, k: ObjKey)
    requires !a.Drift? && k in sys.store.objs && LiveOwner(sys.store, k, sys.store.objs[k])
    ensures var sys' := Next(sys, Outside(a)); k in sys'.store.objs && sys'.store.objs[k] == sys.store.objs[k]
  {
  }

  // ----- The finalizer first, nothing after a deletion read -----

  /**
   In every run a reconcile creates or updates a child only from a copy that carries the finalizer, while the
   stored resource is that incarnation, still carries it, and no reconcile has ever read its deletion; it
   removes an object only after having read the deletion; and the finalizer goes away only in a pass that
   removed both cluster-scoped objects itself.
   */
  lemma FinalizerGuardsChildren(evs: seq<Event>, key: CrKey, outcome: Outcome, now: nat, k: ObjKey)
    requires Along(FinalizerKept, evs)
    ensures var sys := Run(INITIAL, evs);
            var sys' := Next(sys, Call(key, outcome, now));
            && (k in sys'.store.objs && Differs(sys.store, sys'.store, k) ==>
                  WritesItsOwn(sys, sys', key, k) && Guarded(sys, sys.passes[key].phase.cr))
            && (k in sys.store.objs && k !in sys'.store.objs ==> RemovesItsOwn(sys, sys', key, k))
            && (forall other <- sys.store.crs ::
                  LosesFinalizer(sys.store, sys'.store, other) ==>
                    other == key && CleanedUp(sys, key))
  {
    hide Sound, Serve, WritesItsOwn, RemovesItsOwn, Guarded, CleanedUp;
    RunsAreSound(evs);
    var sys := Run(INITIAL, evs);
    var sys' := Next(sys, Call(key, outcome, now));
    if Differs(sys.store, sys'.store, k) {
      CallChanges(sys, key, outcome, now, k);
      if k in sys'.store.objs {
        StillThere(sys, sys', key, k);
        WriterIsGuarded(sys, sys', key, k);
      } else {
        StillWritten(sys, sys', key, k);
      }
    }
    FinalizerGoesLast(sys, key, outcome, now);
  }

  predicate LosesFinalizer(s: Store, s': Store, key: CrKey)
    requires key in s.crs
  {
    HasFinalizer(s.crs[key]) && !(key in s'.crs && HasFinalizer(s'.crs[key]))
  }

  ghost predicate Guarded(sys: System, cr: Kubeshark) {
    && HasFinalizer(cr) && !cr.deleting
    && Live(sys.store, cr.id) && HasFinalizer(sys.store.crs[cr.id.key])
    && (forall spec :: DeletionRead(cr.id, spec) !in sys.log)
  }

  /** This very pass has removed both objects that the stored resource now names. */
  ghost predicate CleanedUp(sys: System, key: CrKey) {
    && key in sys.store.crs && key in sys.passes
    && var cr := sys.store.crs[key];
       && cr.deleting && DeletionRead(cr.id, cr.spec) in sys.log
       && Removed(sys.passes[key].number, cr.id, KeyOf(OperatorRole, cr.ToView())) in sys.log
       && Removed(sys.passes[key].number, cr.id, KeyOf(OperatorBinding, cr.ToView())) in sys.log
  }

  lemma StillThere(sys: System, sys': System, key: CrKey, k: ObjKey)
    requires k in sys'.store.objs
    ensures !RemovesItsOwn(sys, sys', key, k)
  {
  }

  lemma StillWritten(sys: System, sys': System, key: CrKey, k: ObjKey)
    requires k !in sys'.store.objs
    ensures !WritesItsOwn(sys, sys', key, k)
  {
    hide Put, Blocked;
  }

  lemma WriterIsGuarded(sys: System, sys': System, key: CrKey, k: ObjKey)
    requires Sound(sys) && WritesItsOwn(sys, sys', key, k)
    ensures Guarded(sys, sys.passes[key].phase.cr)
  {
    hide Put, Blocked, StoredCrOk, LogOk;
    assert CopyOk(sys, key, sys.passes[key]);
  }

  lemma FinalizerGoesLast(sys: System, key: CrKey, outcome: Outcome, now: nat)
    requires Sound(sys)
    ensures var sys' := Next(sys, Call(key, outcome, now));
            forall other <- sys.store.crs ::
              LosesFinalizer(sys.store, sys'.store, other) ==>
                other == key && CleanedUp(sys, key)
  {
    hide FetchChild, WriteChild, CleanedUp, StoredCrOk, LogOk, CopyOk, WriteBack, PatchStatus, ReportedStatus, Without;
    if Callable(sys, key) {
      var ph := sys.passes[key].phase;
      if ph.Fetching? || ph.Writing? {
        ChildLeavesResources(sys, key, outcome, now);
      } else if ph.DroppingFinalizer? && key in sys.store.crs && sys.store.crs[key] == ph.cr {
        DroppingCleansUp(sys, key);
      }
    }
  }

  lemma ChildLeavesResources(sys: System, key: CrKey, outcome: Outcome, now: nat)
    requires Sound(sys) && key in sys.passes
    requires sys.passes[key].phase.Fetching? || sys.passes[key].phase.Writing?
    ensures Next(sys, Call(key, outcome, now)).store.crs == sys.store.crs
  {
    hide FetchChild, WriteChild, Put, Shape, KeyAt, Blocked, OwnerBlocks, StoredCrOk, LogOk, CopyOk;
    ChildHasShape(sys.store, key, sys.passes[key], outcome, now);
  }

  lemma DroppingCleansUp(sys: System, key: CrKey)
    requires Sound(sys) && key in sys.passes && sys.passes[key].phase.DroppingFinalizer?
    requires key in sys.store.crs && sys.store.crs[key] == sys.passes[key].phase.cr
    ensures CleanedUp(sys, key)
  {
    hide StoredCrOk, LogOk, KeyOf;
    assert CopyOk(sys, key, sys.passes[key]);
  }

  // ----- Immutable selectors -----

  /** Everybody else's writes pass the same validation, and nobody else claims an object for a Kubeshark. */
  predicate HonestDrift(sys: System, ev: Event) {
    match ev
    case Outside(Drift(k, Some(content))) =>
      var o := Admit(k, content);
      && (o.owner.Some? && o.owner.value.KubesharkOwner? ==>
            k in sys.store.objs && o.owner == sys.store.objs[k].owner && ImmutableKept(sys.store.objs[k].body, o.body))
    case _ => true
  }

  function SelectorOf(b: Body): Option<StrMap> {
    match b
    case Deployment(_, s, _, _) => Some(s)
    case DaemonSet(s, _, _) => Some(s)
    case _ => None
  }

  /** A claimed Deployment or DaemonSet selects the labels of the resource that claims it. */
  predicate SelectsOwner(k: ObjKey, o: Object) {
    && KindOf(o.body) == k.kind
    && (o.owner.Some? && o.owner.value.KubesharkOwner? && SelectorOf(o.body).Some? ==>
          SelectorOf(o.body).value == ComponentLabels(o.owner.value.name))
  }

  predicate SeenSelects(ph: Phase) {
    InRange(ph) && ph.Writing? && ph.seen.Some? ==> SelectsOwner(KeyAt(ph.i, ph.cr.ToView()), ph.seen.value)
  }

  ghost predicate Selecting(sys: System) {
    && (forall k <- sys.store.objs :: SelectsOwner(k, sys.store.objs[k]))
    && (forall key <- sys.passes :: SeenSelects(sys.passes[key].phase))
  }

  lemma PutSelects(i: nat, v: View, x: Option<Object>)
    requires i < COUNT
    requires x.Some? ==> SelectsOwner(KeyAt(i, v), x.value)
    ensures SelectsOwner(KeyAt(i, v), Put(ORDER[i], v, x))
  {
    PutConforms(ORDER[i], v, x);
  }

  lemma ChildSelects(sys: System, key: CrKey, outcome: Outcome, now: nat)
    requires Selecting(sys) && Callable(sys, key)
    requires sys.passes[key].phase.Fetching? || sys.passes[key].phase.Writing?
    ensures Selecting(Next(sys, Call(key, outcome, now)))
  {
    hide FetchChild, WriteChild, Put, Shape, KeyAt, Blocked, OwnerBlocks, SelectsOwner;
    var p := sys.passes[key];
    ChildHasShape(sys.store, key, p, outcome, now);
    PutSelects(p.phase.i, p.phase.cr.ToView(), Lookup(sys.store.objs, KeyAt(p.phase.i, p.phase.cr.ToView())));
  }

  lemma QuietSelects(sys: System, sys': System)
    requires Selecting(sys)
    requires forall k <- sys'.store.objs :: k in sys.store.objs && sys'.store.objs[k] == sys.store.objs[k]
    requires forall key <- sys'.passes ::
               (key in sys.passes && sys'.passes[key] == sys.passes[key]) || !sys'.passes[key].phase.Writing?
    ensures Selecting(sys')
  {
  }

  lemma OtherCallSelects(sys: System, key: CrKey, outcome: Outcome, now: nat)
    requires Selecting(sys) && Callable(sys, key)
    requires !sys.passes[key].phase.Fetching? && !sys.passes[key].phase.Writing?
    ensures Selecting(Next(sys, Call(key, outcome, now)))
  {
    hide Selecting, WriteBack, Without, PatchStatus, ReportedStatus, ClusterKey;
    QuietSelects(sys, Next(sys, Call(key, outcome, now)));
  }

  lemma DriftSelects(sys: System, k: ObjKey, content: Option<Object>)
    requires Selecting(sys) && HonestDrift(sys, Outside(Drift(k, content)))
    ensures Selecting(Next(sys, Outside(Drift(k, content))))
  {
    if content.Some? {
      AdmittedKind(k, content.value);
    }
    hide Admit;
  }

  lemma AdmittedKind(k: ObjKey, o: Object)
    ensures KindOf(Admit(k, o).body) == k.kind
  {
  }

  lemma NextSelects(sys: System, ev: Event)
    requires Selecting(sys) && HonestDrift(sys, ev)
    ensures Selecting(Next(sys, ev))
  {
    hide Selecting, Serve, HonestDrift;
    match ev {
      case Start(_) => QuietSelects(sys, Next(sys, ev));
      case Crash(_) => QuietSelects(sys, Next(sys, ev));
      case Outside(a) =>
        if a.Drift? { DriftSelects(sys, a.obj, a.content); } else { QuietSelects(sys, Next(sys, ev)); }
      case Call(key, outcome, now) =>
        if !Callable(sys, key) {
          assert Next(sys, ev) == sys;
        } else if sys.passes[key].phase.Fetching? || sys.passes[key].phase.Writing? {
          ChildSelects(sys, key, outcome, now);
        } else {
          OtherCallSelects(sys, key, outcome, now);
        }
    }
  }

  lemma {:induction false} RunsSelect(evs: seq<Event>)
    requires Along(HonestDrift, evs)
    ensures Selecting(Run(INITIAL, evs))
    decreases |evs|
  {
    hide Next;
    if evs != [] {
      AlongInit(HonestDrift, evs);
      RunsSelect(evs[..|evs| - 1]);
      NextSelects(Run(INITIAL, evs[..|evs| - 1]), evs[|evs| - 1]);
    }
  }

  /**
   Across any sequence of spec edits, faults and interleavings, no pass asks the server to change the selector
   of a Deployment or DaemonSet that is controlled under its resource's name.
   */
  lemma SelectorsAreSafe(evs: seq<Event>, key: CrKey)
    requires Along(HonestDrift, evs)
    requires Callable(Run(INITIAL, evs), key) && Run(INITIAL, evs).passes[key].phase.Writing?
    ensures var ph := Run(INITIAL, evs).passes[key].phase;
            var v := ph.cr.ToView();
            KindFor(ORDER[ph.i]) in {KDeployment, KDaemonSet} && ph.seen.Some?
            && ph.seen.value.owner.Some? && ph.seen.value.owner.value.KubesharkOwner?
            && !OwnerBlocks(ORDER[ph.i], v, ph.seen)
            ==> !FieldBlocks(ORDER[ph.i], v, ph.seen)
  {
    hide Run;
    RunsSelect(evs);
    var ph := Run(INITIAL, evs).passes[key].phase;
    assert SeenSelects(ph);
  }
}
