/** The finalizer protocol over whole runs: which cluster-scoped objects outlive their resource. */
module Cleanup {
  import opened Api
  import opened Objects
  import opened Names
  import opened Components
  import opened Conditions
  import opened Operator
  import opened Runs

  /** The two cluster-scoped keys a spec asks for. */
  predicate AsksFor(v: View, k: ObjKey) {
    k == ClusterKey(v, 0) || k == ClusterKey(v, 1)
  }

  /** Some version of this incarnation computed the key. */
  ghost predicate Computed(log: set<Entry>, id: CrId, k: ObjKey) {
    exists g: nat, spec :: Version(id, g, spec) in log && AsksFor(View(id, spec), k)
  }

  /** An earlier incarnation of the same resource. */
  predicate Earlier(other: CrId, id: CrId) {
    other.key == id.key && other.uid < id.uid
  }

  /** No other resource ever computed the key, and no later incarnation of this one did. */
  ghost predicate Exclusive(log: set<Entry>, id: CrId, k: ObjKey) {
    forall other :: Computed(log, other, k) ==> other == id || Earlier(other, id)
  }

  /** A stored resource is the latest incarnation of its key. */
  lemma StoredIsLatest(sys: System, id: CrId, other: CrId, k: ObjKey)
    requires Sound(sys) && Live(sys.store, id) && Computed(sys.log, other, k)
    ensures !Earlier(id, other)
  {
    hide LogOk, AsksFor;
    var g: nat, spec :| Version(other, g, spec) in sys.log && AsksFor(View(other, spec), k);
    assert IdOf(Version(other, g, spec)) == other;
    assert StoredCrOk(sys, id.key);
  }

  ghost predicate WasRemoved(log: set<Entry>, id: CrId, k: ObjKey) {
    exists n: nat :: Removed(n, id, k) in log
  }

  ghost predicate WasReleased(log: set<Entry>, id: CrId) {
    exists n: nat, spec :: Released(n, id, spec) in log
  }

  ghost predicate ReadForDeletion(log: set<Entry>, id: CrId, k: ObjKey) {
    exists spec :: DeletionRead(id, spec) in log && AsksFor(View(id, spec), k)
  }

  /** Nobody else creates or deletes a cluster-scoped object once the operator manages it. */
  ghost predicate ManagedInPlace(sys: System, ev: Event) {
    match ev
    case Outside(Drift(k, content)) =>
      ClusterScoped(k) && (exists id :: Managed(id, k) in sys.log) ==> (content.Some? <==> k in sys.store.objs)
    case Outside(Collect(k)) => !ClusterScoped(k)
    case _ => true
  }

  ghost predicate CleanupAssumptions(sys: System, ev: Event) {
    FinalizerKept(sys, ev) && ManagedInPlace(sys, ev)
  }

  ghost predicate ManagedOk(sys: System, id: CrId, k: ObjKey) {
    && (ClusterScoped(k) ==> Computed(sys.log, id, k))
    && ((Live(sys.store, id) && HasFinalizer(sys.store.crs[id.key])) || WasReleased(sys.log, id))
    && (ClusterScoped(k) && Exclusive(sys.log, id, k) ==> (k in sys.store.objs <==> !WasRemoved(sys.log, id, k)))
  }

  ghost predicate Tidy(sys: System) {
    && (forall id, k :: Managed(id, k) in sys.log ==> ManagedOk(sys, id, k))
    && (forall n: nat, id, k :: Removed(n, id, k) in sys.log ==> ReadForDeletion(sys.log, id, k))
    && (forall n: nat, id, spec :: Released(n, id, spec) in sys.log ==> DeletionRead(id, spec) in sys.log)
    && (forall id, spec :: DeletionRead(id, spec) in sys.log ==> HasVersion(sys.log, id, spec))
  }

  ghost predicate HasVersion(log: set<Entry>, id: CrId, spec: Spec) {
    exists g: nat :: Version(id, g, spec) in log
  }

  lemma VersionsStay(log: set<Entry>, log': set<Entry>, id: CrId, spec: Spec)
    requires log <= log' && HasVersion(log, id, spec)
    ensures HasVersion(log', id, spec)
  {
    var g: nat :| Version(id, g, spec) in log;
    assert Version(id, g, spec) in log';
  }

  lemma DeletionVersionsStay(sys: System, sys': System)
    requires Tidy(sys) && sys.log <= sys'.log
    requires forall e <- sys'.log :: e in sys.log || (e.DeletionRead? ==> HasVersion(sys.log, e.id, e.spec))
    ensures forall id, spec :: DeletionRead(id, spec) in sys'.log ==> HasVersion(sys'.log, id, spec)
  {
    forall id, spec | DeletionRead(id, spec) in sys'.log
      ensures HasVersion(sys'.log, id, spec)
    {
      VersionsStay(sys.log, sys'.log, id, spec);
    }
  }

  lemma ClusterKeysOfAPass(v: View, i: nat)
    requires i < COUNT && ClusterScoped(KeyAt(i, v))
    ensures AsksFor(v, KeyAt(i, v))
  {
  }

  lemma ComputedGrows(log: set<Entry>, log': set<Entry>, id: CrId, k: ObjKey)
    requires log <= log'
    ensures Computed(log, id, k) ==> Computed(log', id, k)
    ensures Exclusive(log', id, k) ==> Exclusive(log, id, k)
    ensures WasReleased(log, id) ==> WasReleased(log', id)
    ensures ReadForDeletion(log, id, k) ==> ReadForDeletion(log', id, k)
    ensures WasRemoved(log, id, k) ==> WasRemoved(log', id, k)
  {
    if Computed(log, id, k) {
      var g: nat, spec :| Version(id, g, spec) in log && AsksFor(View(id, spec), k);
      assert Version(id, g, spec) in log';
    }
    if Exclusive(log', id, k) {
      forall other | Computed(log, other, k)
        ensures other == id || Earlier(other, id)
      {
        var g: nat, spec :| Version(other, g, spec) in log && AsksFor(View(other, spec), k);
        assert Version(other, g, spec) in log';
        assert Computed(log', other, k);
      }
    }
  }

  /** An entry made earlier stays right when its object and its removals are untouched. */
  lemma ManagedKeeps(sys: System, sys': System, id: CrId, k: ObjKey)
    requires ManagedOk(sys, id, k) && sys.log <= sys'.log
    requires Live(sys.store, id) && HasFinalizer(sys.store.crs[id.key]) ==>
               (Live(sys'.store, id) && HasFinalizer(sys'.store.crs[id.key])) || WasReleased(sys'.log, id)
    requires ClusterScoped(k) && Exclusive(sys'.log, id, k) ==>
               && (k in sys'.store.objs <==> k in sys.store.objs)
               && (WasRemoved(sys'.log, id, k) ==> WasRemoved(sys.log, id, k))
    ensures ManagedOk(sys', id, k)
  {
    ComputedGrows(sys.log, sys'.log, id, k);
  }

  // ----- Steps -----

  /** No removals or releases are recorded, and no resource loses the finalizer. */
  ghost predicate Undisturbed(sys: System, sys': System) {
    && sys.log <= sys'.log
    && (forall e <- sys'.log :: e in sys.log || e.Version? || (e.DeletionRead? && HasVersion(sys.log, e.id, e.spec)))
    && (forall id :: Live(sys.store, id) && HasFinalizer(sys.store.crs[id.key]) ==>
          Live(sys'.store, id) && HasFinalizer(sys'.store.crs[id.key]))
    && (forall id, k :: Managed(id, k) in sys.log && ClusterScoped(k) ==>
          (k in sys'.store.objs <==> k in sys.store.objs))
  }

  lemma UndisturbedTidy(sys: System, sys': System)
    requires Tidy(sys) && Undisturbed(sys, sys')
    ensures Tidy(sys')
  {
    hide AsksFor;
    DeletionVersionsStay(sys, sys');
    forall id, k | Managed(id, k) in sys'.log
      ensures ManagedOk(sys', id, k)
    {
      ManagedKeeps(sys, sys', id, k);
    }
    forall n: nat, id, k | Removed(n, id, k) in sys'.log
      ensures ReadForDeletion(sys'.log, id, k)
    {
      ComputedGrows(sys.log, sys'.log, id, k);
    }
  }

  lemma OutsideTidy(sys: System, a: Action)
    requires Sound(sys) && Tidy(sys) && CleanupAssumptions(sys, Outside(a))
    ensures Tidy(Next(sys, Outside(a)))
  {
    hide Tidy, Sound, Admit;
    UndisturbedTidy(sys, Next(sys, Outside(a)));
  }

  /** A step of a child: what it manages is there, nothing else of a cluster scope changes. */
  lemma ChildTidy(sys: System, key: CrKey, outcome: Outcome, now: nat)
    requires Sound(sys) && Tidy(sys) && key in sys.passes
    requires sys.passes[key].phase.Fetching? || sys.passes[key].phase.Writing?
    ensures Tidy(Next(sys, Call(key, outcome, now)))
  {
    hide FetchChild, WriteChild, Put, Shape, KeyAt, Blocked, OwnerBlocks, StoredCrOk, LogOk, ManagedOk,
         ReadForDeletion, HasVersion;
    var p := sys.passes[key];
    var cr := p.phase.cr;
    var sys' := Next(sys, Call(key, outcome, now));
    ChildHasShape(sys.store, key, p, outcome, now);
    DeletionVersionsStay(sys, sys');
    forall id, k | Managed(id, k) in sys'.log
      ensures ManagedOk(sys', id, k)
    {
      ChildManages(sys, sys', key, p, Serve(sys.store, key, p, outcome, now).notes != {}, id, k);
    }
    forall n: nat, id, k | Removed(n, id, k) in sys'.log
      ensures ReadForDeletion(sys'.log, id, k)
    {
      ComputedGrows(sys.log, sys'.log, id, k);
    }
  }

  lemma ChildManages(sys: System, sys': System, key: CrKey, p: Pass, managed: bool, id: CrId, k: ObjKey)
    requires Sound(sys) && Tidy(sys) && InRange(p.phase) && (p.phase.Fetching? || p.phase.Writing?)
    requires CopyOk(sys, key, p)
    requires sys'.store.crs == sys.store.crs && sys.log <= sys'.log && Managed(id, k) in sys'.log
    requires forall e <- sys'.log ::
               || e in sys.log || e.Done?
               || (managed && e == Managed(p.phase.cr.id, KeyAt(p.phase.i, p.phase.cr.ToView())))
    requires managed ==> KeyAt(p.phase.i, p.phase.cr.ToView()) in sys'.store.objs
    requires forall k' :: k' != KeyAt(p.phase.i, p.phase.cr.ToView()) || !managed ==>
               (k' in sys'.store.objs <==> k' in sys.store.objs)
    ensures ManagedOk(sys', id, k)
  {
    hide KeyAt, ClusterKey, StoredCrOk, LogOk, Exclusive, Computed, WasReleased, ReadForDeletion;
    ComputedGrows(sys.log, sys'.log, id, k);
    if k == KeyAt(p.phase.i, p.phase.cr.ToView()) && managed {
      MineManaged(sys, sys', key, p, id, k);
    } else {
      ManagedKeeps(sys, sys', id, k);
    }
  }

  /** The pass's own key, right after it was written or found as desired. */
  lemma MineManaged(sys: System, sys': System, key: CrKey, p: Pass, id: CrId, k: ObjKey)
    requires Sound(sys) && Tidy(sys) && InRange(p.phase) && (p.phase.Fetching? || p.phase.Writing?)
    requires CopyOk(sys, key, p) && k == KeyAt(p.phase.i, p.phase.cr.ToView()) && k in sys'.store.objs
    requires sys'.store.crs == sys.store.crs && sys.log <= sys'.log
    requires Managed(id, k) in sys.log || id == p.phase.cr.id
    requires WasRemoved(sys'.log, p.phase.cr.id, k) ==> WasRemoved(sys.log, p.phase.cr.id, k)
    ensures ManagedOk(sys', id, k)
  {
    hide KeyAt, ClusterKey, StoredCrOk, LogOk, WasRemoved, ReadForDeletion;
    var cr := p.phase.cr;
    ComputedGrows(sys.log, sys'.log, id, k);
    if ClusterScoped(k) {
      ClusterKeysOfAPass(cr.ToView(), p.phase.i);
      assert CurrentVersion(cr) in sys.log && CurrentVersion(cr) in sys'.log;
      assert Computed(sys'.log, cr.id, k);
      if Managed(id, k) in sys.log { StoredIsLatest(sys, cr.id, id, k); }
    }
    NeverRemoved(sys, key, p, k);
  }

  lemma RemovedWasRead(sys: System, id: CrId, k: ObjKey)
    requires Tidy(sys) && WasRemoved(sys.log, id, k)
    ensures exists spec :: DeletionRead(id, spec) in sys.log
  {
    var n: nat :| Removed(n, id, k) in sys.log;
    assert ReadForDeletion(sys.log, id, k);
  }

  /** While a pass over the children runs, nothing of that incarnation has been removed. */
  lemma NeverRemoved(sys: System, key: CrKey, p: Pass, k: ObjKey)
    requires Tidy(sys) && (p.phase.Fetching? || p.phase.Writing?) && CopyOk(sys, key, p)
    ensures !WasRemoved(sys.log, p.phase.cr.id, k)
  {
    hide Tidy;
    if WasRemoved(sys.log, p.phase.cr.id, k) { RemovedWasRead(sys, p.phase.cr.id, k); }
  }

  lemma DeleteTidy(sys: System, key: CrKey, outcome: Outcome, now: nat)
    requires Sound(sys) && Tidy(sys) && key in sys.passes && sys.passes[key].phase.Deleting?
    ensures Tidy(Next(sys, Call(key, outcome, now)))
  {
    hide ClusterKey, StoredCrOk, LogOk, ManagedOk, ReadForDeletion;
    var p := sys.passes[key];
    var cr := p.phase.cr;
    var gone := ClusterKey(cr.ToView(), p.phase.i);
    var sys' := Next(sys, Call(key, outcome, now));
    if outcome.Refused? {
      assert sys'.log == sys.log;
    }
    ThisRead(sys', cr, p.phase.i);
    DeletionVersionsStay(sys, sys');
    forall n: nat, id, k | Removed(n, id, k) in sys'.log
      ensures ReadForDeletion(sys'.log, id, k)
    {
      ComputedGrows(sys.log, sys'.log, id, k);
    }
    forall id, k | Managed(id, k) in sys'.log
      ensures ManagedOk(sys', id, k)
    {
      if outcome.Refused? {
        ManagedKeeps(sys, sys', id, k);
      } else {
        DeletedManaged(sys, sys', p.number, cr, p.phase.i, id, k);
      }
    }
  }

  lemma ThisRead(sys: System, cr: Kubeshark, i: nat)
    requires i < 2 && DeletionRead(cr.id, cr.spec) in sys.log
    ensures ReadForDeletion(sys.log, cr.id, ClusterKey(cr.ToView(), i))
  {
    assert AsksFor(View(cr.id, cr.spec), ClusterKey(cr.ToView(), i));
  }

  lemma DeletedManaged(sys: System, sys': System, number: nat, cr: Kubeshark, i: nat, id: CrId, k: ObjKey)
    requires Sound(sys) && Live(sys.store, cr.id)
    requires i < 2 && ManagedOk(sys, id, k) && CurrentVersion(cr) in sys.log
    requires sys'.store.crs == sys.store.crs
    requires sys'.store.objs == sys.store.objs - {ClusterKey(cr.ToView(), i)}
    requires sys'.log == sys.log + {Removed(number, cr.id, ClusterKey(cr.ToView(), i))}
    ensures ManagedOk(sys', id, k)
  {
    hide ClusterKey, KeyOf, StoredCrOk, CopyOk, LogOk;
    var gone := ClusterKey(cr.ToView(), i);
    ComputedGrows(sys.log, sys'.log, id, k);
    if k == gone {
      assert AsksFor(View(cr.id, cr.spec), k);
      assert CurrentVersion(cr) in sys'.log;
      assert Computed(sys'.log, cr.id, k);
      if ClusterScoped(k) { StoredIsLatest(sys, cr.id, id, k); }
      assert Removed(number, cr.id, gone) in sys'.log;
      assert WasRemoved(sys'.log, cr.id, k);
    } else {
      ManagedKeeps(sys, sys', id, k);
    }
  }

  lemma DropTidy(sys: System, key: CrKey, outcome: Outcome, now: nat)
    requires Sound(sys) && Tidy(sys) && key in sys.passes && sys.passes[key].phase.DroppingFinalizer?
    ensures Tidy(Next(sys, Call(key, outcome, now)))
  {
    hide WriteBack, ClusterKey, StoredCrOk, LogOk, ManagedOk, ReadForDeletion, HasVersion;
    var p := sys.passes[key];
    var cr := p.phase.cr;
    var sys' := Next(sys, Call(key, outcome, now));
    DeletionVersionsStay(sys, sys');
    forall n: nat, id, k | Removed(n, id, k) in sys'.log
      ensures ReadForDeletion(sys'.log, id, k)
    {
      ComputedGrows(sys.log, sys'.log, id, k);
    }
    forall id, k | Managed(id, k) in sys'.log
      ensures ManagedOk(sys', id, k)
    {
      if sys'.store.crs != sys.store.crs {
        assert Released(p.number, cr.id, cr.spec) in sys'.log;
        assert WasReleased(sys'.log, cr.id);
      }
      ManagedKeeps(sys, sys', id, k);
    }
  }

  /** Reads, finalizer additions and reports. */
  lemma OtherCallTidy(sys: System, key: CrKey, outcome: Outcome, now: nat)
    requires Sound(sys) && Tidy(sys) && key in sys.passes
    requires var ph := sys.passes[key].phase; ph.Reading? || ph.AddingFinalizer? || ph.Reporting?
    ensures Tidy(Next(sys, Call(key, outcome, now)))
  {
    hide Tidy, WriteBack, PatchStatus, ReportedStatus, CopyOk, LogOk, StoredCrOk;
    if key in sys.store.crs { StoredIds(sys, key); }
    if sys.passes[key].phase.Reading? && key in sys.store.crs {
      assert HasVersion(sys.log, sys.store.crs[key].id, sys.store.crs[key].spec);
    }
    UndisturbedTidy(sys, Next(sys, Call(key, outcome, now)));
  }

  lemma NextTidy(sys: System, ev: Event)
    requires Sound(sys) && Tidy(sys) && CleanupAssumptions(sys, ev)
    ensures Tidy(Next(sys, ev))
  {
    match ev {
      case Start(_) => UndisturbedTidy(sys, Next(sys, ev));
      case Crash(_) => UndisturbedTidy(sys, Next(sys, ev));
      case Outside(a) => OutsideTidy(sys, a);
      case Call(key, outcome, now) =>
        if key !in sys.passes {
          assert Next(sys, ev) == sys;
        } else {
          match sys.passes[key].phase {
            case Fetching(_, _) => ChildTidy(sys, key, outcome, now);
            case Writing(_, _, _) => ChildTidy(sys, key, outcome, now);
            case Deleting(_, _) => DeleteTidy(sys, key, outcome, now);
            case DroppingFinalizer(_) => DropTidy(sys, key, outcome, now);
            case _ => OtherCallTidy(sys, key, outcome, now);
          }
        }
    }
  }

  lemma {:induction false} RunsAreTidy(evs: seq<Event>)
    requires Along(CleanupAssumptions, evs)
    ensures Sound(Run(INITIAL, evs)) && Tidy(Run(INITIAL, evs))
    decreases |evs|
  {
    if evs != [] {
      AlongInit(CleanupAssumptions, evs);
      RunsAreTidy(evs[..|evs| - 1]);
      NextKeeps(Run(INITIAL, evs[..|evs| - 1]), evs[|evs| - 1]);
      NextTidy(Run(INITIAL, evs[..|evs| - 1]), evs[|evs| - 1]);
    }
  }

  // ----- What outlives a resource -----

  /** All deletion reads of the incarnation computed the same two names. */
  ghost predicate OneDeletionName(log: set<Entry>, id: CrId, spec: Spec) {
    && DeletionRead(id, spec) in log
    && forall s :: DeletionRead(id, s) in log ==>
         ClusterRoleName(View(id, s)) == ClusterRoleName(View(id, spec))
         && ClusterRoleBindingName(View(id, s)) == ClusterRoleBindingName(View(id, spec))
  }

  /**
   Cleanup, exactly. Once a resource is gone, a cluster-scoped object that it managed, and whose name no other
   resource and no later incarnation of this one computed, is still stored if and only if none of its deletion
   passes got as far as removing it. The names read by the pass that released the finalizer are gone; and where all
   deletion reads agree on the names, what is left are exactly the objects under other names.
   */
  lemma LeftBehindExactly(evs: seq<Event>, id: CrId, k: ObjKey)
    requires Along(CleanupAssumptions, evs)
    requires var sys := Run(INITIAL, evs);
             Managed(id, k) in sys.log && ClusterScoped(k) && Exclusive(sys.log, id, k) && !Live(sys.store, id)
    ensures var sys := Run(INITIAL, evs);
            && Computed(sys.log, id, k)
            && WasReleased(sys.log, id)
            && (k in sys.store.objs <==> !WasRemoved(sys.log, id, k))
            && (forall n: nat, spec ::
                  Released(n, id, spec) in sys.log && AsksFor(View(id, spec), k) ==> k !in sys.store.objs)
            && (forall spec ::
                  OneDeletionName(sys.log, id, spec) ==> (k in sys.store.objs <==> !AsksFor(View(id, spec), k)))
  {
    hide Sound, Run, Computed, Exclusive, AsksFor;
    RunsAreTidy(evs);
    var sys := Run(INITIAL, evs);
    assert ManagedOk(sys, id, k);
    forall n: nat, spec | Released(n, id, spec) in sys.log && AsksFor(View(id, spec), k)
      ensures WasRemoved(sys.log, id, k)
    {
      ReleasedRemoved(sys, n, id, spec, k);
    }
    forall spec | OneDeletionName(sys.log, id, spec)
      ensures WasRemoved(sys.log, id, k) <==> AsksFor(View(id, spec), k)
    {
      OneNameRemoved(sys, id, spec, k);
    }
  }

  lemma ReleasedRemoved(sys: System, n: nat, id: CrId, spec: Spec, k: ObjKey)
    requires Sound(sys) && Released(n, id, spec) in sys.log && AsksFor(View(id, spec), k)
    ensures WasRemoved(sys.log, id, k)
  {
    hide ClusterKey, StoredCrOk, CopyOk;
    assert Removed(n, id, k) in sys.log;
  }

  lemma OneNameRemoved(sys: System, id: CrId, spec: Spec, k: ObjKey)
    requires Sound(sys) && Tidy(sys) && WasReleased(sys.log, id) && OneDeletionName(sys.log, id, spec)
    ensures WasRemoved(sys.log, id, k) <==> AsksFor(View(id, spec), k)
  {
    if WasRemoved(sys.log, id, k) {
      var s :| DeletionRead(id, s) in sys.log && AsksFor(View(id, s), k);
    }
    if AsksFor(View(id, spec), k) {
      var n: nat, s :| Released(n, id, s) in sys.log;
      assert DeletionRead(id, s) in sys.log;
      assert Removed(n, id, ClusterKey(View(id, s), 0)) in sys.log;
      assert Removed(n, id, ClusterKey(View(id, s), 1)) in sys.log;
      assert ClusterKey(View(id, s), 0) == ClusterKey(View(id, spec), 0);
      assert ClusterKey(View(id, s), 1) == ClusterKey(View(id, spec), 1);
    }
  }

  ghost predicate NamesNeverChanged(log: set<Entry>, id: CrId) {
    forall g: nat, h: nat, s, t :: Version(id, g, s) in log && Version(id, h, t) in log ==>
      ClusterRoleName(View(id, s)) == ClusterRoleName(View(id, t))
      && ClusterRoleBindingName(View(id, s)) == ClusterRoleBindingName(View(id, t))
  }

  lemma ReleasedUnderTheName(sys: System, id: CrId, k: ObjKey)
    requires Sound(sys) && Tidy(sys) && NamesNeverChanged(sys.log, id)
    requires Computed(sys.log, id, k) && WasReleased(sys.log, id)
    ensures WasRemoved(sys.log, id, k)
  {
    hide StoredCrOk, CopyOk, InRange, HasCopy, ManagedOk, ClusterRoleName, ClusterRoleBindingName;
    var g: nat, s :| Version(id, g, s) in sys.log && AsksFor(View(id, s), k);
    var n: nat, t :| Released(n, id, t) in sys.log;
    assert HasVersion(sys.log, id, t);
    var h: nat :| Version(id, h, t) in sys.log;
    assert AsksFor(View(id, t), k);
    assert Removed(n, id, k) in sys.log;
  }

  /** If the cluster names of an incarnation never changed and nobody else used them, nothing of it is left. */
  lemma NothingLeftBehind(evs: seq<Event>, id: CrId, k: ObjKey)
    requires Along(CleanupAssumptions, evs)
    requires var sys := Run(INITIAL, evs);
             && Managed(id, k) in sys.log && ClusterScoped(k) && Exclusive(sys.log, id, k) && !Live(sys.store, id)
             && NamesNeverChanged(sys.log, id)
    ensures k !in Run(INITIAL, evs).store.objs
  {
    hide Tidy, Sound, NamesNeverChanged, Computed, WasReleased, WasRemoved, Exclusive, Run, Along;
    RunsAreTidy(evs);
    LeftBehindExactly(evs, id, k);
    ReleasedUnderTheName(Run(INITIAL, evs), id, k);
  }
}
