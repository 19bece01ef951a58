/** Invariants of whole runs: identities, versions, and what a reconcile in flight may rely on. */
module Runs {
  import opened Wrappers
  import opened Api
  import opened Objects
  import opened Components
  import opened Conditions
  import opened Operator

  // ----- The two calls on a child, in outline -----

  ghost predicate FetchShape(s: Store, number: nat, cr: Kubeshark, i: nat, e: Effect)
    requires i < COUNT
  {
    var v := cr.ToView();
    var x := Lookup(s.objs, KeyAt(i, v));
    && e.store == s && e.next.Some?
    && (|| (e.notes == {} && e.next.value.Reporting? && e.next.value.cr == cr && e.next.value.verdict.StepFailed?)
        || (e.notes == {} && e.next == Some(Writing(cr, i, x)))
        || (e.next == Some(Advanced(cr, i)) && x.Some?
            && !OwnerBlocks(ORDER[i], v, x) && Shape(ORDER[i], v, Owned(ORDER[i], v, x.value)) == x.value
            && e.notes == {Managed(cr.id, KeyAt(i, v)), Done(number, v, cr.generation, i, x.value)}))
  }

  ghost predicate WriteShape(s: Store, number: nat, cr: Kubeshark, i: nat, seen: Option<Object>, e: Effect)
    requires i < COUNT
  {
    var v := cr.ToView();
    var k := KeyAt(i, v);
    var o := Put(ORDER[i], v, seen);
    var failed := e.next.Some? && e.next.value.Reporting? && e.next.value.cr == cr && e.next.value.verdict.StepFailed?;
    || (e.notes == {} && failed && e.store == s)
    || (&& Lookup(s.objs, k) == seen && !Blocked(ORDER[i], v, seen)
        && e.store == WithObjs(s, s.objs[k := o])
        && (|| (failed && e.notes == {Managed(cr.id, k)})
            || (&& e.next == Some(Advanced(cr, i))
                && e.notes == {Managed(cr.id, k), Done(number, v, cr.generation, i, o)})))
  }

  lemma FetchHasShape(s: Store, number: nat, cr: Kubeshark, i: nat, outcome: Outcome)
    requires i < COUNT
    ensures FetchShape(s, number, cr, i, FetchChild(s, number, cr, i, outcome))
  {
    MutateIsShape(ORDER[i], cr.ToView(), Found(ORDER[i], Lookup(s.objs, KeyAt(i, cr.ToView()))));
  }

  lemma WriteHasShape(s: Store, number: nat, cr: Kubeshark, i: nat, seen: Option<Object>, outcome: Outcome)
    requires i < COUNT
    ensures WriteShape(s, number, cr, i, seen, WriteChild(s, number, cr, i, seen, outcome))
  {
    hide Mutate, ShapeBody, Admit, Foreign, ImmutableKept;
    MutateIsShape(ORDER[i], cr.ToView(), Found(ORDER[i], seen));
  }

  /** A call of a pass over the children. */
  ghost predicate ChildShape(s: Store, p: Pass, e: Effect)
    requires InRange(p.phase) && (p.phase.Fetching? || p.phase.Writing?)
  {
    if p.phase.Fetching? then FetchShape(s, p.number, p.phase.cr, p.phase.i, e)
    else WriteShape(s, p.number, p.phase.cr, p.phase.i, p.phase.seen, e)
  }

  lemma ChildHasShape(s: Store, key: CrKey, p: Pass, outcome: Outcome, now: nat)
    requires InRange(p.phase) && (p.phase.Fetching? || p.phase.Writing?)
    ensures ChildShape(s, p, Serve(s, key, p, outcome, now))
  {
    if p.phase.Fetching? {
      FetchHasShape(s, p.number, p.phase.cr, p.phase.i, outcome);
    } else {
      WriteHasShape(s, p.number, p.phase.cr, p.phase.i, p.phase.seen, outcome);
    }
  }

  lemma ChildInOutline(s: Store, p: Pass, e: Effect)
    requires InRange(p.phase) && (p.phase.Fetching? || p.phase.Writing?) && ChildShape(s, p, e)
    ensures e.store.crs == s.crs && e.store.nextUid == s.nextUid
    ensures forall n <- e.notes :: (n.Done? || n.Managed?) && IdOf(n) == p.phase.cr.id
    ensures e.next.Some? && HasCopy(e.next.value) && e.next.value.cr == p.phase.cr && InRange(e.next.value)
    ensures var ph := e.next.value; ph.Fetching? || ph.Writing? || (ph.Reporting? && !ph.verdict.DeleteFailed?)
  {
    hide Put, Shape, KeyAt, Blocked, OwnerBlocks;
  }

  // ----- Assumptions on what happens outside -----

  /** Nobody but the operator strips its finalizer. */
  predicate FinalizerKept(sys: System, ev: Event) {
    match ev
    case Outside(EditFinalizers(key, fs)) =>
      key in sys.store.crs && HasFinalizer(sys.store.crs[key]) ==> FINALIZER in fs
    case _ => true
  }

  // ----- Identity and holding -----

  predicate HasCopy(ph: Phase) {
    !ph.Reading?
  }

  function IdOf(e: Entry): CrId {
    match e
    case Version(id, _, _) => id
    case Done(_, v, _, _, _) => v.id
    case Managed(id, _) => id
    case Removed(_, id, _) => id
    case DeletionRead(id, _) => id
    case Released(_, id, _) => id
  }

  predicate Live(s: Store, id: CrId) {
    id.key in s.crs && s.crs[id.key].id == id
  }

  ghost predicate StoredCrOk(sys: System, key: CrKey)
    requires key in sys.store.crs
  {
    var cr := sys.store.crs[key];
    && cr.id.key == key && cr.id.uid < sys.store.nextUid && CurrentVersion(cr) in sys.log
    && (forall g: nat, spec :: Version(cr.id, g, spec) in sys.log ==> g <= cr.generation)
    && (forall spec :: DeletionRead(cr.id, spec) in sys.log ==> cr.deleting)
    && (forall e <- sys.log :: IdOf(e).key == key ==> IdOf(e).uid <= cr.id.uid)
  }

  /** What the copy held by a reconcile says about the stored resource. */
  ghost predicate CopyOk(sys: System, key: CrKey, p: Pass)
    requires HasCopy(p.phase)
  {
    var cr := p.phase.cr;
    && cr.id.key == key && cr.id.uid < sys.store.nextUid && CurrentVersion(cr) in sys.log
    && (!cr.deleting ==> forall spec :: DeletionRead(cr.id, spec) !in sys.log)
    && (cr.deleting ==> DeletionRead(cr.id, cr.spec) in sys.log)
    && match p.phase
       case AddingFinalizer(_) => !cr.deleting
       case Fetching(_, _) => Holding(sys.store, cr)
       case Writing(_, _, _) => Holding(sys.store, cr)
       case Deleting(_, i) =>
         Condemned(sys.store, cr) && (i == 1 ==> Removed(p.number, cr.id, ClusterKey(cr.ToView(), 0)) in sys.log)
       case DroppingFinalizer(_) =>
         Condemned(sys.store, cr) && Removed(p.number, cr.id, ClusterKey(cr.ToView(), 0)) in sys.log
         && Removed(p.number, cr.id, ClusterKey(cr.ToView(), 1)) in sys.log
       case Reporting(_, verdict) => if verdict.DeleteFailed? then cr.deleting else Holding(sys.store, cr)
  }

  /** A live copy with the finalizer: the resource is still there and has it, at this generation or a later one. */
  predicate Holding(s: Store, cr: Kubeshark) {
    && !cr.deleting && HasFinalizer(cr)
    && Live(s, cr.id) && HasFinalizer(s.crs[cr.id.key]) && cr.generation <= s.crs[cr.id.key].generation
  }

  predicate Condemned(s: Store, cr: Kubeshark) {
    && cr.deleting && HasFinalizer(cr)
    && Live(s, cr.id) && HasFinalizer(s.crs[cr.id.key]) && s.crs[cr.id.key].deleting
  }

  ghost predicate LogOk(sys: System) {
    && (forall e <- sys.log :: IdOf(e).uid < sys.store.nextUid)
    && (forall id, g: nat, spec, spec' ::
          Version(id, g, spec) in sys.log && Version(id, g, spec') in sys.log ==> spec == spec')
    && (forall n: nat, id, spec :: Released(n, id, spec) in sys.log ==>
          && Removed(n, id, ClusterKey(View(id, spec), 0)) in sys.log
          && Removed(n, id, ClusterKey(View(id, spec), 1)) in sys.log)
  }

  ghost predicate Sound(sys: System) {
    && (forall key <- sys.store.crs :: StoredCrOk(sys, key))
    && (forall key <- sys.passes :: InRange(sys.passes[key].phase)
          && (HasCopy(sys.passes[key].phase) ==> CopyOk(sys, key, sys.passes[key])))
    && LogOk(sys)
  }

  // ----- What changes elsewhere does not matter -----

  /** Between two states nothing happened to the resource under `key`. */
  ghost predicate Elsewhere(sys: System, sys': System, key: CrKey) {
    && Lookup(sys'.store.crs, key) == Lookup(sys.store.crs, key)
    && sys'.store.nextUid >= sys.store.nextUid
    && sys.log <= sys'.log
    && (forall e <- sys'.log :: e in sys.log || IdOf(e).key != key)
  }

  lemma CopyElsewhere(sys: System, sys': System, key: CrKey, p: Pass)
    requires HasCopy(p.phase) && CopyOk(sys, key, p) && Elsewhere(sys, sys', key)
    ensures CopyOk(sys', key, p)
  {
  }

  lemma StoredElsewhere(sys: System, sys': System, key: CrKey)
    requires key in sys.store.crs && key in sys'.store.crs && StoredCrOk(sys, key) && Elsewhere(sys, sys', key)
    ensures StoredCrOk(sys', key)
  {
  }

  // ----- Calls -----

  /** Entries that say nothing about versions or deletion. */
  predicate Plain(notes: set<Entry>, key: CrKey, nextUid: nat) {
    forall e <- notes :: (e.Done? || e.Managed? || e.Removed?) && IdOf(e).key == key && IdOf(e).uid < nextUid
  }

  lemma PlainLog(sys: System, sys': System, notes: set<Entry>, key: CrKey)
    requires LogOk(sys) && sys'.log == sys.log + notes && sys'.store.nextUid == sys.store.nextUid
    requires Plain(notes, key, sys.store.nextUid)
    ensures LogOk(sys')
  {
  }

  lemma PlainStored(sys: System, sys': System, notes: set<Entry>, key: CrKey)
    requires key in sys.store.crs && StoredCrOk(sys, key)
    requires sys'.log == sys.log + notes && sys'.store.nextUid == sys.store.nextUid
    requires Plain(notes, key, sys.store.nextUid) && forall e <- notes :: IdOf(e).uid <= sys.store.crs[key].id.uid
    requires key in sys'.store.crs && sys'.store.crs[key].(status := sys.store.crs[key].status) == sys.store.crs[key]
    ensures StoredCrOk(sys', key)
  {
  }

  /** A pass over the children goes on with the copy it has. */
  lemma PlainCopy(sys: System, sys': System, notes: set<Entry>, key: CrKey, p: Pass, ph: Phase)
    requires HasCopy(p.phase) && CopyOk(sys, key, p) && Holding(sys.store, p.phase.cr)
    requires sys'.log == sys.log + notes && sys'.store.crs == sys.store.crs && sys'.store.nextUid == sys.store.nextUid
    requires Plain(notes, key, sys.store.nextUid)
    requires (ph.Fetching? || ph.Writing? || (ph.Reporting? && !ph.verdict.DeleteFailed?)) && ph.cr == p.phase.cr
    ensures CopyOk(sys', key, Pass(p.number, ph))
  {
  }

  /** A new version of the stored resource: a later generation, or the same one with the same spec. */
  predicate Supersedes(cr': Kubeshark, cr: Kubeshark) {
    && cr'.id == cr.id && cr'.generation >= cr.generation
    && (cr'.generation == cr.generation ==> cr'.spec == cr.spec)
  }

  lemma NewVersionLog(sys: System, sys': System, notes: set<Entry>, key: CrKey, cr': Kubeshark)
    requires LogOk(sys) && key in sys.store.crs && StoredCrOk(sys, key) && Supersedes(cr', sys.store.crs[key])
    requires sys'.log == sys.log + notes && sys'.store.nextUid == sys.store.nextUid
    requires forall e <- notes ::
               || e == CurrentVersion(cr')
               || (&& e.Released? && e.id == cr'.id
                   && Removed(e.number, e.id, ClusterKey(View(e.id, e.spec), 0)) in sys.log
                   && Removed(e.number, e.id, ClusterKey(View(e.id, e.spec), 1)) in sys.log)
    ensures LogOk(sys')
  {
    hide ClusterKey;
  }

  lemma NewVersionStored(sys: System, sys': System, notes: set<Entry>, key: CrKey, cr': Kubeshark)
    requires key in sys.store.crs && StoredCrOk(sys, key) && Supersedes(cr', sys.store.crs[key])
    requires cr'.deleting == sys.store.crs[key].deleting
    requires sys'.log == sys.log + notes && sys'.store.nextUid == sys.store.nextUid
    requires CurrentVersion(cr') in notes
    requires forall e <- notes :: e == CurrentVersion(cr') || (e.Released? && e.id == cr'.id)
    requires key in sys'.store.crs && sys'.store.crs[key] == cr'
    ensures StoredCrOk(sys', key)
  {
  }

  lemma ReadKeeps(sys: System, key: CrKey, outcome: Outcome, now: nat)
    requires Sound(sys) && key in sys.passes && sys.passes[key].phase.Reading?
    ensures KeptAt(sys, Next(sys, Call(key, outcome, now)), key)
  {
    hide FetchChild, WriteChild, DeleteCluster, DropFinalizer, Report, PutFinalizer, CopyOk, StoredCrOk, LogOk;
    var sys' := Next(sys, Call(key, outcome, now));
    if key in sys.store.crs {
      StoredIds(sys, key);
      ReadLog(sys, sys', sys.store.crs[key]);
      ReadStored(sys, sys', key);
      if key in sys'.passes { ReadCopy(sys, sys', key, sys'.passes[key]); }
    } else {
      PlainLog(sys, sys', {}, key);
    }
  }

  lemma ReadLog(sys: System, sys': System, cr: Kubeshark)
    requires LogOk(sys) && cr.id.uid < sys.store.nextUid && sys'.store.nextUid == sys.store.nextUid
    requires sys.log <= sys'.log <= sys.log + {DeletionRead(cr.id, cr.spec)}
    ensures LogOk(sys')
  {
    hide ClusterKey;
  }

  lemma ReadStored(sys: System, sys': System, key: CrKey)
    requires key in sys.store.crs && StoredCrOk(sys, key) && sys'.store == sys.store
    requires var cr := sys.store.crs[key];
             sys.log <= sys'.log <= sys.log + {DeletionRead(cr.id, cr.spec)} && (sys'.log == sys.log || cr.deleting)
    ensures StoredCrOk(sys', key)
  {
  }

  /** The copy a read returns. */
  lemma ReadCopy(sys: System, sys': System, key: CrKey, p: Pass)
    requires key in sys.store.crs && StoredCrOk(sys, key) && sys'.store == sys.store && sys.log <= sys'.log
    requires var cr := sys.store.crs[key];
             if cr.deleting
             then p.phase == Deleting(cr, 0) && HasFinalizer(cr) && DeletionRead(cr.id, cr.spec) in sys'.log
             else sys'.log == sys.log
                  && (p.phase == AddingFinalizer(cr) || (p.phase == Fetching(cr, 0) && HasFinalizer(cr)))
    ensures CopyOk(sys', key, p)
  {
    hide ClusterKey;
  }

  /** After an event about `key`, the resource and its reconcile are in order. */
  ghost predicate KeptAt(sys: System, sys': System, key: CrKey) {
    && sys'.store.nextUid >= sys.store.nextUid && sys.log <= sys'.log
    && (forall e <- sys'.log :: e in sys.log || (IdOf(e).key == key && IdOf(e).uid < sys'.store.nextUid))
    && (forall k <- sys.store.crs :: k == key || k in sys'.store.crs)
    && (forall k <- sys'.store.crs :: k == key || (k in sys.store.crs && sys'.store.crs[k] == sys.store.crs[k]))
    && (key in sys'.store.crs ==> StoredCrOk(sys', key))
    && (key in sys'.passes ==>
          InRange(sys'.passes[key].phase) && (HasCopy(sys'.passes[key].phase) ==> CopyOk(sys', key, sys'.passes[key])))
    && (forall k <- sys'.passes :: k == key || (k in sys.passes && sys'.passes[k] == sys.passes[k]))
    && LogOk(sys')
  }

  lemma KeptEverywhere(sys: System, sys': System, key: CrKey)
    requires Sound(sys) && KeptAt(sys, sys', key)
    ensures Sound(sys')
  {
    forall k <- sys'.store.crs
      ensures StoredCrOk(sys', k)
    {
      if k != key { StoredElsewhere(sys, sys', k); }
    }
    forall k <- sys'.passes
      ensures InRange(sys'.passes[k].phase)
      ensures HasCopy(sys'.passes[k].phase) ==> CopyOk(sys', k, sys'.passes[k])
    {
      if k != key && HasCopy(sys'.passes[k].phase) { CopyElsewhere(sys, sys', k, sys'.passes[k]); }
    }
  }

  lemma PutFinalizerKeeps(sys: System, key: CrKey, outcome: Outcome, now: nat)
    requires Sound(sys) && key in sys.passes && sys.passes[key].phase.AddingFinalizer?
    ensures KeptAt(sys, Next(sys, Call(key, outcome, now)), key)
  {
    hide WriteBack, CopyOk, StoredCrOk, LogOk;
    var cr := sys.passes[key].phase.cr;
    var sys' := Next(sys, Call(key, outcome, now));
    if key in sys.store.crs && sys.store.crs[key] == cr && !outcome.Refused? {
      StoredIds(sys, key);
      var cr' := Rewritten(AddFinalizer(cr));
      NewVersionLog(sys, sys', {CurrentVersion(cr')}, key, cr');
      NewVersionStored(sys, sys', {CurrentVersion(cr')}, key, cr');
    } else {
      PlainLog(sys, sys', {}, key);
      if key in sys.store.crs { PlainStored(sys, sys', {}, key); }
    }
  }

  lemma StoredIds(sys: System, key: CrKey)
    requires key in sys.store.crs && StoredCrOk(sys, key)
    ensures sys.store.crs[key].id.key == key && sys.store.crs[key].id.uid < sys.store.nextUid
    ensures CurrentVersion(sys.store.crs[key]) in sys.log
  {
  }

  lemma ChildKeeps(sys: System, key: CrKey, outcome: Outcome, now: nat)
    requires Sound(sys) && key in sys.passes
    requires sys.passes[key].phase.Fetching? || sys.passes[key].phase.Writing?
    ensures KeptAt(sys, Next(sys, Call(key, outcome, now)), key)
  {
    hide Serve, ChildShape, CopyOk, StoredCrOk, LogOk;
    var p := sys.passes[key];
    var e := Serve(sys.store, key, p, outcome, now);
    var sys' := Next(sys, Call(key, outcome, now));
    ChildHasShape(sys.store, key, p, outcome, now);
    ChildInOutline(sys.store, p, e);
    CopyHolds(sys, key, p);
    assert Plain(e.notes, key, sys.store.nextUid);
    PlainLog(sys, sys', e.notes, key);
    PlainStored(sys, sys', e.notes, key);
    PlainCopy(sys, sys', e.notes, key, p, e.next.value);
  }

  lemma CopyHolds(sys: System, key: CrKey, p: Pass)
    requires HasCopy(p.phase) && CopyOk(sys, key, p) && (p.phase.Fetching? || p.phase.Writing?)
    ensures Holding(sys.store, p.phase.cr) && p.phase.cr.id.key == key && p.phase.cr.id.uid < sys.store.nextUid
  {
  }

  lemma DeleteKeeps(sys: System, key: CrKey, outcome: Outcome, now: nat)
    requires Sound(sys) && key in sys.passes && sys.passes[key].phase.Deleting?
    ensures KeptAt(sys, Next(sys, Call(key, outcome, now)), key)
  {
    hide FetchChild, WriteChild, ClusterKey, CopyOk, StoredCrOk, LogOk;
    var p := sys.passes[key];
    var e := Serve(sys.store, key, p, outcome, now);
    var sys' := Next(sys, Call(key, outcome, now));
    DeletingFacts(sys, key, p);
    PlainLog(sys, sys', e.notes, key);
    if key in sys.store.crs { PlainStored(sys, sys', e.notes, key); }
    DeletingCopy(sys, sys', key, p, e.next.value);
  }

  lemma DeletingFacts(sys: System, key: CrKey, p: Pass)
    requires HasCopy(p.phase) && CopyOk(sys, key, p)
    ensures p.phase.cr.id.key == key && p.phase.cr.id.uid < sys.store.nextUid
    ensures p.phase.Deleting? ==> Live(sys.store, p.phase.cr.id)
  {
  }

  /** A deletion pass goes on: one more removal recorded, or a failure to report. */
  lemma DeletingCopy(sys: System, sys': System, key: CrKey, p: Pass, ph: Phase)
    requires InRange(p.phase) && p.phase.Deleting? && CopyOk(sys, key, p)
    requires sys.log <= sys'.log && sys'.store.crs == sys.store.crs && sys'.store.nextUid == sys.store.nextUid
    requires sys'.log <= sys.log + {Removed(p.number, p.phase.cr.id, ClusterKey(p.phase.cr.ToView(), p.phase.i))}
    requires ph.Reporting? ==> ph.cr == p.phase.cr && ph.verdict.DeleteFailed?
    requires !ph.Reporting? ==>
               && ph == (if p.phase.i == 0 then Deleting(p.phase.cr, 1) else DroppingFinalizer(p.phase.cr))
               && Removed(p.number, p.phase.cr.id, ClusterKey(p.phase.cr.ToView(), p.phase.i)) in sys'.log
    ensures HasCopy(ph) && CopyOk(sys', key, Pass(p.number, ph))
  {
    hide ClusterKey;
  }

  lemma DropKeeps(sys: System, key: CrKey, outcome: Outcome, now: nat)
    requires Sound(sys) && key in sys.passes && sys.passes[key].phase.DroppingFinalizer?
    ensures KeptAt(sys, Next(sys, Call(key, outcome, now)), key)
  {
    hide Serve, Next, KeptAt;
    if key in sys.store.crs && sys.store.crs[key] == sys.passes[key].phase.cr && !outcome.Refused? {
      DropAppliedKeeps(sys, key, outcome, now);
    } else {
      DropRejectedKeeps(sys, key, outcome, now);
    }
  }

  lemma DropAppliedKeeps(sys: System, key: CrKey, outcome: Outcome, now: nat)
    requires Sound(sys) && key in sys.passes && sys.passes[key].phase.DroppingFinalizer?
    requires key in sys.store.crs && sys.store.crs[key] == sys.passes[key].phase.cr && !outcome.Refused?
    ensures KeptAt(sys, Next(sys, Call(key, outcome, now)), key)
  {
    hide WriteBack, ClusterKey, CopyOk, StoredCrOk, LogOk;
    var p := sys.passes[key];
    var sys' := Next(sys, Call(key, outcome, now));
    var e := DropFinalizer(sys.store, p.number, key, p.phase.cr, outcome);
    DroppingFacts(sys, key, p);
    StoredIds(sys, key);
    var cr' := Rewritten(RemoveFinalizer(p.phase.cr));
    NewVersionLog(sys, sys', e.notes, key, cr');
    if key in sys'.store.crs { NewVersionStored(sys, sys', e.notes, key, cr'); }
    if key in sys'.passes { DroppedCopy(sys, sys', key, p, sys'.passes[key].phase.verdict); }
  }

  lemma DropRejectedKeeps(sys: System, key: CrKey, outcome: Outcome, now: nat)
    requires Sound(sys) && key in sys.passes && sys.passes[key].phase.DroppingFinalizer?
    requires !(key in sys.store.crs && sys.store.crs[key] == sys.passes[key].phase.cr && !outcome.Refused?)
    ensures KeptAt(sys, Next(sys, Call(key, outcome, now)), key)
  {
    hide CopyOk, StoredCrOk, LogOk;
    var p := sys.passes[key];
    var sys' := Next(sys, Call(key, outcome, now));
    PlainLog(sys, sys', {}, key);
    if key in sys.store.crs { PlainStored(sys, sys', {}, key); }
    DroppedCopy(sys, sys', key, p, sys'.passes[key].phase.verdict);
  }

  /** The release of the finalizer, in outline. */
  ghost predicate DropShape(s: Store, key: CrKey, cr: Kubeshark, e: Effect) {
    && e.store.objs == s.objs && e.store.nextUid == s.nextUid
    && (forall k <- s.crs :: k == key || k in e.store.crs)
    && (forall k <- e.store.crs :: k == key || (k in s.crs && e.store.crs[k] == s.crs[k]))
    && (key in e.store.crs ==>
          && key in s.crs && e.store.crs[key].id == s.crs[key].id
          && e.store.crs[key].status == s.crs[key].status && e.store.crs[key].generation >= s.crs[key].generation)
    && (e.next.Some? ==>
          && e.next.value.Reporting? && e.next.value.verdict.DeleteFailed?
          && e.next.value.cr == RemoveFinalizer(cr))
    && (forall n <- e.notes :: n.Released? || n.Version?)
  }

  lemma DropHasShape(s: Store, number: nat, key: CrKey, cr: Kubeshark, outcome: Outcome)
    ensures DropShape(s, key, cr, DropFinalizer(s, number, key, cr, outcome))
  {
    hide WriteBack, Without;
  }

  lemma DroppingFacts(sys: System, key: CrKey, p: Pass)
    requires HasCopy(p.phase) && CopyOk(sys, key, p) && p.phase.DroppingFinalizer?
    ensures var cr := p.phase.cr;
            && cr.id.key == key && cr.id.uid < sys.store.nextUid
            && Removed(p.number, cr.id, ClusterKey(View(cr.id, cr.spec), 0)) in sys.log
            && Removed(p.number, cr.id, ClusterKey(View(cr.id, cr.spec), 1)) in sys.log
  {
  }

  lemma DroppedCopy(sys: System, sys': System, key: CrKey, p: Pass, verdict: Verdict)
    requires HasCopy(p.phase) && CopyOk(sys, key, p) && p.phase.DroppingFinalizer? && verdict.DeleteFailed?
    requires sys.log <= sys'.log && sys'.store.nextUid == sys.store.nextUid
    ensures CopyOk(sys', key, Pass(p.number, Reporting(RemoveFinalizer(p.phase.cr), verdict)))
  {
  }

  lemma ReportKeeps(sys: System, key: CrKey, outcome: Outcome, now: nat)
    requires Sound(sys) && key in sys.passes && sys.passes[key].phase.Reporting?
    ensures KeptAt(sys, Next(sys, Call(key, outcome, now)), key)
  {
    hide FetchChild, WriteChild, PatchStatus, ReportedStatus, CopyOk, StoredCrOk, LogOk;
    var sys' := Next(sys, Call(key, outcome, now));
    PlainLog(sys, sys', {}, key);
    if key in sys.store.crs { PlainStored(sys, sys', {}, key); }
  }

  lemma CallKeeps(sys: System, key: CrKey, outcome: Outcome, now: nat)
    requires Sound(sys) && key in sys.passes
    ensures Sound(Next(sys, Call(key, outcome, now)))
  {
    match sys.passes[key].phase {
      case Reading => ReadKeeps(sys, key, outcome, now);
      case AddingFinalizer(_) => PutFinalizerKeeps(sys, key, outcome, now);
      case Fetching(_, _) => ChildKeeps(sys, key, outcome, now);
      case Writing(_, _, _) => ChildKeeps(sys, key, outcome, now);
      case Deleting(_, _) => DeleteKeeps(sys, key, outcome, now);
      case DroppingFinalizer(_) => DropKeeps(sys, key, outcome, now);
      case Reporting(_, _) => ReportKeeps(sys, key, outcome, now);
    }
    KeptEverywhere(sys, Next(sys, Call(key, outcome, now)), key);
  }

  // ----- The environment -----

  function KeyOfAction(a: Action): CrKey {
    match a
    case CreateCr(key, _, _) => key
    case EditSpec(key, _) => key
    case EditFinalizers(key, _) => key
    case RequestDelete(key) => key
    case Drift(k, _) => CrKey("", "")
    case Collect(k) => CrKey("", "")
  }

  /** What happens outside leaves statuses alone: resources go, move on to a later generation, or are new. */
  ghost predicate PerturbShape(s: Store, a: Action, s': Store) {
    && s'.nextUid >= s.nextUid
    && (if a.Drift? || a.Collect? then s'.crs == s.crs else s'.objs == s.objs)
    && (forall k <- s'.crs ::
          || (k in s.crs && s'.crs[k].id == s.crs[k].id && s'.crs[k].status == s.crs[k].status
              && s'.crs[k].generation >= s.crs[k].generation)
          || (a.CreateCr? && a.key == k && k !in s.crs && s'.crs[k].status == EMPTY_STATUS
              && s'.crs[k].id == CrId(k, s.nextUid)))
  }

  lemma PerturbHasShape(s: Store, a: Action)
    ensures PerturbShape(s, a, Perturb(s, a).0)
    ensures forall e <- Perturb(s, a).1 :: e.Version?
  {
    hide Admit;
  }

  /** A copy in flight outlives edits that keep the resource, its finalizer and its deletion mark. */
  lemma CopySurvives(sys: System, sys': System, key: CrKey, p: Pass)
    requires HasCopy(p.phase) && CopyOk(sys, key, p)
    requires sys'.store.nextUid >= sys.store.nextUid && sys.log <= sys'.log
    requires forall e <- sys'.log :: e in sys.log || !e.DeletionRead?
    requires Live(sys.store, p.phase.cr.id) && HasFinalizer(sys.store.crs[key]) ==>
               && Live(sys'.store, p.phase.cr.id) && HasFinalizer(sys'.store.crs[key])
               && sys'.store.crs[key].generation >= sys.store.crs[key].generation
               && (sys.store.crs[key].deleting ==> sys'.store.crs[key].deleting)
    ensures CopyOk(sys', key, p)
  {
  }

  lemma FreshLog(sys: System, sys': System, cr: Kubeshark)
    requires LogOk(sys) && sys'.log == sys.log + {CurrentVersion(cr)}
    requires cr.id.uid == sys.store.nextUid < sys'.store.nextUid
    ensures LogOk(sys')
  {
    hide ClusterKey;
  }

  lemma FreshStored(sys: System, sys': System, key: CrKey)
    requires LogOk(sys) && key in sys'.store.crs && sys'.log == sys.log + {CurrentVersion(sys'.store.crs[key])}
    requires var id := sys'.store.crs[key].id; id.key == key && id.uid == sys.store.nextUid < sys'.store.nextUid
    ensures StoredCrOk(sys', key)
  {
    hide ClusterKey;
    var id := sys'.store.crs[key].id;
    assert forall e <- sys.log :: IdOf(e) != id;
    assert forall g: nat, spec :: Version(id, g, spec) in sys.log ==> IdOf(Version(id, g, spec)) == id;
    assert forall spec :: DeletionRead(id, spec) in sys.log ==> IdOf(DeletionRead(id, spec)) == id;
  }

  lemma CreateKeeps(sys: System, key: CrKey, spec: Spec, fs: seq<string>)
    requires Sound(sys) && key !in sys.store.crs
    ensures KeptAt(sys, Next(sys, Outside(CreateCr(key, spec, fs))), key)
  {
    hide CopyOk, StoredCrOk, LogOk;
    var sys' := Next(sys, Outside(CreateCr(key, spec, fs)));
    FreshLog(sys, sys', sys'.store.crs[key]);
    FreshStored(sys, sys', key);
    if key in sys.passes && HasCopy(sys.passes[key].phase) {
      CopyId(sys, key, sys.passes[key]);
      CopySurvives(sys, sys', key, sys.passes[key]);
    }
  }

  lemma EditedInOutline(sys: System, a: Action)
    requires FinalizerKept(sys, Outside(a)) && KeyOfAction(a) in sys.store.crs
    requires a.EditSpec? || a.EditFinalizers? || a.RequestDelete?
    ensures var key := KeyOfAction(a);
            var cr := sys.store.crs[key];
            var (s', notes) := Perturb(sys.store, a);
            && s'.nextUid == sys.store.nextUid
            && (forall k <- sys.store.crs :: k == key || k in s'.crs)
            && (forall k <- s'.crs :: k == key || (k in sys.store.crs && s'.crs[k] == sys.store.crs[k]))
            && (HasFinalizer(cr) ==> key in s'.crs && HasFinalizer(s'.crs[key]))
            && (if notes == {} then key in s'.crs ==> s'.crs[key].(finalizers := cr.finalizers) == cr
                else key in s'.crs && notes == {CurrentVersion(s'.crs[key])} && Supersedes(s'.crs[key], cr)
                     && (cr.deleting ==> s'.crs[key].deleting))
  {
  }

  lemma EditKeeps(sys: System, a: Action)
    requires Sound(sys) && FinalizerKept(sys, Outside(a))
    requires a.EditSpec? || a.EditFinalizers? || a.RequestDelete?
    requires KeyOfAction(a) in sys.store.crs
    ensures KeptAt(sys, Next(sys, Outside(a)), KeyOfAction(a))
  {
    hide Perturb, CopyOk, StoredCrOk, LogOk, HasFinalizer, FinalizerKept;
    var key := KeyOfAction(a);
    var sys' := Next(sys, Outside(a));
    var notes := Perturb(sys.store, a).1;
    EditedInOutline(sys, a);
    StoredIds(sys, key);
    if notes == {} {
      PlainLog(sys, sys', {}, key);
    } else {
      NewVersionLog(sys, sys', notes, key, sys'.store.crs[key]);
    }
    if key in sys'.store.crs {
      EditedStored(sys, sys', notes, key);
    }
    if key in sys.passes && HasCopy(sys.passes[key].phase) {
      CopyId(sys, key, sys.passes[key]);
      CopySurvives(sys, sys', key, sys.passes[key]);
    }
  }

  lemma CopyId(sys: System, key: CrKey, p: Pass)
    requires HasCopy(p.phase) && CopyOk(sys, key, p)
    ensures p.phase.cr.id.key == key
  {
  }

  lemma EditedStored(sys: System, sys': System, notes: set<Entry>, key: CrKey)
    requires key in sys.store.crs && StoredCrOk(sys, key)
    requires key in sys'.store.crs && Supersedes(sys'.store.crs[key], sys.store.crs[key])
    requires sys.store.crs[key].deleting ==> sys'.store.crs[key].deleting
    requires sys'.log == sys.log + notes && sys'.store.nextUid == sys.store.nextUid
    requires notes <= {CurrentVersion(sys'.store.crs[key])} && CurrentVersion(sys'.store.crs[key]) in sys'.log
    ensures StoredCrOk(sys', key)
  {
  }

  lemma {:induction false} NextKeeps(sys: System, ev: Event)
    requires Sound(sys) && FinalizerKept(sys, ev)
    ensures Sound(Next(sys, ev))
  {
    match ev {
      case Start(key) => QuietStep(sys, Next(sys, ev));
      case Crash(key) => QuietStep(sys, Next(sys, ev));
      case Call(key, outcome, now) =>
        if key in sys.passes { CallKeeps(sys, key, outcome, now); } else { QuietStep(sys, Next(sys, ev)); }
      case Outside(a) =>
        OutsideKeeps(sys, a);
    }
  }

  /** Steps that only start or end reconciles, or touch no custom resource. */
  lemma QuietStep(sys: System, sys': System)
    requires Sound(sys)
    requires sys'.store.crs == sys.store.crs && sys'.store.nextUid == sys.store.nextUid && sys'.log == sys.log
    requires forall k <- sys'.passes ::
               sys'.passes[k].phase.Reading? || (k in sys.passes && sys'.passes[k] == sys.passes[k])
    ensures Sound(sys')
  {
    forall k <- sys'.store.crs
      ensures StoredCrOk(sys', k)
    {
      StoredElsewhere(sys, sys', k);
    }
    forall k <- sys'.passes
      ensures InRange(sys'.passes[k].phase)
      ensures HasCopy(sys'.passes[k].phase) ==> CopyOk(sys', k, sys'.passes[k])
    {
      if HasCopy(sys'.passes[k].phase) { CopyElsewhere(sys, sys', k, sys'.passes[k]); }
    }
  }

  lemma OutsideKeeps(sys: System, a: Action)
    requires Sound(sys) && FinalizerKept(sys, Outside(a))
    ensures Sound(Next(sys, Outside(a)))
  {
    hide CopyOk, StoredCrOk, LogOk;
    var sys' := Next(sys, Outside(a));
    var key := KeyOfAction(a);
    match a {
      case CreateCr(_, spec, fs) =>
        if key !in sys.store.crs {
          CreateKeeps(sys, key, spec, fs);
          KeptEverywhere(sys, sys', key);
        } else {
          QuietStep(sys, sys');
        }
      case Drift(_, _) => QuietStep(sys, sys');
      case Collect(_) => QuietStep(sys, sys');
      case _ =>
        if key in sys.store.crs {
          EditKeeps(sys, a);
          KeptEverywhere(sys, sys', key);
        } else {
          QuietStep(sys, sys');
        }
    }
  }

  // ----- Runs -----

  /** Every event of a run meets an assumption in the state where it happens. */
  ghost predicate Along(assumption: (System, Event) -> bool, evs: seq<Event>) {
    forall n :: 0 <= n < |evs| ==> assumption(Run(INITIAL, evs[..n]), evs[n])
  }

  lemma AlongInit(assumption: (System, Event) -> bool, evs: seq<Event>)
    requires Along(assumption, evs) && evs != []
    ensures Along(assumption, evs[..|evs| - 1])
    ensures assumption(Run(INITIAL, evs[..|evs| - 1]), evs[|evs| - 1])
  {
    var init := evs[..|evs| - 1];
    forall n | 0 <= n < |init|
      ensures assumption(Run(INITIAL, init[..n]), init[n])
    {
      assert init[..n] == evs[..n];
    }
  }

  /** Every run keeps identities, versions and in-flight copies in order, as long as the finalizer is left alone. */
  lemma {:induction false} RunsAreSound(evs: seq<Event>)
    requires Along(FinalizerKept, evs)
    ensures Sound(Run(INITIAL, evs))
    decreases |evs|
  {
    if evs != [] {
      AlongInit(FinalizerKept, evs);
      RunsAreSound(evs[..|evs| - 1]);
      NextKeeps(Run(INITIAL, evs[..|evs| - 1]), evs[|evs| - 1]);
    }
  }
}
