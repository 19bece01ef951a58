/** References between stored children, at every boundary between API calls. */
module References {
  import opened Wrappers
  import opened Api
  import opened Objects
  import opened Components
  import opened Laws
  import opened Conditions
  import opened Operator
  import opened Runs
  import opened Cleanup

  function Mine(v: View): Option<OwnerRef> {
    Some(KubesharkOwner(v.Name(), v.id.uid))
  }

  function AccountRef(k: ObjKey, t: PodTemplate): set<ObjKey> {
    if t.serviceAccount == "" then {} else {ObjKey(KServiceAccount, k.ns, t.serviceAccount)}
  }

  /** The namespaced objects that a stored object names. */
  function Refs(k: ObjKey, o: Object): set<ObjKey> {
    match o.body
    case Deployment(_, _, t, _) => AccountRef(k, t)
    case DaemonSet(_, t, _) => AccountRef(k, t)
    case Ingress(_, rules, _) => set r | r in rules :: ObjKey(KService, k.ns, r.service)
    case _ => {}
  }

  /** Every reference is to a stored object of the same owner. */
  ghost predicate Resolved(objs: map<ObjKey, Object>, k: ObjKey)
    requires k in objs
  {
    forall t <- Refs(k, objs[k]) :: t in objs && objs[t].owner == objs[k].owner
  }

  /** The controller of the object is a resource that exists. */
  predicate LiveOwner(s: Store, k: ObjKey, o: Object) {
    o.owner.Some? && o.owner.value.KubesharkOwner? && OwnerIsLive(s, k, o)
  }

  /** Nobody else deletes children, changes their controller or what they refer to, or forges a controller. */
  predicate GentleDrift(sys: System, ev: Event) {
    match ev
    case Outside(Drift(k, content)) =>
      content.Some? &&
      var o := Admit(k, content.value);
      if k in sys.store.objs then o.owner == sys.store.objs[k].owner && Refs(k, o) == Refs(k, sys.store.objs[k])
      else o.owner.Some? ==> !o.owner.value.KubesharkOwner?
    case _ => true
  }

  ghost predicate ReferenceAssumptions(sys: System, ev: Event) {
    CleanupAssumptions(sys, ev) && GentleDrift(sys, ev)
  }

  /** Child j of the copy is stored and controlled by it. */
  predicate InPlace(objs: map<ObjKey, Object>, v: View, j: nat)
    requires j < COUNT
  {
    Namespaced(ORDER[j]) ==> KeyAt(j, v) in objs && objs[KeyAt(j, v)].owner == Mine(v)
  }

  ghost predicate CopyLinked(objs: map<ObjKey, Object>, ph: Phase) {
    InRange(ph) && (ph.Fetching? || ph.Writing?) ==>
      forall j: nat :: j < ph.i ==> InPlace(objs, ph.cr.ToView(), j)
  }

  predicate OwnerKnown(s: Store, o: Object) {
    o.owner.Some? && o.owner.value.KubesharkOwner? ==> o.owner.value.uid < s.nextUid
  }

  ghost predicate Linked(sys: System) {
    && (forall k <- sys.store.objs :: OwnerKnown(sys.store, sys.store.objs[k]))
    && (forall k <- sys.store.objs :: LiveOwner(sys.store, k, sys.store.objs[k]) ==> Resolved(sys.store.objs, k))
    && (forall key <- sys.passes :: CopyLinked(sys.store.objs, sys.passes[key].phase))
  }

  // ----- A child's references are to earlier children of the same pass -----

  /** The earlier child that child `c` refers to. */
  function Target(c: Child): Option<nat> {
    match c
    case HubDeployment => Some(1)
    case WorkerDaemonSet => Some(4)
    case FrontendIngress => Some(9)
    case _ => None
  }

  lemma RefsOfConforming(c: Child, v: View, o: Object, t: ObjKey)
    requires Conforms(c, v, o) && t in Refs(KeyOf(c, v), o)
    ensures Target(c).Some? && t == KeyAt(Target(c).value, v)
  {
    match c
    case HubDeployment => assert KeyAt(1, v) == KeyOf(HubServiceAccount, v);
    case WorkerDaemonSet => assert KeyAt(4, v) == KeyOf(WorkerServiceAccount, v);
    case FrontendIngress => assert KeyAt(9, v) == KeyOf(FrontendService, v);
    case _ =>
  }

  lemma TargetIsEarlier(i: nat)
    requires i < COUNT && Target(ORDER[i]).Some?
    ensures Target(ORDER[i]).value < i && Namespaced(ORDER[Target(ORDER[i]).value])
  {
  }

  lemma RefsOfPut(i: nat, v: View, x: Option<Object>)
    requires i < COUNT
    ensures forall t <- Refs(KeyAt(i, v), Put(ORDER[i], v, x)) ::
              exists j: nat :: j < i && Namespaced(ORDER[j]) && t == KeyAt(j, v)
  {
    hide Put, Conforms, Refs, Target, Namespaced, KeyOf;
    PutConforms(ORDER[i], v, x);
    var o := Put(ORDER[i], v, x);
    forall t <- Refs(KeyAt(i, v), o)
      ensures exists j: nat :: j < i && Namespaced(ORDER[j]) && t == KeyAt(j, v)
    {
      RefsOfConforming(ORDER[i], v, o, t);
      TargetIsEarlier(i);
    }
  }

  lemma PutIsMine(i: nat, v: View, x: Option<Object>)
    requires i < COUNT && Namespaced(ORDER[i])
    ensures Put(ORDER[i], v, x).owner == Mine(v)
    ensures KeyAt(i, v).ns == v.Ns()
  {
  }

  // ----- Steps -----

  /** Objects stay, with their controller and references; new ones are not claimed; the collector spares the live. */
  ghost predicate Benign(sys: System, sys': System) {
    && sys'.store.nextUid >= sys.store.nextUid
    && (forall k <- sys.store.objs ::
          k in sys'.store.objs || ClusterScoped(k) || !OwnerIsLive(sys.store, k, sys.store.objs[k]))
    && (forall k <- sys'.store.objs ::
          if k in sys.store.objs
          then
            && sys'.store.objs[k].owner == sys.store.objs[k].owner
            && Refs(k, sys'.store.objs[k]) == Refs(k, sys.store.objs[k])
          else sys'.store.objs[k].owner.Some? ==> !sys'.store.objs[k].owner.value.KubesharkOwner?)
    && (forall key <- sys'.store.crs ::
          (key in sys.store.crs && sys'.store.crs[key].id.uid == sys.store.crs[key].id.uid)
          || sys'.store.crs[key].id.uid >= sys.store.nextUid)
    && (forall key <- sys'.passes :: InRange(sys'.passes[key].phase) &&
          (sys'.passes[key].phase.Fetching? || sys'.passes[key].phase.Writing? ==>
             (key in sys.passes && sys'.passes[key] == sys.passes[key])
             || (sys'.passes[key].phase.Fetching? && sys'.passes[key].phase.i == 0)))
  }

  lemma RefsAreNamespaced(k: ObjKey, o: Object)
    ensures forall t <- Refs(k, o) :: !ClusterScoped(t) && t.ns == k.ns
  {
  }

  lemma BenignResolved(sys: System, sys': System, k: ObjKey)
    requires Linked(sys) && Benign(sys, sys') && k in sys'.store.objs && LiveOwner(sys'.store, k, sys'.store.objs[k])
    ensures Resolved(sys'.store.objs, k)
  {
    assert k in sys.store.objs;
    assert OwnerKnown(sys.store, sys.store.objs[k]);
    assert LiveOwner(sys.store, k, sys.store.objs[k]);
    assert Resolved(sys.store.objs, k);
    RefsAreNamespaced(k, sys.store.objs[k]);
    forall t <- Refs(k, sys'.store.objs[k])
      ensures t in sys'.store.objs && sys'.store.objs[t].owner == sys'.store.objs[k].owner
    {
      assert OwnerIsLive(sys.store, t, sys.store.objs[t]);
    }
  }

  lemma BenignInPlace(sys: System, sys': System, v: View, j: nat)
    requires Benign(sys, sys') && j < COUNT && InPlace(sys.store.objs, v, j) && Live(sys.store, v.id)
    ensures InPlace(sys'.store.objs, v, j)
  {
    if Namespaced(ORDER[j]) {
      var k := KeyAt(j, v);
      assert !ClusterScoped(k) && k.ns == v.Ns();
      assert OwnerIsLive(sys.store, k, sys.store.objs[k]);
    }
  }

  lemma BenignLinked(sys: System, sys': System)
    requires Sound(sys) && Linked(sys) && Benign(sys, sys')
    ensures Linked(sys')
  {
    hide Resolved, LiveOwner, StoredCrOk, LogOk, InPlace, Refs, OwnerIsLive;
    forall k <- sys'.store.objs
      ensures OwnerKnown(sys'.store, sys'.store.objs[k])
      ensures LiveOwner(sys'.store, k, sys'.store.objs[k]) ==> Resolved(sys'.store.objs, k)
    {
      if k in sys.store.objs { assert OwnerKnown(sys.store, sys.store.objs[k]); }
      if LiveOwner(sys'.store, k, sys'.store.objs[k]) { BenignResolved(sys, sys', k); }
    }
    forall key <- sys'.passes
      ensures CopyLinked(sys'.store.objs, sys'.passes[key].phase)
    {
      var ph := sys'.passes[key].phase;
      if (ph.Fetching? || ph.Writing?) && ph.i > 0 {
        assert CopyOk(sys, key, sys.passes[key]) && CopyLinked(sys.store.objs, ph);
        forall j: nat | j < ph.i
          ensures InPlace(sys'.store.objs, ph.cr.ToView(), j)
        {
          BenignInPlace(sys, sys', ph.cr.ToView(), j);
        }
      }
    }
  }

  lemma OutsideBenign(sys: System, a: Action)
    requires Sound(sys) && GentleDrift(sys, Outside(a))
    ensures Benign(sys, Next(sys, Outside(a)))
  {
    hide Admit, Perturb, Refs, StoredCrOk, CopyOk, LogOk;
    PerturbHasShape(sys.store, a);
    if a.Drift? || a.Collect? { ObjsBenign(sys.store, a, sys); }
  }

  lemma ObjsBenign(s: Store, a: Action, sys: System)
    requires (a.Drift? || a.Collect?) && s == sys.store && GentleDrift(sys, Outside(a))
    ensures var objs' := Perturb(s, a).0.objs;
            && (forall k <- s.objs :: k in objs' || !OwnerIsLive(s, k, s.objs[k]))
            && (forall k <- objs' ::
                  if k in s.objs then objs'[k].owner == s.objs[k].owner && Refs(k, objs'[k]) == Refs(k, s.objs[k])
                  else objs'[k].owner.Some? ==> !objs'[k].owner.value.KubesharkOwner?)
  {
    hide Admit, Refs;
  }

  lemma QuietCallBenign(sys: System, key: CrKey, outcome: Outcome, now: nat)
    requires Sound(sys) && key in sys.passes && !sys.passes[key].phase.Fetching? && !sys.passes[key].phase.Writing?
    requires !sys.passes[key].phase.Deleting? && !sys.passes[key].phase.DroppingFinalizer?
    ensures Benign(sys, Next(sys, Call(key, outcome, now)))
  {
    hide Refs, LogOk, CopyOk, WriteBack, PatchStatus, ReportedStatus, StoredCrOk;
    hide FetchChild, WriteChild, DeleteCluster, DropFinalizer, OwnerIsLive;
  }

  lemma DeletingBenign(sys: System, key: CrKey, outcome: Outcome, now: nat)
    requires Sound(sys) && key in sys.passes && sys.passes[key].phase.Deleting?
    ensures Benign(sys, Next(sys, Call(key, outcome, now)))
  {
    hide Refs, LogOk, CopyOk, StoredCrOk;
  }

  lemma DroppingBenign(sys: System, key: CrKey, outcome: Outcome, now: nat)
    requires Sound(sys) && key in sys.passes && sys.passes[key].phase.DroppingFinalizer?
    ensures Benign(sys, Next(sys, Call(key, outcome, now)))
  {
    hide Refs, LogOk, CopyOk, DropFinalizer, Without, StoredCrOk;
    DropHasShape(sys.store, sys.passes[key].number, key, sys.passes[key].phase.cr, outcome);
  }

  // ----- A child's step -----

  /** What a child's step does to the objects: nothing, or it stores its Put where nobody else owns. */
  ghost predicate ChildWrites(objs: map<ObjKey, Object>, objs': map<ObjKey, Object>, v: View, i: nat)
    requires i < COUNT
  {
    var k := KeyAt(i, v);
    || objs' == objs
    || (!OwnerBlocks(ORDER[i], v, Lookup(objs, k)) && objs' == objs[k := Put(ORDER[i], v, Lookup(objs, k))])
  }

  lemma ChildWritesSo(s: Store, p: Pass, e: Effect)
    requires InRange(p.phase) && (p.phase.Fetching? || p.phase.Writing?) && ChildShape(s, p, e)
    ensures ChildWrites(s.objs, e.store.objs, p.phase.cr.ToView(), p.phase.i)
    ensures e.store.crs == s.crs && e.store.nextUid == s.nextUid
    ensures e.next.Some?
    ensures e.next.value.Fetching? || e.next.value.Writing? ==>
              && e.next.value.cr == p.phase.cr
              && (e.next.value.i == p.phase.i || e.next == Some(Advanced(p.phase.cr, p.phase.i)))
    ensures e.next == Some(Advanced(p.phase.cr, p.phase.i)) ==> InPlace(e.store.objs, p.phase.cr.ToView(), p.phase.i)
  {
    hide FieldBlocks, ShapeBody, DefaultBody;
    var i, v := p.phase.i, p.phase.cr.ToView();
    if Namespaced(ORDER[i]) {
      PutIsMine(i, v, Lookup(s.objs, KeyAt(i, v)));
    }
  }

  /** A write never takes an object from another resource. */
  lemma WrittenKeepsOwner(objs: map<ObjKey, Object>, objs': map<ObjKey, Object>, v: View, i: nat, t: ObjKey)
    requires i < COUNT && ChildWrites(objs, objs', v, i)
    requires t in objs && !ClusterScoped(t) && objs[t].owner.Some? && objs[t].owner.value.KubesharkOwner?
    ensures t in objs'
    ensures objs'[t].owner == objs[t].owner
            || (t.ns == v.Ns() && objs[t].owner.value.name == v.Name() && objs'[t].owner == Mine(v))
  {
    hide Put, FieldBlocks;
    if t == KeyAt(i, v) && objs' != objs {
      PutIsMine(i, v, Lookup(objs, t));
    }
  }

  lemma WriteKeepsInPlace(objs: map<ObjKey, Object>, objs': map<ObjKey, Object>, v: View, i: nat, w: View, j: nat)
    requires i < COUNT && ChildWrites(objs, objs', v, i)
    requires j < COUNT && InPlace(objs, w, j)
    requires w.id == v.id || w.id.key != v.id.key
    ensures InPlace(objs', w, j)
  {
    hide ChildWrites;
    if Namespaced(ORDER[j]) {
      assert !ClusterScoped(KeyAt(j, w)) && KeyAt(j, w).ns == w.Ns();
      WrittenKeepsOwner(objs, objs', v, i, KeyAt(j, w));
    }
  }

  lemma WriteResolvesOthers(s: Store, objs': map<ObjKey, Object>, v: View, i: nat, k: ObjKey)
    requires i < COUNT && ChildWrites(s.objs, objs', v, i) && Live(s, v.id)
    requires k in s.objs && k != KeyAt(i, v) && LiveOwner(s, k, s.objs[k]) && Resolved(s.objs, k)
    ensures k in objs' && objs'[k] == s.objs[k] && Resolved(objs', k)
  {
    hide Refs, Put, OwnerBlocks;
    RefsAreNamespaced(k, s.objs[k]);
    forall t <- Refs(k, objs'[k])
      ensures t in objs' && objs'[t].owner == objs'[k].owner
    {
      WrittenKeepsOwner(s.objs, objs', v, i, t);
    }
  }

  lemma WriteResolvesOwn(objs: map<ObjKey, Object>, v: View, i: nat)
    requires i < COUNT && Namespaced(ORDER[i])
    requires forall j: nat :: j < i ==> InPlace(objs, v, j)
    ensures var o := Put(ORDER[i], v, Lookup(objs, KeyAt(i, v)));
            Resolved(objs[KeyAt(i, v) := o], KeyAt(i, v))
  {
    hide Put, Refs;
    var k := KeyAt(i, v);
    var o := Put(ORDER[i], v, Lookup(objs, k));
    PutIsMine(i, v, Lookup(objs, k));
    RefsOfPut(i, v, Lookup(objs, k));
    forall t <- Refs(k, o)
      ensures t in objs[k := o] && objs[k := o][t].owner == o.owner
    {
      var j: nat :| j < i && Namespaced(ORDER[j]) && t == KeyAt(j, v);
      assert InPlace(objs, v, j);
    }
  }

  lemma ClusterPutUnowned(objs: map<ObjKey, Object>, v: View, i: nat)
    requires i < COUNT && !Namespaced(ORDER[i])
    ensures Put(ORDER[i], v, Lookup(objs, KeyAt(i, v))).owner == Found(ORDER[i], Lookup(objs, KeyAt(i, v))).owner
    ensures Refs(KeyAt(i, v), Put(ORDER[i], v, Lookup(objs, KeyAt(i, v)))) == {}
  {
    PutConforms(ORDER[i], v, Lookup(objs, KeyAt(i, v)));
  }

  lemma WrittenObjectOk(s: Store, s': Store, v: View, i: nat, k: ObjKey)
    requires i < COUNT && ChildWrites(s.objs, s'.objs, v, i) && Live(s, v.id) && v.id.uid < s.nextUid
    requires s'.crs == s.crs && s'.nextUid == s.nextUid && k in s'.objs
    requires forall k' <- s.objs :: OwnerKnown(s, s.objs[k']) && (LiveOwner(s, k', s.objs[k']) ==> Resolved(s.objs, k'))
    requires forall j: nat :: j < i ==> InPlace(s.objs, v, j)
    ensures OwnerKnown(s', s'.objs[k]) && (LiveOwner(s', k, s'.objs[k]) ==> Resolved(s'.objs, k))
  {
    hide Put, Refs, OwnerBlocks, Resolved, InPlace;
    if k != KeyAt(i, v) {
      if LiveOwner(s, k, s.objs[k]) { WriteResolvesOthers(s, s'.objs, v, i, k); }
    } else if s'.objs != s.objs {
      if Namespaced(ORDER[i]) {
        PutIsMine(i, v, Lookup(s.objs, k));
        WriteResolvesOwn(s.objs, v, i);
      } else {
        ClusterPutUnowned(s.objs, v, i);
        NoRefsResolved(s'.objs, k);
      }
    }
  }

  lemma NoRefsResolved(objs: map<ObjKey, Object>, k: ObjKey)
    requires k in objs && Refs(k, objs[k]) == {}
    ensures Resolved(objs, k)
  {
  }

  lemma ChildLinked(sys: System, key: CrKey, outcome: Outcome, now: nat)
    requires Sound(sys) && Linked(sys) && key in sys.passes
    requires sys.passes[key].phase.Fetching? || sys.passes[key].phase.Writing?
    ensures Linked(Next(sys, Call(key, outcome, now)))
  {
    hide FetchChild, WriteChild, ChildShape, ChildWrites, KeyAt, StoredCrOk, LogOk, OwnerKnown, LiveOwner, Resolved,
         InPlace;
    var p := sys.passes[key];
    var cr := p.phase.cr;
    var v := cr.ToView();
    var e := Serve(sys.store, key, p, outcome, now);
    var sys' := Next(sys, Call(key, outcome, now));
    assert CopyOk(sys, key, p) && CopyLinked(sys.store.objs, p.phase);
    ChildHasShape(sys.store, key, p, outcome, now);
    ChildWritesSo(sys.store, p, e);
    forall k <- sys'.store.objs
      ensures OwnerKnown(sys'.store, sys'.store.objs[k])
      ensures LiveOwner(sys'.store, k, sys'.store.objs[k]) ==> Resolved(sys'.store.objs, k)
    {
      WrittenObjectOk(sys.store, sys'.store, v, p.phase.i, k);
    }
    forall other <- sys'.passes
      ensures CopyLinked(sys'.store.objs, sys'.passes[other].phase)
    {
      ChildCopyLinked(sys, sys', key, p, e, other);
    }
  }

  lemma ChildCopyLinked(sys: System, sys': System, key: CrKey, p: Pass, e: Effect, other: CrKey)
    requires Sound(sys) && Linked(sys) && key in sys.passes && sys.passes[key] == p
    requires InRange(p.phase) && (p.phase.Fetching? || p.phase.Writing?)
    requires ChildWrites(sys.store.objs, sys'.store.objs, p.phase.cr.ToView(), p.phase.i)
    requires e.next.Some? && sys'.store == e.store && sys'.passes == sys.passes[key := Pass(p.number, e.next.value)]
    requires e.next.value.Fetching? || e.next.value.Writing? ==>
              && e.next.value.cr == p.phase.cr
              && (e.next.value.i == p.phase.i || e.next == Some(Advanced(p.phase.cr, p.phase.i)))
    requires e.next == Some(Advanced(p.phase.cr, p.phase.i)) ==> InPlace(e.store.objs, p.phase.cr.ToView(), p.phase.i)
    requires other in sys'.passes
    ensures CopyLinked(sys'.store.objs, sys'.passes[other].phase)
  {
    hide ChildWrites, InPlace, StoredCrOk, LogOk, Resolved, OwnerKnown, LiveOwner;
    var v := p.phase.cr.ToView();
    var ph := sys'.passes[other].phase;
    assert CopyOk(sys, key, p) && CopyLinked(sys.store.objs, p.phase);
    if InRange(ph) && (ph.Fetching? || ph.Writing?) {
      assert other != key ==> CopyOk(sys, other, sys.passes[other]);
      assert other != key ==> CopyLinked(sys.store.objs, sys.passes[other].phase);
      forall j: nat | j < ph.i
        ensures InPlace(sys'.store.objs, ph.cr.ToView(), j)
      {
        if other == key && j == p.phase.i {
        } else {
          WriteKeepsInPlace(sys.store.objs, sys'.store.objs, v, p.phase.i, ph.cr.ToView(), j);
        }
      }
    }
  }

  lemma NextLinked(sys: System, ev: Event)
    requires Sound(sys) && Linked(sys) && GentleDrift(sys, ev)
    ensures Linked(Next(sys, ev))
  {
    hide Benign;
    match ev {
      case Outside(a) => OutsideBenign(sys, a); BenignLinked(sys, Next(sys, ev));
      case Call(key, outcome, now) =>
        if key !in sys.passes {
          assert Next(sys, ev) == sys;
        } else {
          match sys.passes[key].phase {
            case Fetching(_, _) => ChildLinked(sys, key, outcome, now);
            case Writing(_, _, _) => ChildLinked(sys, key, outcome, now);
            case Deleting(_, _) => DeletingBenign(sys, key, outcome, now); BenignLinked(sys, Next(sys, ev));
            case DroppingFinalizer(_) => DroppingBenign(sys, key, outcome, now); BenignLinked(sys, Next(sys, ev));
            case _ => QuietCallBenign(sys, key, outcome, now); BenignLinked(sys, Next(sys, ev));
          }
        }
      case _ => StartBenign(sys, ev); BenignLinked(sys, Next(sys, ev));
    }
  }

  lemma StartBenign(sys: System, ev: Event)
    requires Sound(sys) && (ev.Start? || ev.Crash?)
    ensures Benign(sys, Next(sys, ev))
  {
    hide Refs, StoredCrOk, CopyOk, LogOk;
  }
}
