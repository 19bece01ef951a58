/** Which children are written again on every pass although nothing changes, and why that is harmless. */
module Reissues {
  import opened Wrappers
  import opened Api
  import opened Objects
  import opened Components
  import opened Laws
  import opened KeyedWrites
  import opened Operator
  import opened Passes

  /** Children whose callback leaves out a field that the server fills in, or sets a write-only one. */
  predicate Reissued(c: Child) {
    c in {HubDeployment, HubService, WorkerDaemonSet, FrontendDeployment, FrontendService, LicenseSecret}
  }

  lemma ReissuedIffUnequal(c: Child, v: View, x: Object)
    requires Stored(KeyOf(c, v), x) && x == Put(c, v, Some(x))
    ensures Shape(c, v, Owned(c, v, x)) == x <==> !Reissued(c)
  {
    TypedByKey(KeyOf(c, v), x);
    PutConforms(c, v, Some(x));
    var shaped := Shape(c, v, Owned(c, v, x)).body;
    match c
    case HubService => assert shaped.ports[0].protocol != x.body.ports[0].protocol;
    case FrontendService => assert shaped.ports[0].protocol != x.body.ports[0].protocol;
    case WorkerDaemonSet => assert shaped.strategy != x.body.strategy;
    case HubDeployment => assert shaped.template.restartPolicy != x.body.template.restartPolicy;
    case FrontendDeployment => assert shaped.template.restartPolicy == "" && x.body.template.restartPolicy == "Always";
    case LicenseSecret =>
      assert "LICENSE" in x.body.stringData + SecretEntries(v.spec.secret);
      assert "LICENSE" in shaped.stringData;
    case _ =>
  }

  /**
   At rest, a fault-free step sends a write exactly for those six children, and the write leaves the store,
   and so its revision, as it was: nothing wakes the operator again.
   */
  lemma ReissuedWritesAreSilent(s: Store, number: nat, cr: Kubeshark, i: nat)
    requires i < COUNT && AllStored(s.objs)
    requires Settled(PlanFor(cr.ToView()), s.objs) && i < Stop(PlanFor(cr.ToView()), s.objs)
    ensures var x := Lookup(s.objs, KeyAt(i, cr.ToView()));
            && FetchChild(s, number, cr, i, Served).next
               == Some(if Reissued(ORDER[i]) then Writing(cr, i, x) else Advanced(cr, i))
            && WriteChild(s, number, cr, i, x, Served).store == s
            && WriteChild(s, number, cr, i, x, Served).next == Some(Advanced(cr, i))
  {
    hide PlanFor, Put, Shape, FieldBlocks, OwnerBlocks, Foreign, Settled, Stop;
    var v := cr.ToView();
    var k := KeyAt(i, v);
    SettledChild(s.objs, v, i);
    var x := s.objs[k];
    MutateIsShape(ORDER[i], v, x);
    ReissuedIffUnequal(ORDER[i], v, x);
    WriteEffect(s, number, cr, i, Served);
    assert s.objs[k := x] == s.objs;
  }

  lemma SettledChild(objs: map<ObjKey, Object>, v: View, i: nat)
    requires i < COUNT && Settled(PlanFor(v), objs) && i < Stop(PlanFor(v), objs)
    ensures KeyAt(i, v) in objs && objs[KeyAt(i, v)] == Put(ORDER[i], v, Some(objs[KeyAt(i, v)]))
    ensures !Blocked(ORDER[i], v, Some(objs[KeyAt(i, v)]))
  {
    hide Put, Blocked, KeyAt;
    var p := PlanFor(v);
    assert Lookup(objs, p.key(i)) == Some(p.put(i, Lookup(objs, p.key(i))));
    assert !p.blocked(i, Lookup(objs, p.key(i)));
  }
}
