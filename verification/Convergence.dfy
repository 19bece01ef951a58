/** What fault-free and crashed passes amount to: retry, fixed points, independence, the sticky ingress class. */
module Convergence {
  import opened Wrappers
  import opened Api
  import opened Objects
  import opened Names
  import opened Components
  import opened Laws
  import opened KeyedWrites
  import opened Conditions
  import opened Operator
  import opened Passes

  /** No interference; the outcomes of the calls are arbitrary. */
  ghost predicate Calm(script: Script) {
    forall n: nat :: script(n).before == []
  }

  function AllServed(now: nat): Script {
    (n: nat) => Turn([], Served, now)
  }

  function FullPass(sys: System, key: CrKey, now: nat): System {
    Reconcile(sys, key, AllServed(now))
  }

  /** A resource that the component steps run for, with no reconcile in flight. */
  ghost predicate Ready(sys: System, key: CrKey) {
    && key !in sys.passes && key in sys.store.crs
    && !sys.store.crs[key].deleting && AllStored(sys.store.objs)
  }

  ghost predicate Finished(before: Store, after: Store, key: CrKey, cr: Kubeshark, objs0: map<ObjKey, Object>,
          now: nat) {
    && after.objs == KeyedWrites.Result(PlanFor(cr.ToView()), objs0)
    && after.crs == before.crs[key := cr.(status := ReportedStatus(cr, Ending(cr.ToView(), objs0), now))]
    && after.nextUid == before.nextUid
  }

  // ----- Single calls -----

  lemma ServeKeepsRest(s: Store, key: CrKey, p: Pass, cr: Kubeshark, objs0: map<ObjKey, Object>,
          outcome: Outcome, now: nat)
    requires OnTrack(s, p.phase, key, cr, objs0) && !p.phase.Reporting?
    ensures var s' := Serve(s, key, p, outcome, now).store;
            s'.crs == s.crs && s'.nextUid == s.nextUid && s'.revision >= s.revision
            && (s'.objs == s.objs ==> s' == s) && (s'.revision == s.revision ==> s' == s)
  {
    hide FetchChild, WriteChild, At, Put, Blocked, OwnerBlocks;
    AtFacts(cr.ToView(), objs0, p.phase.i, s.objs);
    if p.phase.Fetching? {
      FetchEffect(s, p.number, cr, p.phase.i, outcome);
    } else {
      WriteEffect(s, p.number, cr, p.phase.i, outcome);
    }
  }

  lemma ReportServed(s: Store, key: CrKey, cr: Kubeshark, verdict: Verdict, outcome: Outcome, now: nat)
    requires key in s.crs && s.crs[key] == cr
    ensures var e := Report(s, key, cr, verdict, outcome, now);
            && e.next.None? && e.store.objs == s.objs && e.store.nextUid == s.nextUid
            && (outcome.Refused? ==> e.store == s)
            && (!outcome.Refused? ==> e.store.crs == s.crs[key := cr.(status := ReportedStatus(cr, verdict, now))])
            && e.store.revision >= s.revision
            && (e.store.revision == s.revision ==> e.store == s)
            && (e.store.crs == s.crs ==> e.store == s)
  {
  }

  lemma CalmCall(sys: System, key: CrKey, script: Script, pos: nat)
    requires Calm(script) && Callable(sys, key)
    ensures OneCall(sys, key, script(pos))
            == Stepped(sys, key, Serve(sys.store, key, sys.passes[key], script(pos).outcome, script(pos).now))
  {
    assert Interfere(sys, script(pos).before, key) == sys;
  }

  /** One calm call on a child: the pass stays on track, and only children have changed. */
  ghost predicate ChildCalled(sys: System, sys': System, key: CrKey, cr: Kubeshark, objs0: map<ObjKey, Object>,
          served: bool)
    requires key in sys.passes && (sys.passes[key].phase.Fetching? || sys.passes[key].phase.Writing?)
  {
    && Callable(sys', key) && OnTrack(sys'.store, sys'.passes[key].phase, key, cr, objs0)
    && sys'.store.crs == sys.store.crs && sys'.store.nextUid == sys.store.nextUid
    && sys'.store.revision >= sys.store.revision
    && (sys'.store.objs == sys.store.objs ==> sys'.store == sys.store)
    && (sys'.store.revision == sys.store.revision ==> sys'.store == sys.store)
    && (!sys'.passes[key].phase.Reporting? ==>
          sys.passes[key].phase.i <= sys'.passes[key].phase.i <= sys.passes[key].phase.i + 1)
    && (served && sys'.passes[key].phase.Reporting? ==>
          Stop(PlanFor(cr.ToView()), objs0) <= sys.passes[key].phase.i + 1
          && sys'.passes[key].phase.verdict == Ending(cr.ToView(), objs0)
          && sys'.store.objs == KeyedWrites.Result(PlanFor(cr.ToView()), objs0))
  }

  lemma ChildCall(sys: System, key: CrKey, cr: Kubeshark, objs0: map<ObjKey, Object>, script: Script, pos: nat)
    requires Calm(script)
    requires Callable(sys, key) && OnTrack(sys.store, sys.passes[key].phase, key, cr, objs0)
    requires !sys.passes[key].phase.Reporting?
    ensures ChildCalled(sys, OneCall(sys, key, script(pos)), key, cr, objs0, script(pos).outcome.Served?)
  {
    CalmCall(sys, key, script, pos);
    TrackChild(sys.store, sys.passes[key], key, cr, objs0, script(pos).outcome, script(pos).now);
    ServeKeepsRest(sys.store, key, sys.passes[key], cr, objs0, script(pos).outcome, script(pos).now);
  }

  /** The last call: the status patch, if it is not refused. */
  lemma ReportCall(sys: System, key: CrKey, cr: Kubeshark, script: Script, pos: nat)
    requires Calm(script)
    requires Callable(sys, key) && sys.passes[key].phase.Reporting? && sys.passes[key].phase.cr == cr
    requires key in sys.store.crs && sys.store.crs[key] == cr
    ensures var verdict := sys.passes[key].phase.verdict;
            var sys' := OneCall(sys, key, script(pos));
            var status := if script(pos).outcome.Refused? then cr.status
                          else ReportedStatus(cr, verdict, script(pos).now);
            && key !in sys'.passes && sys'.store.objs == sys.store.objs
            && sys'.store.nextUid == sys.store.nextUid
            && sys'.store.crs == sys.store.crs[key := cr.(status := status)]
            && sys'.store.revision >= sys.store.revision
            && (sys'.store.revision == sys.store.revision ==> sys'.store == sys.store)
            && (sys'.store.crs == sys.store.crs ==> sys'.store == sys.store)
  {
    CalmCall(sys, key, script, pos);
    ReportServed(sys.store, key, cr, sys.passes[key].phase.verdict, script(pos).outcome, script(pos).now);
    assert sys.store.crs[key := cr] == sys.store.crs;
  }

  lemma StartsOnTrack(v: View, objs: map<ObjKey, Object>)
    requires AllStored(objs)
    ensures At(v, objs, 0, objs)
  {
  }

  lemma ReadLive(sys: System, key: CrKey, script: Script)
    requires Calm(script) && Ready(sys, key) && HasFinalizer(sys.store.crs[key])
    ensures var cr := sys.store.crs[key];
            var sys1 := OneCall(Next(sys, Start(key)), key, script(0));
            && sys1.store == sys.store
            && (script(0).outcome.Served? ==>
                  Callable(sys1, key) && sys1.passes[key].phase == Fetching(cr, 0)
                  && OnTrack(sys1.store, sys1.passes[key].phase, key, cr, sys.store.objs))
            && (!script(0).outcome.Served? ==> key !in sys1.passes)
            && sys1.passes - {key} == sys.passes - {key}
  {
    hide OneCall, FetchChild, WriteChild, DeleteCluster, DropFinalizer, Report, PutFinalizer, At;
    var sys0 := Next(sys, Start(key));
    CalmCall(sys0, key, script, 0);
    StartsOnTrack(sys.store.crs[key].ToView(), sys.store.objs);
  }

  // ----- A fault-free pass -----

  lemma {:induction false} DriveFinishes(sys: System, key: CrKey, cr: Kubeshark, objs0: map<ObjKey, Object>,
          now: nat, pos: nat)
    requires Callable(sys, key) && OnTrack(sys.store, sys.passes[key].phase, key, cr, objs0)
    requires sys.passes[key].phase.Reporting? ==>
               sys.passes[key].phase.verdict == Ending(cr.ToView(), objs0)
               && sys.store.objs == KeyedWrites.Result(PlanFor(cr.ToView()), objs0)
    ensures Finished(sys.store, Drive(sys, key, AllServed(now), pos).store, key, cr, objs0, now)
    decreases RankOf(sys, key)
  {
    hide PlanFor, OneCall;
    var sys' := OneCall(sys, key, AllServed(now)(pos));
    OneCallRanksDown(sys, key, AllServed(now)(pos));
    if sys.passes[key].phase.Reporting? {
      ReportCall(sys, key, cr, AllServed(now), pos);
    } else {
      ChildCall(sys, key, cr, objs0, AllServed(now), pos);
      DriveFinishes(sys', key, cr, objs0, now, pos + 1);
    }
  }

  /** A fault-free pass writes the plan's result and reports how far the plan could go. */
  lemma FullPassEffect(sys: System, key: CrKey, now: nat)
    requires Ready(sys, key) && HasFinalizer(sys.store.crs[key])
    ensures Finished(sys.store, FullPass(sys, key, now).store, key, sys.store.crs[key], sys.store.objs, now)
  {
    var sys0 := Next(sys, Start(key));
    ReadLive(sys, key, AllServed(now));
    OneCallRanksDown(sys0, key, AllServed(now)(0));
    DriveFinishes(OneCall(sys0, key, AllServed(now)(0)), key, sys.store.crs[key], sys.store.objs, now, 1);
  }

  lemma FinalizerPassEffect(sys: System, key: CrKey, now: nat)
    requires Ready(sys, key) && !HasFinalizer(sys.store.crs[key])
    ensures var s' := FullPass(sys, key, now).store;
            var cr := sys.store.crs[key];
            && s'.objs == sys.store.objs
            && key in s'.crs && s'.crs == sys.store.crs[key := s'.crs[key]]
            && Updated(cr, s'.crs[key], cr.finalizers + ["kubeshark.opstreelabs.in/finalizer"])
  {
    hide WriteBack;
    var script := AllServed(now);
    var sys0 := Next(sys, Start(key));
    CalmCall(sys0, key, script, 0);
    var sys1 := OneCall(sys0, key, script(0));
    OneCallRanksDown(sys0, key, script(0));
    CalmCall(sys1, key, script, 1);
    var sys2 := OneCall(sys1, key, script(1));
    assert key !in sys2.passes;
    assert Drive(sys1, key, script, 1) == Drive(sys2, key, script, 2) == sys2;
  }

  // ----- Passes cut at any call -----

  ghost predicate Reached(v: View, objs0: map<ObjKey, Object>, objs: map<ObjKey, Object>) {
    exists j: nat :: At(v, objs0, j, objs)
  }

  lemma TrackedReach(s: Store, ph: Phase, key: CrKey, cr: Kubeshark, objs0: map<ObjKey, Object>)
    requires OnTrack(s, ph, key, cr, objs0)
    ensures Reached(cr.ToView(), objs0, s.objs)
  {
    if !ph.Reporting? { assert At(cr.ToView(), objs0, ph.i, s.objs); }
  }

  lemma ReachedAtRest(v: View, objs0: map<ObjKey, Object>, objs: map<ObjKey, Object>)
    requires Reached(v, objs0, objs) && Settled(PlanFor(v), objs0)
    ensures objs == objs0
  {
    var j: nat :| At(v, objs0, j, objs);
    SettledPrefix(PlanFor(v), objs0, j);
  }

  /** The children are some unblocked prefix of the pass; of the resources only this one's status may differ. */
  ghost predicate CutShort(before: Store, after: Store, key: CrKey, cr: Kubeshark, objs0: map<ObjKey, Object>) {
    && Reached(cr.ToView(), objs0, after.objs)
    && key in after.crs && after.crs == before.crs[key := after.crs[key]]
    && after.crs[key].(status := cr.status) == cr
  }

  lemma CutOver(sys: System, key: CrKey, script: Script, pos: nat, n: nat)
    requires key !in sys.passes
    ensures Cut(sys, key, script, pos, n).store == sys.store
  {
  }

  lemma {:induction false} CutFrom(sys: System, key: CrKey, cr: Kubeshark, objs0: map<ObjKey, Object>,
          script: Script, pos: nat, n: nat)
    requires Calm(script)
    requires Callable(sys, key) && OnTrack(sys.store, sys.passes[key].phase, key, cr, objs0)
    ensures CutShort(sys.store, Cut(sys, key, script, pos, n).store, key, cr, objs0)
    decreases n
  {
    hide PlanFor, OneCall, At, Stepped;
    TrackedReach(sys.store, sys.passes[key].phase, key, cr, objs0);
    assert sys.store.crs[key := cr] == sys.store.crs;
    if n > 0 {
      var sys' := OneCall(sys, key, script(pos));
      if sys.passes[key].phase.Reporting? {
        ReportCall(sys, key, cr, script, pos);
        CutOver(sys', key, script, pos + 1, n - 1);
      } else {
        ChildCall(sys, key, cr, objs0, script, pos);
        CutFrom(sys', key, cr, objs0, script, pos + 1, n - 1);
      }
    }
  }

  /** One try: calls with arbitrary outcomes, then the process dies (or the pass is over). */
  datatype Try = Try(script: Script, calls: nat)

  function Attempt(sys: System, key: CrKey, t: Try): System {
    Cut(Next(sys, Start(key)), key, t.script, 0, t.calls)
  }

  /** A failing pass has done an unblocked prefix of its steps in order, and nothing of a later step. */
  lemma AttemptWritesAPrefix(sys: System, key: CrKey, t: Try)
    requires Ready(sys, key) && HasFinalizer(sys.store.crs[key]) && Calm(t.script)
    ensures CutShort(sys.store, Attempt(sys, key, t).store, key, sys.store.crs[key], sys.store.objs)
    ensures key !in Attempt(sys, key, t).passes
  {
    hide PlanFor, OneCall;
    var cr := sys.store.crs[key];
    CutEnds(Next(sys, Start(key)), key, t.script, 0, t.calls);
    assert At(cr.ToView(), sys.store.objs, 0, sys.store.objs);
    assert sys.store.crs == sys.store.crs[key := cr];
    if t.calls > 0 {
      ReadLive(sys, key, t.script);
      if t.script(0).outcome.Served? {
        CutFrom(OneCall(Next(sys, Start(key)), key, t.script(0)), key, cr, sys.store.objs, t.script, 1, t.calls - 1);
      }
    }
  }

  lemma {:induction false} CutEnds(sys: System, key: CrKey, script: Script, pos: nat, n: nat)
    ensures key !in Cut(sys, key, script, pos, n).passes
    decreases n
  {
    hide OneCall;
    if n > 0 && Callable(sys, key) {
      CutEnds(OneCall(sys, key, script(pos)), key, script, pos + 1, n - 1);
    }
  }

  function Attempts(sys: System, key: CrKey, ts: seq<Try>): System
    decreases |ts|
  {
    if ts == [] then sys else Attempts(Attempt(sys, key, ts[0]), key, ts[1..])
  }

  lemma AttemptIsAbsorbed(sys: System, key: CrKey, t: Try)
    requires Ready(sys, key) && HasFinalizer(sys.store.crs[key]) && Calm(t.script)
    ensures var after := Attempt(sys, key, t);
            var p := PlanFor(sys.store.crs[key].ToView());
            && Ready(after, key) && HasFinalizer(after.store.crs[key])
            && after.store.crs[key].ToView() == sys.store.crs[key].ToView()
            && KeyedWrites.Result(p, after.store.objs) == KeyedWrites.Result(p, sys.store.objs)
  {
    AttemptWritesAPrefix(sys, key, t);
    var v := sys.store.crs[key].ToView();
    var objs := Attempt(sys, key, t).store.objs;
    var j: nat :| At(v, sys.store.objs, j, objs);
    AtFacts(v, sys.store.objs, j, objs);
    PlanIsLawful(v);
    ResultAfterCut(PlanFor(v), sys.store.objs, j);
  }

  /** Crashed, refused and half-answered passes leave nothing that the next full pass does not put right. */
  lemma {:induction false} CrashRetry(sys: System, key: CrKey, ts: seq<Try>, now: nat)
    requires Ready(sys, key) && HasFinalizer(sys.store.crs[key])
    requires forall i :: 0 <= i < |ts| ==> Calm(ts[i].script)
    ensures FullPass(Attempts(sys, key, ts), key, now).store.objs == FullPass(sys, key, now).store.objs
    ensures Ready(Attempts(sys, key, ts), key)
    decreases |ts|
  {
    if ts != [] {
      var sys' := Attempt(sys, key, ts[0]);
      AttemptIsAbsorbed(sys, key, ts[0]);
      CrashRetry(sys', key, ts[1..], now);
      FullPassEffect(sys, key, now);
      FullPassEffect(sys', key, now);
    }
  }

  /** Where none of the twelve keys is stored nothing is in the way: a first installation runs through. */
  lemma FirstInstallSucceeds(v: View, objs: map<ObjKey, Object>)
    requires forall i: nat :: i < COUNT ==> KeyAt(i, v) !in objs
    ensures Ending(v, objs) == Reconciled
  {
    var s := Stop(PlanFor(v), objs);
    if s < COUNT { BlankNeverBlocks(ORDER[s], v); }
  }

  // ----- Fixed points -----

  /** A fault-free pass that leaves every child and the status as they are. */
  ghost predicate AtRest(s: Store, key: CrKey) {
    && key in s.crs
    && var cr := s.crs[key];
       && HasFinalizer(cr)
       && Settled(PlanFor(cr.ToView()), s.objs)
       && forall now: nat :: ReportedStatus(cr, Ending(cr.ToView(), s.objs), now) == cr.status
  }

  lemma {:induction false} RestingDrive(sys: System, key: CrKey, cr: Kubeshark, now: nat, pos: nat)
    requires Callable(sys, key) && OnTrack(sys.store, sys.passes[key].phase, key, cr, sys.store.objs)
    requires sys.passes[key].phase.Reporting? ==> sys.passes[key].phase.verdict == Ending(cr.ToView(), sys.store.objs)
    requires AtRest(sys.store, key)
    ensures Drive(sys, key, AllServed(now), pos).store == sys.store
    decreases RankOf(sys, key)
  {
    hide PlanFor, OneCall;
    var objs := sys.store.objs;
    var sys' := OneCall(sys, key, AllServed(now)(pos));
    OneCallRanksDown(sys, key, AllServed(now)(pos));
    if sys.passes[key].phase.Reporting? {
      ReportCall(sys, key, cr, AllServed(now), pos);
      assert sys.store.crs[key := cr] == sys.store.crs;
    } else {
      ChildCall(sys, key, cr, objs, AllServed(now), pos);
      TrackedReach(sys'.store, sys'.passes[key].phase, key, cr, objs);
      ReachedAtRest(cr.ToView(), objs, sys'.store.objs);
      RestingDrive(sys', key, cr, now, pos + 1);
    }
  }

  /** From step n on, no step of the plan changes objs. */
  ghost predicate Unmoved(v: View, objs: map<ObjKey, Object>, n: nat) {
    forall i: nat :: n <= i <= Stop(PlanFor(v), objs) ==> Prefix(PlanFor(v), objs, i) == objs
  }

  lemma UnmovedFrom(s: Store, ph: Phase, key: CrKey, cr: Kubeshark, objs: map<ObjKey, Object>, n: nat)
    requires OnTrack(s, ph, key, cr, objs) && s.objs == objs && !ph.Reporting?
    requires ph.i <= n <= ph.i + 1 && Unmoved(cr.ToView(), objs, n)
    ensures Unmoved(cr.ToView(), objs, ph.i)
  {
    hide PlanFor, OwnerBlocks, KeyAt, InRange, Stop, Prefix;
    assert Prefix(PlanFor(cr.ToView()), objs, ph.i) == objs;
  }

  lemma UnmovedAtStop(v: View, objs: map<ObjKey, Object>, n: nat)
    requires KeyedWrites.Result(PlanFor(v), objs) == objs && Stop(PlanFor(v), objs) <= n
    ensures Unmoved(v, objs, n)
  {
    hide PlanFor;
  }

  /** The converse: if the revision has not moved, every step of the plan found its object as desired. */
  lemma {:induction false} QuietDriveSettles(sys: System, key: CrKey, cr: Kubeshark, now: nat, pos: nat)
    requires Callable(sys, key) && OnTrack(sys.store, sys.passes[key].phase, key, cr, sys.store.objs)
    requires !sys.passes[key].phase.Reporting?
    requires Drive(sys, key, AllServed(now), pos).store.revision == sys.store.revision
    ensures Unmoved(cr.ToView(), sys.store.objs, sys.passes[key].phase.i)
    ensures ReportedStatus(cr, Ending(cr.ToView(), sys.store.objs), now) == cr.status
    decreases RankOf(sys, key)
  {
    hide PlanFor, OneCall, Unmoved, Prefix, Put, Blocked, OwnerBlocks, KeyAt, At, ReportedStatus;
    var objs := sys.store.objs;
    var ph := sys.passes[key].phase;
    var sys' := OneCall(sys, key, AllServed(now)(pos));
    OneCallRanksDown(sys, key, AllServed(now)(pos));
    ChildCall(sys, key, cr, objs, AllServed(now), pos);
    RevisionGrows(sys', key, cr, objs, now, pos + 1);
    assert sys'.store == sys.store;
    if sys'.passes[key].phase.Reporting? {
      QuietReport(sys', key, cr, now, pos + 1);
      UnmovedAtStop(cr.ToView(), objs, ph.i + 1);
      UnmovedFrom(sys.store, ph, key, cr, objs, ph.i + 1);
    } else {
      QuietDriveSettles(sys', key, cr, now, pos + 1);
      UnmovedFrom(sys.store, ph, key, cr, objs, sys'.passes[key].phase.i);
    }
  }

  lemma QuietReport(sys: System, key: CrKey, cr: Kubeshark, now: nat, pos: nat)
    requires Callable(sys, key) && sys.passes[key].phase.Reporting? && sys.passes[key].phase.cr == cr
    requires key in sys.store.crs && sys.store.crs[key] == cr
    requires Drive(sys, key, AllServed(now), pos).store.revision == sys.store.revision
    ensures ReportedStatus(cr, sys.passes[key].phase.verdict, now) == cr.status
  {
    var sys' := OneCall(sys, key, AllServed(now)(pos));
    OneCallRanksDown(sys, key, AllServed(now)(pos));
    ReportCall(sys, key, cr, AllServed(now), pos);
    assert sys'.store.crs[key] == sys.store.crs[key];
  }

  lemma {:induction false} RevisionGrows(sys: System, key: CrKey, cr: Kubeshark, objs0: map<ObjKey, Object>,
          now: nat, pos: nat)
    requires Callable(sys, key) && OnTrack(sys.store, sys.passes[key].phase, key, cr, objs0)
    ensures Drive(sys, key, AllServed(now), pos).store.revision >= sys.store.revision
    decreases RankOf(sys, key)
  {
    hide PlanFor, OneCall;
    var sys' := OneCall(sys, key, AllServed(now)(pos));
    OneCallRanksDown(sys, key, AllServed(now)(pos));
    if sys.passes[key].phase.Reporting? {
      ReportCall(sys, key, cr, AllServed(now), pos);
    } else {
      ChildCall(sys, key, cr, objs0, AllServed(now), pos);
      RevisionGrows(sys', key, cr, objs0, now, pos + 1);
    }
  }

  /** A report that changed nothing now changes nothing at any other time. */
  lemma ReportIsTimeless(cr: Kubeshark, v: Verdict, now: nat, later: nat)
    requires ReportedStatus(cr, v, now) == cr.status
    ensures ReportedStatus(cr, v, later) == cr.status
  {
    var i := FindCondition(cr.status.conditions, READY);
    assert ReportedStatus(cr, v, now).conditions[i] == cr.status.conditions[i];
  }

  lemma QuietPassAtRest(sys: System, key: CrKey, now: nat)
    requires Ready(sys, key) && HasFinalizer(sys.store.crs[key])
    requires FullPass(sys, key, now).store == sys.store
    ensures AtRest(sys.store, key)
  {
    var cr := sys.store.crs[key];
    var v := cr.ToView();
    var p := PlanFor(v);
    var objs := sys.store.objs;
    ReadLive(sys, key, AllServed(now));
    OneCallRanksDown(Next(sys, Start(key)), key, AllServed(now)(0));
    QuietDriveSettles(OneCall(Next(sys, Start(key)), key, AllServed(now)(0)), key, cr, now, 1);
    forall i: nat | i < Stop(p, objs)
      ensures Lookup(objs, p.key(i)) == Some(p.put(i, Lookup(objs, p.key(i))))
    {
      assert Prefix(p, objs, i) == objs && Prefix(p, objs, i + 1) == objs;
    }
    forall later: nat
      ensures ReportedStatus(cr, Ending(v, objs), later) == cr.status
    {
      ReportIsTimeless(cr, Ending(v, objs), now, later);
    }
  }

  lemma RestingPass(sys: System, key: CrKey, now: nat)
    requires Ready(sys, key) && AtRest(sys.store, key)
    ensures FullPass(sys, key, now).store == sys.store
  {
    ReadLive(sys, key, AllServed(now));
    OneCallRanksDown(Next(sys, Start(key)), key, AllServed(now)(0));
    RestingDrive(OneCall(Next(sys, Start(key)), key, AllServed(now)(0)), key, sys.store.crs[key], now, 1);
  }

  /** Exactly when a fault-free reconcile leaves the store, revision included, as it found it. */
  lemma UnchangedIffAtRest(sys: System, key: CrKey, now: nat)
    requires Ready(sys, key)
    ensures FullPass(sys, key, now).store == sys.store <==> AtRest(sys.store, key)
  {
    if !HasFinalizer(sys.store.crs[key]) {
      FinalizerPassEffect(sys, key, now);
      assert HasFinalizer(FullPass(sys, key, now).store.crs[key]);
    } else {
      if FullPass(sys, key, now).store == sys.store { QuietPassAtRest(sys, key, now); }
      if AtRest(sys.store, key) { RestingPass(sys, key, now); }
    }
  }

  lemma EndingStable(v: View, objs: map<ObjKey, Object>)
    requires AllStored(objs)
    ensures var r := KeyedWrites.Result(PlanFor(v), objs);
            AllStored(r) && Ending(v, r) == Ending(v, objs) && Stop(PlanFor(v), r) == Stop(PlanFor(v), objs)
  {
    var p := PlanFor(v);
    var s := Stop(p, objs);
    var r := KeyedWrites.Result(p, objs);
    PlanIsLawful(v);
    StopUnchanged(p, objs, s);
    PrefixStored(v, objs, s);
    assert At(v, objs, s, r);
    if s < COUNT {
      AtFacts(v, objs, s, r);
      EndingAtBlock(v, objs, s, r);
    }
  }

  lemma FullPassEnds(sys: System, key: CrKey, now: nat)
    requires key !in sys.passes
    ensures key !in FullPass(sys, key, now).passes
  {
  }

  /** Up to where passes get, no two steps fight over a Deployment or a Service. */
  predicate Peaceful(v: View, objs: map<ObjKey, Object>) {
    DistinctNames(v, Stop(PlanFor(v), objs))
  }

  predicate SameStep(v: View, w: View, i: nat, x: Option<Object>)
    requires i < COUNT
  {
    KeyAt(i, w) == KeyAt(i, v) && (Blocked(ORDER[i], w, x) <==> Blocked(ORDER[i], v, x))
  }

  lemma WriteBackBlocks(id: CrId, spec: Spec, i: nat, x: Option<Object>)
    requires i < COUNT
    ensures SameStep(View(id, spec), View(id, WriteBack(spec)), i, x)
  {
    hide Typed;
  }

  lemma SameStop(v: View, w: View, objs: map<ObjKey, Object>, i: nat)
    requires i <= COUNT
    requires forall j: nat, x: Option<Object> :: j < COUNT ==> SameStep(v, w, j, x)
    ensures StopFrom(PlanFor(w), objs, i) == StopFrom(PlanFor(v), objs, i)
    decreases COUNT - i
  {
    hide KeyAt, Blocked, Put;
    if i < COUNT {
      assert SameStep(v, w, i, Lookup(objs, KeyAt(i, v)));
      SameStop(v, w, objs, i + 1);
    }
  }

  /** The write-back that adds the finalizer does not move the point where passes stop. */
  lemma WriteBackStops(id: CrId, spec: Spec, objs: map<ObjKey, Object>)
    ensures var v, w := View(id, spec), View(id, WriteBack(spec));
            Stop(PlanFor(w), objs) == Stop(PlanFor(v), objs) && (Peaceful(w, objs) <==> Peaceful(v, objs))
  {
    hide KeyAt, Blocked, PlanFor, SameStep;
    var v, w := View(id, spec), View(id, WriteBack(spec));
    forall j: nat, x: Option<Object> | j < COUNT
      ensures SameStep(v, w, j, x)
    {
      WriteBackBlocks(id, spec, j, x);
    }
    SameStop(v, w, objs, 0);
  }

  lemma FullPassStaysReady(sys: System, key: CrKey, now: nat)
    requires Ready(sys, key)
    ensures var sys' := FullPass(sys, key, now);
            && Ready(sys', key) && HasFinalizer(sys'.store.crs[key])
            && (HasFinalizer(sys.store.crs[key]) ==> sys'.store.crs[key].ToView() == sys.store.crs[key].ToView())
  {
    hide FullPass, PlanFor, KeyedWrites.Result, ReportedStatus;
    FullPassEnds(sys, key, now);
    if HasFinalizer(sys.store.crs[key]) {
      FullPassEffect(sys, key, now);
      EndingStable(sys.store.crs[key].ToView(), sys.store.objs);
    } else {
      FinalizerPassEffect(sys, key, now);
    }
  }

  lemma FullPassStaysPeaceful(sys: System, key: CrKey, now: nat)
    requires Ready(sys, key)
    ensures var s' := FullPass(sys, key, now).store;
            && key in s'.crs
            && (Peaceful(s'.crs[key].ToView(), s'.objs) <==> Peaceful(sys.store.crs[key].ToView(), sys.store.objs))
  {
    hide FullPass, PlanFor, KeyedWrites.Result, ReportedStatus, Stop, WriteBack;
    var cr := sys.store.crs[key];
    FullPassStaysReady(sys, key, now);
    if HasFinalizer(cr) {
      FullPassEffect(sys, key, now);
      EndingStable(cr.ToView(), sys.store.objs);
    } else {
      FinalizerPassEffect(sys, key, now);
      WriteBackStops(cr.id, cr.spec, sys.store.objs);
    }
  }

  /** Where no two steps fight one pass, blocked or not, brings the resource to rest. */
  lemma FullPassRests(sys: System, key: CrKey, now: nat)
    requires Ready(sys, key) && HasFinalizer(sys.store.crs[key])
    requires Peaceful(sys.store.crs[key].ToView(), sys.store.objs)
    ensures AtRest(FullPass(sys, key, now).store, key)
  {
    hide Put, Blocked, KeyAt, Prefix, ReportedStatus;
    var cr := sys.store.crs[key];
    var v := cr.ToView();
    FullPassEffect(sys, key, now);
    var s' := FullPass(sys, key, now).store;
    PlanIsLawful(v);
    DistinctPlanAgrees(v, Stop(PlanFor(v), sys.store.objs));
    ResultSettles(PlanFor(v), sys.store.objs);
    EndingStable(v, sys.store.objs);
    var verdict := Ending(v, sys.store.objs);
    forall later: nat
      ensures ReportedStatus(s'.crs[key], verdict, later) == s'.crs[key].status
    {
      ReportIsStable(cr, verdict, now, later);
    }
  }

  lemma ReportIsStable(cr: Kubeshark, verdict: Verdict, now: nat, later: nat)
    ensures var cr' := cr.(status := ReportedStatus(cr, verdict, now));
            ReportedStatus(cr', verdict, later) == cr'.status
  {
    SetStatusConditionIdempotent(cr.status.conditions, ReadyCondition(verdict, cr.generation, now), later);
  }

  /** How far a live resource is from rest: finalizer missing, then children or status differing. */
  ghost function StepsLeft(s: Store, key: CrKey): nat
    requires key in s.crs
  {
    if !HasFinalizer(s.crs[key]) then 2 else if !AtRest(s, key) then 1 else 0
  }

  /** The self-triggered loop strictly decreases its measure until a pass leaves the store unchanged. */
  lemma Converges(sys: System, key: CrKey, now: nat)
    requires Ready(sys, key) && Peaceful(sys.store.crs[key].ToView(), sys.store.objs)
    ensures var sys' := FullPass(sys, key, now);
            && Ready(sys', key) && Peaceful(sys'.store.crs[key].ToView(), sys'.store.objs)
            && (sys'.store == sys.store <==> StepsLeft(sys.store, key) == 0)
            && (sys'.store != sys.store ==> StepsLeft(sys'.store, key) < StepsLeft(sys.store, key))
  {
    hide FullPass, Peaceful, AtRest;
    UnchangedIffAtRest(sys, key, now);
    FullPassStaysReady(sys, key, now);
    FullPassStaysPeaceful(sys, key, now);
    if HasFinalizer(sys.store.crs[key]) {
      FullPassRests(sys, key, now);
    }
  }

  lemma FightingSteps(v: View, n: nat) returns (i: nat, j: nat)
    requires !DistinctNames(v, n) && n <= COUNT
    ensures i < j < n && KeyAt(i, v) == KeyAt(j, v)
    ensures (ORDER[i] == HubDeployment && ORDER[j] == FrontendDeployment)
            || (ORDER[i] == HubService && ORDER[j] == FrontendService)
  {
    if n > 8 && HubDeploymentName(v) == FrontendDeploymentName(v) {
      i, j := 2, 8;
    } else {
      i, j := 3, 9;
    }
  }

  /** Once both of two fighting steps are reached, there is no rest. */
  lemma FightsNeverRest(s: Store, key: CrKey)
    requires key in s.crs && !Peaceful(s.crs[key].ToView(), s.objs)
    ensures !AtRest(s, key)
  {
    hide Put, KeyAt, Blocked, DistinctNames;
    var v := s.crs[key].ToView();
    var p := PlanFor(v);
    var i, j := FightingSteps(v, Stop(p, s.objs));
    var x := Lookup(s.objs, KeyAt(i, v));
    SharedKeysFight(i, j, v, x);
    SettledAt(p, s.objs, i);
    SettledAt(p, s.objs, j);
  }

  /**
   The loop comes to rest, after one pass over the children, exactly if hub and frontend do not share a Deployment
   or Service name, or the pass is blocked before it reaches the frontend's step on the shared name.
   */
  lemma RestsExactly(sys: System, key: CrKey, now: nat)
    requires Ready(sys, key) && HasFinalizer(sys.store.crs[key])
    ensures AtRest(FullPass(sys, key, now).store, key)
            <==> Peaceful(sys.store.crs[key].ToView(), sys.store.objs)
  {
    hide FullPass, Peaceful, AtRest;
    FullPassStaysPeaceful(sys, key, now);
    if Peaceful(sys.store.crs[key].ToView(), sys.store.objs) {
      FullPassRests(sys, key, now);
    } else {
      FightsNeverRest(FullPass(sys, key, now).store, key);
    }
  }

  // ----- Two resources -----

  lemma FullPassFrame(sys: System, key: CrKey, other: CrKey, now: nat)
    requires Ready(sys, key) && HasFinalizer(sys.store.crs[key])
    requires Ready(sys, other) && HasFinalizer(sys.store.crs[other])
    requires key != other
    requires DisjointKeys(sys.store.crs[key].ToView(), sys.store.crs[other].ToView())
    ensures var s' := FullPass(sys, key, now).store;
            && (forall i: nat :: i < COUNT ==>
                  var k := KeyAt(i, sys.store.crs[other].ToView()); Lookup(s'.objs, k) == Lookup(sys.store.objs, k))
            && Lookup(s'.crs, other) == Lookup(sys.store.crs, other)
  {
    var v, w := sys.store.crs[key].ToView(), sys.store.crs[other].ToView();
    FullPassEffect(sys, key, now);
    forall i: nat | i < COUNT
      ensures Lookup(FullPass(sys, key, now).store.objs, KeyAt(i, w)) == Lookup(sys.store.objs, KeyAt(i, w))
    {
      PrefixFrame(PlanFor(v), sys.store.objs, Stop(PlanFor(v), sys.store.objs), KeyAt(i, w));
    }
  }

  lemma EndingOfDisjoint(v: View, w: View, objs: map<ObjKey, Object>)
    requires AllStored(objs) && DisjointKeys(v, w)
    ensures Ending(w, KeyedWrites.Result(PlanFor(v), objs)) == Ending(w, objs)
  {
    hide PlanFor, KeyAt, KeyedWrites.Result, DisjointKeys, Ending, Stop;
    var p, q := PlanFor(v), PlanFor(w);
    PlansDisjoint(v, w);
    DisjointStop(p, q, objs);
    if Stop(q, objs) < COUNT { SameAfterDisjoint(v, w, objs, Stop(q, objs)); }
    SameEndingAt(w, KeyedWrites.Result(p, objs), objs);
  }

  lemma SameAfterDisjoint(v: View, w: View, objs: map<ObjKey, Object>, i: nat)
    requires DisjointKeys(v, w) && i < COUNT
    ensures Lookup(KeyedWrites.Result(PlanFor(v), objs), KeyAt(i, w)) == Lookup(objs, KeyAt(i, w))
  {
    hide KeyAt, Blocked, Put;
    PrefixFrame(PlanFor(v), objs, Stop(PlanFor(v), objs), KeyAt(i, w));
  }

  lemma TwoPasses(sys: System, a: CrKey, b: CrKey, now: nat, later: nat)
    requires Ready(sys, a) && HasFinalizer(sys.store.crs[a])
    requires Ready(sys, b) && HasFinalizer(sys.store.crs[b])
    requires a != b && DisjointKeys(sys.store.crs[a].ToView(), sys.store.crs[b].ToView())
    ensures var s := FullPass(FullPass(sys, a, now), b, later).store;
            var x, y := sys.store.crs[a], sys.store.crs[b];
            && s.objs == KeyedWrites.Result(PlanFor(y.ToView()), KeyedWrites.Result(PlanFor(x.ToView()),
                sys.store.objs))
            && s.crs == sys.store.crs[a := x.(status := ReportedStatus(x, Ending(x.ToView(), sys.store.objs), now))]
                                     [b := y.(status := ReportedStatus(y, Ending(y.ToView(), sys.store.objs), later))]
  {
    FullPassEffect(sys, a, now);
    var sys' := FullPass(sys, a, now);
    EndingStable(sys.store.crs[a].ToView(), sys.store.objs);
    DriveOthers(Next(sys, Start(a)), a, b, now, 0);
    FullPassEffect(sys', b, later);
    EndingOfDisjoint(sys.store.crs[a].ToView(), sys.store.crs[b].ToView(), sys.store.objs);
  }

  lemma {:induction false} DriveOthers(sys: System, key: CrKey, other: CrKey, now: nat, pos: nat)
    requires key != other
    ensures other in Drive(sys, key, AllServed(now), pos).passes <==> other in sys.passes
    decreases RankOf(sys, key)
  {
    if Callable(sys, key) {
      OneCallRanksDown(sys, key, AllServed(now)(pos));
      CalmCall(sys, key, AllServed(now), pos);
      DriveOthers(OneCall(sys, key, AllServed(now)(pos)), key, other, now, pos + 1);
    }
  }

  /** Fault-free passes of two resources with disjoint children commute. */
  lemma PassesCommute(sys: System, a: CrKey, b: CrKey, now: nat, later: nat)
    requires Ready(sys, a) && HasFinalizer(sys.store.crs[a])
    requires Ready(sys, b) && HasFinalizer(sys.store.crs[b])
    requires a != b && DisjointKeys(sys.store.crs[a].ToView(), sys.store.crs[b].ToView())
    ensures var s := FullPass(FullPass(sys, a, now), b, later).store;
            var t := FullPass(FullPass(sys, b, later), a, now).store;
            s.objs == t.objs && s.crs == t.crs
  {
    hide PlanFor, FullPass, KeyedWrites.Result, ReportedStatus, Ending;
    var v, w := sys.store.crs[a].ToView(), sys.store.crs[b].ToView();
    assert DisjointKeys(w, v);
    TwoPasses(sys, a, b, now, later);
    TwoPasses(sys, b, a, later, now);
    PlanIsLawful(v);
    PlanIsLawful(w);
    PlansDisjoint(v, w);
    DisjointResultsCommute(PlanFor(v), PlanFor(w), sys.store.objs);
    UpdatesCommute(sys.store.crs, a, FullPass(FullPass(sys, a, now), b, later).store.crs[a],
                   b, FullPass(FullPass(sys, a, now), b, later).store.crs[b]);
  }

  lemma UpdatesCommute<K, V>(m: map<K, V>, a: K, x: V, b: K, y: V)
    requires a != b
    ensures m[a := x][b := y] == m[b := y][a := x]
  {
  }

  lemma PlansDisjoint(v: View, w: View)
    requires DisjointKeys(v, w)
    ensures Disjoint(PlanFor(v), PlanFor(w))
  {
  }

  // ----- The ingress class over a history of specs -----

  /** The last non-empty class asked for, or what was there before. */
  function LastClass(before: Option<string>, specs: seq<Spec>): Option<string> {
    if specs == [] then before
    else if specs[|specs| - 1].ingressClassName != "" then Some(specs[|specs| - 1].ingressClassName)
    else LastClass(before, specs[..|specs| - 1])
  }

  /** Each spec in turn is stored and reconciled by a fault-free pass. */
  function History(sys: System, key: CrKey, specs: seq<Spec>, now: nat): System {
    if specs == [] then sys
    else
      var before := History(sys, key, specs[..|specs| - 1], now);
      FullPass(Next(before, Outside(EditSpec(key, specs[|specs| - 1]))), key, now)
  }

  ghost predicate AllSucceed(sys: System, key: CrKey, id: CrId, specs: seq<Spec>, now: nat) {
    forall n :: 0 <= n < |specs| ==>
      Ending(View(id, specs[n]), History(sys, key, specs[..n], now).store.objs).Reconciled?
  }

  function ClassAt(objs: map<ObjKey, Object>, k: ObjKey): Option<string> {
    if k in objs && objs[k].body.Ingress? then objs[k].body.className else None
  }

  lemma OneStepWritesTheIngress(v: View)
    ensures LastAt(PlanFor(v), KeyOf(FrontendIngress, v), COUNT) == 10
  {
    var p := PlanFor(v);
    assert p.key(10) == KeyOf(FrontendIngress, v);
    assert p.key(11) == KeyOf(LicenseSecret, v);
  }

  lemma ClassOfPut(v: View, x: Option<Object>)
    requires x.Some? ==> Stored(KeyOf(FrontendIngress, v), x.value)
    ensures var o := Put(FrontendIngress, v, x);
            && o.body.Ingress?
            && o.body.className == if v.spec.ingressClassName != "" then Some(v.spec.ingressClassName)
                                   else if x.Some? && x.value.body.Ingress? then x.value.body.className else None
  {
    PutConforms(FrontendIngress, v, x);
    if x.Some? {
      PutPreserves(FrontendIngress, v, x.value);
      TypedByKey(KeyOf(FrontendIngress, v), x.value);
    }
  }

  lemma IngressAfterPass(v: View, objs: map<ObjKey, Object>)
    requires AllStored(objs) && Ending(v, objs).Reconciled?
    ensures var k := KeyOf(FrontendIngress, v);
            ClassAt(KeyedWrites.Result(PlanFor(v), objs), k) ==
            if v.spec.ingressClassName != "" then Some(v.spec.ingressClassName) else ClassAt(objs, k)
  {
    hide Put, Blocked, LastAt, Prefix;
    var k := KeyOf(FrontendIngress, v);
    PlanIsLawful(v);
    PrefixAt(PlanFor(v), objs, COUNT, k);
    OneStepWritesTheIngress(v);
    assert Lookup(KeyedWrites.Result(PlanFor(v), objs), k) == Some(Put(FrontendIngress, v, Lookup(objs, k)));
    ClassOfPut(v, Lookup(objs, k));
  }

  lemma EditKeepsReady(sys: System, key: CrKey, spec: Spec)
    requires Ready(sys, key) && HasFinalizer(sys.store.crs[key])
    ensures var sys' := Next(sys, Outside(EditSpec(key, spec)));
            && Ready(sys', key) && HasFinalizer(sys'.store.crs[key])
            && sys'.store.objs == sys.store.objs
            && sys'.store.crs[key].ToView() == View(sys.store.crs[key].id, spec)
  {
  }

  /** The ingress class sticks: over successful passes it is the last non-empty class any spec asked for. */
  lemma {:induction false} StickyIngressClass(sys: System, key: CrKey, specs: seq<Spec>, now: nat, k: ObjKey)
    requires Ready(sys, key) && HasFinalizer(sys.store.crs[key])
    requires forall s <- specs :: KeyOf(FrontendIngress, View(sys.store.crs[key].id, s)) == k
    requires AllSucceed(sys, key, sys.store.crs[key].id, specs, now)
    ensures var sys' := History(sys, key, specs, now);
            && Ready(sys', key) && HasFinalizer(sys'.store.crs[key])
            && sys'.store.crs[key].id == sys.store.crs[key].id
            && ClassAt(sys'.store.objs, k) == LastClass(ClassAt(sys.store.objs, k), specs)
    decreases |specs|
  {
    hide FullPass, PlanFor, KeyedWrites.Result, ReportedStatus, ClassAt, Ending, Next, KeyOf;
    if specs != [] {
      var id := sys.store.crs[key].id;
      var init, last := specs[..|specs| - 1], specs[|specs| - 1];
      forall n | 0 <= n < |init|
        ensures Ending(View(id, init[n]), History(sys, key, init[..n], now).store.objs).Reconciled?
      {
        assert init[..n] == specs[..n];
      }
      StickyIngressClass(sys, key, init, now, k);
      var before := History(sys, key, init, now);
      EditKeepsReady(before, key, last);
      var edited := Next(before, Outside(EditSpec(key, last)));
      FullPassStaysReady(edited, key, now);
      FullPassEffect(edited, key, now);
      IngressAfterPass(View(id, last), before.store.objs);
    }
  }

  // ----- The deletion pass -----

  /** A fault-free deletion pass removes the two cluster objects its read names and releases the resource, no more. */
  lemma DeletionPassEffect(sys: System, key: CrKey, now: nat)
    requires key !in sys.passes && key in sys.store.crs
    requires sys.store.crs[key].deleting && HasFinalizer(sys.store.crs[key])
    ensures var cr := sys.store.crs[key];
            var default := cr.id.key.ns + "-" + cr.id.key.name + "-kubeshark";
            var role := if cr.spec.clusterRoleName != "" then cr.spec.clusterRoleName else default;
            var binding := if cr.spec.clusterRoleBindingName != "" then cr.spec.clusterRoleBindingName else default;
            var s' := FullPass(sys, key, now).store;
            var left := Without(cr.finalizers, "kubeshark.opstreelabs.in/finalizer");
            && s'.objs == sys.store.objs
                          - {ObjKey(KClusterRole, "", role), ObjKey(KClusterRoleBinding, "", binding)}
            && (if left == [] then s'.crs == sys.store.crs - {key}
                else && key in s'.crs && s'.crs == sys.store.crs[key := s'.crs[key]]
                     && Updated(cr, s'.crs[key], left))
  {
    hide KeyOf, WriteBack, Without;
    var script := AllServed(now);
    var cr := sys.store.crs[key];
    KeysOfPass(OperatorRole, cr.ToView());
    KeysOfPass(OperatorBinding, cr.ToView());
    var s0 := Next(sys, Start(key));
    var s1 := OneCall(s0, key, script(0));
    CalmCall(s0, key, script, 0);
    assert s1.store == sys.store && Callable(s1, key) && s1.passes[key].phase == Deleting(cr, 0);
    DeletionCalls(s1, key, cr, now);
    OneCallRanksDown(s0, key, script(0));
  }

  lemma DeletionCalls(sys: System, key: CrKey, cr: Kubeshark, now: nat)
    requires Callable(sys, key) && sys.passes[key].phase == Deleting(cr, 0)
    requires key in sys.store.crs && sys.store.crs[key] == cr
    ensures var v := cr.ToView();
            var s' := Drive(sys, key, AllServed(now), 1).store;
            var left := Without(cr.finalizers, FINALIZER);
            && s'.objs == sys.store.objs - {KeyOf(OperatorRole, v), KeyOf(OperatorBinding, v)}
            && s'.crs == if left == [] then sys.store.crs - {key}
                         else sys.store.crs[key := Rewritten(cr.(finalizers := left))]
  {
    hide KeyOf, Rewritten, Without, FetchChild, WriteChild, Report, PutFinalizer, ReadCr, OneCall, Interfere, Perturb;
    var script := AllServed(now);
    var v := cr.ToView();
    var s2 := OneCall(sys, key, script(1));
    CalmCall(sys, key, script, 1);
    assert s2.store.crs == sys.store.crs && s2.store.objs == sys.store.objs - {KeyOf(OperatorRole, v)};
    assert Callable(s2, key) && s2.passes[key].phase == Deleting(cr, 1);
    LastDeletionCalls(s2, key, cr, now);
    OneCallRanksDown(sys, key, script(1));
    assert sys.store.objs - {KeyOf(OperatorRole, v)} - {KeyOf(OperatorBinding, v)}
        == sys.store.objs - {KeyOf(OperatorRole, v), KeyOf(OperatorBinding, v)};
  }

  lemma LastDeletionCalls(sys: System, key: CrKey, cr: Kubeshark, now: nat)
    requires Callable(sys, key) && sys.passes[key].phase == Deleting(cr, 1)
    requires key in sys.store.crs && sys.store.crs[key] == cr
    ensures var s' := Drive(sys, key, AllServed(now), 2).store;
            var left := Without(cr.finalizers, FINALIZER);
            && s'.objs == sys.store.objs - {KeyOf(OperatorBinding, cr.ToView())}
            && s'.crs == if left == [] then sys.store.crs - {key}
                         else sys.store.crs[key := Rewritten(cr.(finalizers := left))]
  {
    hide KeyOf, WriteBack, Without;
    var script := AllServed(now);
    var s3 := OneCall(sys, key, script(2));
    CalmCall(sys, key, script, 2);
    OneCallRanksDown(sys, key, script(2));
    assert Callable(s3, key) && s3.passes[key].phase == DroppingFinalizer(cr);
    assert s3.store.crs == sys.store.crs;
    var s4 := OneCall(s3, key, script(3));
    CalmCall(s3, key, script, 3);
    OneCallRanksDown(s3, key, script(3));
    assert key !in s4.passes;
    assert Drive(s4, key, script, 4) == s4;
    assert Drive(s3, key, script, 3) == s4;
    assert Drive(sys, key, script, 2) == s4;
    assert s3.store.objs == sys.store.objs - {KeyOf(OperatorBinding, cr.ToView())};
  }

  /** A successful pass under one spec, an edit, a deletion request and a fault-free deletion pass. */
  function Renamed(sys: System, key: CrKey, spec: Spec, now: nat): System {
    var managed := FullPass(sys, key, now);
    var edited := Next(managed, Outside(EditSpec(key, spec)));
    FullPass(Next(edited, Outside(RequestDelete(key))), key, now)
  }

  lemma RoleIsWritten(v: View, objs: map<ObjKey, Object>)
    requires AllStored(objs) && Ending(v, objs).Reconciled?
    ensures KeyOf(OperatorRole, v) in KeyedWrites.Result(PlanFor(v), objs)
  {
    hide Put, Blocked, LastAt, Prefix;
    var p := PlanFor(v);
    PlanIsLawful(v);
    assert p.key(5) == KeyOf(OperatorRole, v);
    PrefixAt(p, objs, COUNT, KeyOf(OperatorRole, v));
  }

  lemma DeletionRequested(sys: System, key: CrKey, spec: Spec)
    requires key in sys.store.crs && key !in sys.passes && sys.store.crs[key].finalizers == [FINALIZER]
    requires !sys.store.crs[key].deleting
    ensures var sys' := Next(Next(sys, Outside(EditSpec(key, spec))), Outside(RequestDelete(key)));
            && key !in sys'.passes && sys'.store.objs == sys.store.objs && key in sys'.store.crs
            && sys'.store.crs[key].deleting && sys'.store.crs[key].finalizers == [FINALIZER]
            && sys'.store.crs[key].ToView() == View(sys.store.crs[key].id, spec)
  {
  }

  /**
   Why the cleanup theorem speaks of the names computed at the deletion read: after a rename the resource is gone
   and its first role is not.
   */
  lemma RenamedRoleIsLeftBehind(sys: System, key: CrKey, spec: Spec, now: nat)
    requires Ready(sys, key) && sys.store.crs[key].finalizers == [FINALIZER]
    requires Ending(sys.store.crs[key].ToView(), sys.store.objs).Reconciled?
    requires ClusterRoleName(View(sys.store.crs[key].id, spec)) != ClusterRoleName(sys.store.crs[key].ToView())
    ensures var sys' := Renamed(sys, key, spec, now);
            key !in sys'.store.crs && KeyOf(OperatorRole, sys.store.crs[key].ToView()) in sys'.store.objs
  {
    hide FullPass, PlanFor, KeyedWrites.Result, ReportedStatus, Ending, Next, Without;
    var cr := sys.store.crs[key];
    var managed := FullPass(sys, key, now);
    FullPassEffect(sys, key, now);
    FullPassStaysReady(sys, key, now);
    RoleIsWritten(cr.ToView(), sys.store.objs);
    DeletionRequested(managed, key, spec);
    DeletionPassEffect(Next(Next(managed, Outside(EditSpec(key, spec))), Outside(RequestDelete(key))), key, now);
    OnlyFinalizer();
  }

  lemma OnlyFinalizer()
    ensures Without([FINALIZER], FINALIZER) == []
  {
    assert Without([FINALIZER], FINALIZER) == Without([], FINALIZER);
  }
}
