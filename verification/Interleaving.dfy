/** Two reconciles in flight at once, call by call, over disjoint children. */
module Interleaving {
  import opened Wrappers
  import opened Api
  import opened Objects
  import opened Components
  import opened Laws
  import opened KeyedWrites
  import opened Conditions
  import opened Operator
  import opened Passes
  import opened Convergence

  /** One of the two reconciles: its resource as stored at the start, and its clock. */
  datatype Side = Side(cr: Kubeshark, now: nat) {
    function Key(): CrKey { cr.id.key }
    function P(): Plan<ObjKey, Object> { PlanFor(cr.ToView()) }
    function Final(objs0: map<ObjKey, Object>): Kubeshark {
      cr.(status := ReportedStatus(cr, Ending(cr.ToView(), objs0), now))
    }
  }

  /** Where a side stands after i of its steps. */
  predicate Stands(sys: System, a: Side, objs0: map<ObjKey, Object>, i: nat) {
    && a.Key() in sys.store.crs && i <= Stop(a.P(), objs0)
    && if a.Key() !in sys.passes
       then i == Stop(a.P(), objs0) && sys.store.crs[a.Key()] == a.Final(objs0)
       else
         && sys.store.crs[a.Key()] == a.cr
         && InRange(sys.passes[a.Key()].phase)
         && match sys.passes[a.Key()].phase
            case Reading => i == 0
            case Fetching(c, n) => c == a.cr && n == i
            case Writing(c, n, seen) =>
              && c == a.cr && n == i && seen == Lookup(sys.store.objs, KeyAt(i, a.cr.ToView()))
              && !OwnerBlocks(ORDER[i], a.cr.ToView(), seen)
            case Reporting(c, verdict) =>
              c == a.cr && i == Stop(a.P(), objs0) && verdict == Ending(a.cr.ToView(), objs0)
            case _ => false
  }

  ghost predicate Apart(a: Side, b: Side) {
    && a.Key() != b.Key() && DisjointKeys(a.cr.ToView(), b.cr.ToView()) && DisjointKeys(b.cr.ToView(), a.cr.ToView())
    && !a.cr.deleting && HasFinalizer(a.cr) && !b.cr.deleting && HasFinalizer(b.cr)
  }

  /** Both sides part way: the children are i steps of the one and j of the other, in no matter which order. */
  ghost predicate Woven(sys: System, base: Store, a: Side, b: Side, i: nat, j: nat) {
    && AllStored(base.objs)
    && Stands(sys, a, base.objs, i) && Stands(sys, b, base.objs, j)
    && sys.store.objs == Prefix(b.P(), Prefix(a.P(), base.objs, i), j)
    && sys.store.crs - {a.Key(), b.Key()} == base.crs - {a.Key(), b.Key()}
  }

  lemma PlansApart(a: Side, b: Side)
    requires Apart(a, b)
    ensures Lawful(a.P()) && Lawful(b.P()) && Disjoint(a.P(), b.P()) && Disjoint(b.P(), a.P())
    ensures a.P().count == COUNT == b.P().count
  {
    PlanIsLawful(a.cr.ToView());
    PlanIsLawful(b.cr.ToView());
    PlansDisjoint(a.cr.ToView(), b.cr.ToView());
    PlansDisjoint(b.cr.ToView(), a.cr.ToView());
  }

  lemma WovenBack(sys: System, base: Store, a: Side, b: Side, i: nat, j: nat)
    requires Apart(a, b) && Woven(sys, base, a, b, i, j)
    ensures Woven(sys, base, b, a, j, i)
  {
    hide Stands, Lawful, Disjoint, PlanFor;
    PlansApart(a, b);
    StandsWithin(sys, a, base.objs, i);
    StandsWithin(sys, b, base.objs, j);
    PrefixesCommute(a.P(), b.P(), base.objs, i, j);
    assert {a.Key(), b.Key()} == {b.Key(), a.Key()};
  }

  lemma StandsWithin(sys: System, a: Side, objs0: map<ObjKey, Object>, i: nat)
    requires Stands(sys, a, objs0, i)
    ensures i <= Stop(a.P(), objs0) <= a.P().count == COUNT
  {
  }

  /** What the other side has done is, for this side, a store to start from where it ends the same. */
  lemma SameEnding(a: Side, b: Side, objs: map<ObjKey, Object>, j: nat)
    requires Apart(a, b) && AllStored(objs) && j <= COUNT
    ensures var m := Prefix(b.P(), objs, j);
            && AllStored(m) && Stop(a.P(), m) == Stop(a.P(), objs)
            && Ending(a.cr.ToView(), m) == Ending(a.cr.ToView(), objs)
  {
    hide Lawful, Disjoint, PlanFor, KeyAt, Stop, Ending, Prefix;
    PlansApart(a, b);
    PrefixStored(b.cr.ToView(), objs, j);
    StopBeside(b.P(), a.P(), objs, j);
    if Stop(a.P(), objs) < COUNT { BesideAt(a, b, objs, j, Stop(a.P(), objs)); }
    SameEndingAt(a.cr.ToView(), Prefix(b.P(), objs, j), objs);
  }

  lemma BesideAt(a: Side, b: Side, objs: map<ObjKey, Object>, j: nat, i: nat)
    requires Apart(a, b) && i < COUNT && j <= COUNT
    ensures Lookup(Prefix(b.P(), objs, j), KeyAt(i, a.cr.ToView())) == Lookup(objs, KeyAt(i, a.cr.ToView()))
  {
    hide Blocked, Put, KeyAt;
    PrefixFrame(b.P(), objs, j, KeyAt(i, a.cr.ToView()));
  }

  // ----- One call of one side -----

  lemma ReadStep(sys: System, base: Store, a: Side, b: Side, i: nat, j: nat)
    requires Apart(a, b) && Woven(sys, base, a, b, i, j)
    requires a.Key() in sys.passes && sys.passes[a.Key()].phase.Reading?
    ensures Woven(Next(sys, Call(a.Key(), Served, a.now)), base, a, b, i, j)
  {
    hide Blocked, Put, KeyAt, PlanFor, Prefix, Ending, Stop;
  }

  lemma ReportStep(sys: System, base: Store, a: Side, b: Side, i: nat, j: nat)
    requires Apart(a, b) && Woven(sys, base, a, b, i, j)
    requires a.Key() in sys.passes && sys.passes[a.Key()].phase.Reporting?
    ensures Woven(Next(sys, Call(a.Key(), Served, a.now)), base, a, b, i, j)
  {
    hide Blocked, Put, KeyAt, PlanFor, Prefix, Ending, Stop, ReportedStatus, Report;
    ReportServed(sys.store, a.Key(), a.cr, sys.passes[a.Key()].phase.verdict, Served, a.now);
  }

  /** The steps of a side after its call, read off its phase. */
  function StepsAt(sys: System, a: Side, objs0: map<ObjKey, Object>): nat {
    if a.Key() in sys.passes && (sys.passes[a.Key()].phase.Fetching? || sys.passes[a.Key()].phase.Writing?)
    then sys.passes[a.Key()].phase.i else Stop(a.P(), objs0)
  }

  lemma OwnStep(sys: System, base: Store, a: Side, b: Side, i: nat, j: nat)
    requires Apart(a, b) && Woven(sys, base, a, b, i, j)
    requires a.Key() in sys.passes && (sys.passes[a.Key()].phase.Fetching? || sys.passes[a.Key()].phase.Writing?)
    ensures var sys' := Next(sys, Call(a.Key(), Served, a.now));
            var i' := StepsAt(sys', a, base.objs);
            && Stands(sys', a, base.objs, i') && i' <= COUNT
            && sys'.store.objs == Prefix(a.P(), Prefix(b.P(), base.objs, j), i')
            && sys'.store.crs == sys.store.crs && sys'.passes - {a.Key()} == sys.passes - {a.Key()}
  {
    hide PlanFor, Put, Blocked, Prefix, Ending, Stop, FetchChild, WriteChild, StepError, OwnerBlocks, KeyAt;
    var key, p := a.Key(), sys.passes[a.Key()];
    var m := Prefix(b.P(), base.objs, j);
    StandsWithin(sys, a, base.objs, i);
    StandsWithin(sys, b, base.objs, j);
    SameEnding(a, b, base.objs, j);
    WovenBack(sys, base, a, b, i, j);
    assert At(a.cr.ToView(), m, i, sys.store.objs);
    assert OnTrack(sys.store, p.phase, key, a.cr, m);
    TrackChild(sys.store, p, key, a.cr, m, Served, a.now);
    ServeKeepsRest(sys.store, key, p, a.cr, m, Served, a.now);
  }

  lemma ChildStep(sys: System, base: Store, a: Side, b: Side, i: nat, j: nat)
    requires Apart(a, b) && Woven(sys, base, a, b, i, j)
    requires a.Key() in sys.passes && (sys.passes[a.Key()].phase.Fetching? || sys.passes[a.Key()].phase.Writing?)
    ensures var sys' := Next(sys, Call(a.Key(), Served, a.now));
            Woven(sys', base, a, b, StepsAt(sys', a, base.objs), j)
  {
    hide PlanFor, Prefix, Next, Stands, Stop, Lawful, Disjoint;
    var sys' := Next(sys, Call(a.Key(), Served, a.now));
    var i' := StepsAt(sys', a, base.objs);
    OwnStep(sys, base, a, b, i, j);
    StandsWithin(sys, b, base.objs, j);
    PlansApart(a, b);
    PrefixesCommute(a.P(), b.P(), base.objs, i', j);
    OtherStands(sys, sys', base, a, b, i, i', j);
  }

  lemma OtherStands(sys: System, sys': System, base: Store, a: Side, b: Side, i: nat, i': nat, j: nat)
    requires Apart(a, b) && Woven(sys, base, a, b, i, j) && i' <= COUNT
    requires sys'.store.objs == Prefix(b.P(), Prefix(a.P(), base.objs, i'), j)
    requires sys'.store.crs == sys.store.crs && sys'.passes - {a.Key()} == sys.passes - {a.Key()}
    ensures Stands(sys', b, base.objs, j)
  {
    hide PlanFor, Prefix, Stop, Ending, KeyAt, OwnerBlocks, Lawful, Disjoint;
    StandsWithin(sys, a, base.objs, i);
    StandsWithin(sys, b, base.objs, j);
    PlansApart(a, b);
    assert b.Key() in sys'.passes <==> b.Key() in sys'.passes - {a.Key()};
    assert b.Key() in sys.passes <==> b.Key() in sys.passes - {a.Key()};
    if b.Key() in sys.passes {
      assert (sys'.passes - {a.Key()})[b.Key()] == (sys.passes - {a.Key()})[b.Key()];
      if sys.passes[b.Key()].phase.Writing? {
        PrefixesCommute(a.P(), b.P(), base.objs, i, j);
        PrefixesCommute(a.P(), b.P(), base.objs, i', j);
        BesideAt(b, a, Prefix(b.P(), base.objs, j), i, j);
        BesideAt(b, a, Prefix(b.P(), base.objs, j), i', j);
      }
    }
  }

  lemma SideStep(sys: System, base: Store, a: Side, b: Side, i: nat, j: nat) returns (i': nat)
    requires Apart(a, b) && Woven(sys, base, a, b, i, j)
    ensures Woven(Next(sys, Call(a.Key(), Served, a.now)), base, a, b, i', j)
  {
    hide Woven, Serve;
    i' := i;
    if a.Key() in sys.passes {
      InFlight(sys, base, a, b, i, j);
      match sys.passes[a.Key()].phase {
        case Reading => ReadStep(sys, base, a, b, i, j);
        case Reporting(_, _) => ReportStep(sys, base, a, b, i, j);
        case _ =>
          ChildStep(sys, base, a, b, i, j);
          i' := StepsAt(Next(sys, Call(a.Key(), Served, a.now)), a, base.objs);
      }
    }
  }

  lemma InFlight(sys: System, base: Store, a: Side, b: Side, i: nat, j: nat)
    requires Woven(sys, base, a, b, i, j) && a.Key() in sys.passes
    ensures var ph := sys.passes[a.Key()].phase; ph.Reading? || ph.Fetching? || ph.Writing? || ph.Reporting?
  {
    hide PlanFor, Prefix, Stop, Ending, KeyAt, OwnerBlocks;
  }

  // ----- Any interleaving -----

  /** Fault-free calls of the two, in any order. */
  predicate CallsOf(evs: seq<Event>, a: Side, b: Side) {
    forall n :: 0 <= n < |evs| ==> evs[n] == Call(a.Key(), Served, a.now) || evs[n] == Call(b.Key(), Served, b.now)
  }

  lemma {:induction false} RunsWoven(sys: System, base: Store, a: Side, b: Side, evs: seq<Event>)
    returns (i: nat, j: nat)
    requires Apart(a, b) && Woven(sys, base, a, b, 0, 0) && CallsOf(evs, a, b)
    ensures Woven(Run(sys, evs), base, a, b, i, j)
    decreases |evs|
  {
    hide Woven, Next, Apart;
    if evs == [] {
      i, j := 0, 0;
    } else {
      var init := evs[..|evs| - 1];
      i, j := RunsWoven(sys, base, a, b, init);
      var before := Run(sys, init);
      if evs[|evs| - 1] == Call(a.Key(), Served, a.now) {
        i := SideStep(before, base, a, b, i, j);
      } else {
        WovenBack(before, base, a, b, i, j);
        ApartBack(a, b);
        j := SideStep(before, base, b, a, j, i);
        WovenBack(Next(before, evs[|evs| - 1]), base, b, a, j, i);
      }
    }
  }

  lemma ApartBack(a: Side, b: Side)
    requires Apart(a, b)
    ensures Apart(b, a)
  {
  }

  function BothStarted(sys: System, a: CrKey, b: CrKey): System {
    Next(Next(sys, Start(a)), Start(b))
  }

  lemma StartsWoven(sys: System, a: Side, b: Side)
    requires Ready(sys, a.Key()) && sys.store.crs[a.Key()] == a.cr
    requires Ready(sys, b.Key()) && sys.store.crs[b.Key()] == b.cr
    requires a.Key() != b.Key()
    ensures Woven(BothStarted(sys, a.Key(), b.Key()), sys.store, a, b, 0, 0)
  {
    hide PlanFor, Blocked, Put, KeyAt;
  }

  lemma DoneWoven(sys: System, base: Store, a: Side, b: Side, i: nat, j: nat)
    requires Apart(a, b) && Woven(sys, base, a, b, i, j) && a.Key() in base.crs && b.Key() in base.crs
    requires a.Key() !in sys.passes && b.Key() !in sys.passes
    ensures sys.store.objs == KeyedWrites.Result(b.P(), KeyedWrites.Result(a.P(), base.objs))
    ensures sys.store.crs == base.crs[a.Key() := a.Final(base.objs)][b.Key() := b.Final(base.objs)]
  {
    hide PlanFor, Prefix, Ending, KeyAt, OwnerBlocks, Lawful, Disjoint, ReportedStatus, Stop, StopFrom;
    PlansApart(a, b);
    StandsWithin(sys, a, base.objs, i);
    StopBeside(a.P(), b.P(), base.objs, i);
    var crs' := base.crs[a.Key() := a.Final(base.objs)][b.Key() := b.Final(base.objs)];
    forall k
      ensures k in sys.store.crs <==> k in crs'
      ensures k in crs' ==> sys.store.crs[k] == crs'[k]
    {
      if k != a.Key() && k != b.Key() {
        assert k in sys.store.crs <==> k in sys.store.crs - {a.Key(), b.Key()};
        assert k in base.crs <==> k in base.crs - {a.Key(), b.Key()};
        if k in base.crs {
          assert (sys.store.crs - {a.Key(), b.Key()})[k] == (base.crs - {a.Key(), b.Key()})[k];
        }
      }
    }
  }

  /**
   Two fault-free reconciles of resources with disjoint children may be interleaved call by call in any way: once
   both are over, the children and the resources are those of running the one after the other, in either order.
   */
  lemma InterleavingsAgree(sys: System, a: CrKey, b: CrKey, now: nat, later: nat, evs: seq<Event>)
    requires Ready(sys, a) && HasFinalizer(sys.store.crs[a]) && sys.store.crs[a].id.key == a
    requires Ready(sys, b) && HasFinalizer(sys.store.crs[b]) && sys.store.crs[b].id.key == b
    requires a != b && DisjointKeys(sys.store.crs[a].ToView(), sys.store.crs[b].ToView())
    requires forall n :: 0 <= n < |evs| ==> evs[n] == Call(a, Served, now) || evs[n] == Call(b, Served, later)
    requires var end := Run(BothStarted(sys, a, b), evs); a !in end.passes && b !in end.passes
    ensures var end := Run(BothStarted(sys, a, b), evs).store;
            var s := FullPass(FullPass(sys, a, now), b, later).store;
            var t := FullPass(FullPass(sys, b, later), a, now).store;
            && end.objs == s.objs == t.objs
            && end.crs == s.crs == t.crs
  {
    hide Woven, Next, Run, FullPass, PlanFor, KeyedWrites.Result, Ending, ReportedStatus;
    var x, y := Side(sys.store.crs[a], now), Side(sys.store.crs[b], later);
    assert Apart(x, y) by { DisjointBack(x.cr.ToView(), y.cr.ToView()); }
    StartsWoven(sys, x, y);
    var i, j := RunsWoven(BothStarted(sys, a, b), sys.store, x, y, evs);
    DoneWoven(Run(BothStarted(sys, a, b), evs), sys.store, x, y, i, j);
    TwoPasses(sys, a, b, now, later);
    PassesCommute(sys, a, b, now, later);
  }

  lemma DisjointBack(v: View, w: View)
    requires DisjointKeys(v, w)
    ensures DisjointKeys(w, v)
  {
    hide KeyAt;
  }
}
