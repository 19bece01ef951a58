/** Whole reconciles: how one is driven to its end, cut short, and what it amounts to without interference. */
module Passes {
  import opened Wrappers
  import opened Api
  import opened Objects
  import opened Components
  import opened Laws
  import opened KeyedWrites
  import opened Conditions
  import opened Operator

  // ----- Driving one reconcile -----

  /** What happens around one API call: events before it, its outcome, the clock. */
  datatype Turn = Turn(before: seq<Event>, outcome: Outcome, now: nat)

  type Script = nat -> Turn

  /** The events that move the reconcile of `key` itself; interference is everything else. */
  predicate Moves(ev: Event, key: CrKey) {
    match ev
    case Start(k) => k == key
    case Call(k, _, _) => k == key
    case Crash(k) => k == key
    case Outside(_) => false
  }

  function Interfere(sys: System, evs: seq<Event>, key: CrKey): System {
    if evs == [] then sys
    else
      var sys' := Interfere(sys, evs[..|evs| - 1], key);
      if Moves(evs[|evs| - 1], key) then sys' else Next(sys', evs[|evs| - 1])
  }

  lemma {:induction false} InterferenceLeavesPass(sys: System, evs: seq<Event>, key: CrKey)
    ensures Lookup(Interfere(sys, evs, key).passes, key) == Lookup(sys.passes, key)
  {
    if evs != [] {
      InterferenceLeavesPass(sys, evs[..|evs| - 1], key);
      if !Moves(evs[|evs| - 1], key) {
        OthersLeavePass(Interfere(sys, evs[..|evs| - 1], key), evs[|evs| - 1], key);
      }
    }
  }

  lemma OthersLeavePass(sys: System, ev: Event, key: CrKey)
    requires !Moves(ev, key)
    ensures Lookup(Next(sys, ev).passes, key) == Lookup(sys.passes, key)
  {
  }

  /** An upper bound on the API calls a reconcile still makes. */
  function Rank(ph: Phase): nat
    requires InRange(ph)
  {
    match ph
    case Reading => 2 * COUNT + 2
    case AddingFinalizer(_) => 1
    case Fetching(_, i) => 2 * (COUNT - i) + 1
    case Writing(_, i, _) => 2 * (COUNT - i)
    case Deleting(_, i) => 4 - i
    case DroppingFinalizer(_) => 2
    case Reporting(_, _) => 1
  }

  lemma ChildCallsRunOut(s: Store, key: CrKey, p: Pass, outcome: Outcome, now: nat)
    requires InRange(p.phase) && (p.phase.Fetching? || p.phase.Writing?)
    ensures var next := Serve(s, key, p, outcome, now).next;
            next.Some? && (next.value.Reporting? || next == Some(Advanced(p.phase.cr, p.phase.i))
                           || (p.phase.Fetching? && next.value.Writing? && next.value.i == p.phase.i))
  {
  }

  /** Every call brings a reconcile nearer to its end, whatever its outcome. */
  lemma CallsRunOut(s: Store, key: CrKey, p: Pass, outcome: Outcome, now: nat)
    requires InRange(p.phase)
    ensures var next := Serve(s, key, p, outcome, now).next;
            next.Some? ==> InRange(next.value) && Rank(next.value) < Rank(p.phase)
  {
    if p.phase.Fetching? || p.phase.Writing? {
      ChildCallsRunOut(s, key, p, outcome, now);
    }
  }

  function OneCall(sys: System, key: CrKey, turn: Turn): System {
    Next(Interfere(sys, turn.before, key), Call(key, turn.outcome, turn.now))
  }

  function RankOf(sys: System, key: CrKey): nat {
    if Callable(sys, key) then Rank(sys.passes[key].phase) else 0
  }

  lemma OneCallRanksDown(sys: System, key: CrKey, turn: Turn)
    requires Callable(sys, key)
    ensures var sys' := OneCall(sys, key, turn);
            (key in sys'.passes ==> Callable(sys', key)) && RankOf(sys', key) < RankOf(sys, key)
  {
    InterferenceLeavesPass(sys, turn.before, key);
    var mid := Interfere(sys, turn.before, key);
    CallsRunOut(mid.store, key, mid.passes[key], turn.outcome, turn.now);
  }

  /** A reconcile run to its end under a script of turns. */
  function Drive(sys: System, key: CrKey, script: Script, pos: nat): (r: System)
    ensures (key in sys.passes ==> Callable(sys, key)) ==> key !in r.passes
    decreases RankOf(sys, key)
  {
    if !Callable(sys, key) then sys
    else
      OneCallRanksDown(sys, key, script(pos));
      Drive(OneCall(sys, key, script(pos)), key, script, pos + 1)
  }

  function Reconcile(sys: System, key: CrKey, script: Script): System {
    Drive(Next(sys, Start(key)), key, script, 0)
  }

  /** A reconcile that dies after n of its calls. */
  function Cut(sys: System, key: CrKey, script: Script, pos: nat, n: nat): System
    decreases n
  {
    if n == 0 || !Callable(sys, key) then Next(sys, Crash(key))
    else Cut(OneCall(sys, key, script(pos)), key, script, pos + 1, n - 1)
  }

  /** An update of the whole resource: other finalizers, the spec as `omitempty` leaves it, nothing else. */
  predicate Updated(before: Kubeshark, after: Kubeshark, finalizers: seq<string>) {
    && after.id == before.id && after.deleting == before.deleting && after.status == before.status
    && after.finalizers == finalizers && after.spec == WriteBack(before.spec)
    && after.generation == if after.spec == before.spec then before.generation else before.generation + 1
  }

  // ----- A pass as a list of keyed writes -----

  function PlanFor(v: View): Plan<ObjKey, Object> {
    Plan(COUNT,
         (i: nat) => if i < COUNT then KeyAt(i, v) else KeyAt(0, v),
         (i: nat, x: Option<Object>) => if i < COUNT then Put(ORDER[i], v, x) else Put(ORDER[0], v, x),
         (i: nat, x: Option<Object>) => i < COUNT && Blocked(ORDER[i], v, x))
  }

  lemma PlanIsLawful(v: View)
    ensures Lawful(PlanFor(v))
  {
    var p := PlanFor(v);
    forall i: nat, j: nat, x: Option<Object> | i <= j < p.count && p.key(i) == p.key(j)
      ensures p.put(j, Some(p.put(i, x))) == p.put(j, x)
    {
      PutAbsorbs(i, j, v, x);
    }
    forall i: nat, j: nat, x: Option<Object> | i < p.count && j < p.count && p.key(i) == p.key(j)
      ensures p.blocked(i, x) <==> p.blocked(j, x)
      ensures !p.blocked(j, Some(p.put(i, x)))
    {
      BlockedAgrees(i, j, v, x);
      PutUnblocks(i, j, v, x);
    }
  }

  lemma DistinctPlanAgrees(v: View, n: nat)
    requires DistinctNames(v, n) && n <= COUNT
    ensures Agreeing(PlanFor(v), n)
  {
    var p := PlanFor(v);
    forall i: nat, j: nat, x: Option<Object> | i < j < n && p.key(i) == p.key(j)
      ensures p.put(i, x) == p.put(j, x)
    {
      SharedKeysAgree(i, j, v, x);
    }
  }

  ghost predicate AllStored(objs: map<ObjKey, Object>) {
    forall k <- objs :: Stored(k, objs[k])
  }

  lemma {:induction false} PrefixStored(v: View, objs: map<ObjKey, Object>, n: nat)
    requires AllStored(objs) && n <= COUNT
    ensures AllStored(Prefix(PlanFor(v), objs, n))
  {
    if n > 0 {
      hide PlanFor, Put, Stored, KeyAt, AllStored, Prefix;
      PrefixStored(v, objs, n - 1);
      var before := Prefix(PlanFor(v), objs, n - 1);
      PrefixStep(v, objs, n - 1);
      PutAtIsStored(n - 1, v, Lookup(before, KeyAt(n - 1, v)));
      StoredUpdate(before, KeyAt(n - 1, v), Put(ORDER[n - 1], v, Lookup(before, KeyAt(n - 1, v))));
    }
  }

  lemma PrefixStep(v: View, objs: map<ObjKey, Object>, n: nat)
    requires n < COUNT
    ensures var before := Prefix(PlanFor(v), objs, n);
            Prefix(PlanFor(v), objs, n + 1) == before[KeyAt(n, v) := Put(ORDER[n], v, Lookup(before, KeyAt(n, v)))]
  {
    hide Put, KeyAt;
  }

  lemma PutAtIsStored(i: nat, v: View, x: Option<Object>)
    requires i < COUNT
    ensures Stored(KeyAt(i, v), Put(ORDER[i], v, x))
  {
    hide Stored, Put, KeyOf;
    PutIsStored(ORDER[i], v, x);
  }

  lemma StoredUpdate(objs: map<ObjKey, Object>, k: ObjKey, o: Object)
    requires AllStored(objs) && Stored(k, o)
    ensures AllStored(objs[k := o])
  {
    hide Stored;
  }

  /** The text a blocked step reports. */
  function BlockText(c: Child, v: View, x: Option<Object>): string {
    if OwnerBlocks(c, v, x) then "already owned by another controller" else "field is immutable"
  }

  /** How a fault-free pass ends. */
  function Ending(v: View, objs: map<ObjKey, Object>): Verdict {
    var s := Stop(PlanFor(v), objs);
    if s == COUNT then Reconciled else StepError(s, BlockText(ORDER[s], v, Lookup(objs, KeyAt(s, v))))
  }

  /** How a pass ends depends on where it stops and on the object there. */
  lemma SameEndingAt(v: View, m: map<ObjKey, Object>, m': map<ObjKey, Object>)
    requires Stop(PlanFor(v), m) == Stop(PlanFor(v), m')
    requires var t := Stop(PlanFor(v), m); t < COUNT ==> Lookup(m, KeyAt(t, v)) == Lookup(m', KeyAt(t, v))
    ensures Ending(v, m) == Ending(v, m')
  {
    hide PlanFor, Stop, KeyAt, BlockText, StepError;
    StopInRange(v, m);
  }

  lemma StopInRange(v: View, m: map<ObjKey, Object>)
    ensures Stop(PlanFor(v), m) <= COUNT
  {
    hide KeyAt, Put, Blocked;
  }

  // ----- The two calls of one child, against the plan -----

  lemma UnchangedIsPut(c: Child, v: View, o: Object)
    requires Stored(KeyOf(c, v), o)
    requires Shape(c, v, Owned(c, v, o)) == o
    ensures Put(c, v, Some(o)) == o
    ensures !FieldBlocks(c, v, Some(o))
  {
  }

  /** The callback leaves the found object as it is. */
  predicate Untouched(c: Child, v: View, x: Option<Object>) {
    x.Some? && Shape(c, v, Owned(c, v, x.value)) == x.value
  }

  /** A Get: the pass stops at a foreign owner, skips exactly an object that its callback leaves as it is, or writes. */
  ghost predicate FetchFacts(s: Store, cr: Kubeshark, i: nat, outcome: Outcome, e: Effect)
    requires i < COUNT
  {
    var v := cr.ToView();
    var x := Lookup(s.objs, KeyAt(i, v));
    && e.store == s
    && if !outcome.Served? then e.next == Some(Reporting(cr, StepError(i, outcome.why)))
       else if OwnerBlocks(ORDER[i], v, x)
       then e.next == Some(Reporting(cr, StepError(i, BlockText(ORDER[i], v, x))))
       else if Untouched(ORDER[i], v, x)
       then e.next == Some(Advanced(cr, i)) && x == Some(Put(ORDER[i], v, x)) && !Blocked(ORDER[i], v, x)
       else e.next == Some(Writing(cr, i, x))
  }

  lemma FetchEffect(s: Store, number: nat, cr: Kubeshark, i: nat, outcome: Outcome)
    requires i < COUNT && AllStored(s.objs)
    ensures FetchFacts(s, cr, i, outcome, FetchChild(s, number, cr, i, outcome))
  {
    var v := cr.ToView();
    var x := Lookup(s.objs, KeyAt(i, v));
    MutateIsShape(ORDER[i], v, Found(ORDER[i], x));
    if !OwnerBlocks(ORDER[i], v, x) && Untouched(ORDER[i], v, x) {
      UnchangedIsPut(ORDER[i], v, x.value);
    }
  }

  /** A write on the object last seen: turned down when an immutable field would change, else the child's Put. */
  ghost predicate WriteFacts(s: Store, cr: Kubeshark, i: nat, outcome: Outcome, e: Effect)
    requires i < COUNT
  {
    var v := cr.ToView();
    var k := KeyAt(i, v);
    var x := Lookup(s.objs, k);
    if outcome.Refused? then e.store == s && e.next == Some(Reporting(cr, StepError(i, outcome.why)))
    else if Blocked(ORDER[i], v, x)
    then e.store == s && e.next == Some(Reporting(cr, StepError(i, BlockText(ORDER[i], v, x))))
    else e.store == WithObjs(s, s.objs[k := Put(ORDER[i], v, x)])
         && e.next == Some(if outcome.Lost? then Reporting(cr, StepError(i, outcome.why)) else Advanced(cr, i))
  }

  lemma WriteEffect(s: Store, number: nat, cr: Kubeshark, i: nat, outcome: Outcome)
    requires i < COUNT
    requires !OwnerBlocks(ORDER[i], cr.ToView(), Lookup(s.objs, KeyAt(i, cr.ToView())))
    ensures WriteFacts(s, cr, i, outcome, WriteChild(s, number, cr, i, Lookup(s.objs, KeyAt(i, cr.ToView())), outcome))
  {
    MutateIsShape(ORDER[i], cr.ToView(), Found(ORDER[i], Lookup(s.objs, KeyAt(i, cr.ToView()))));
  }

  // ----- A calm pass -----

  /** i steps of the pass have been done on objs0, none of them blocked. */
  ghost predicate At(v: View, objs0: map<ObjKey, Object>, i: nat, objs: map<ObjKey, Object>) {
    AllStored(objs0) && i <= Stop(PlanFor(v), objs0) && objs == Prefix(PlanFor(v), objs0, i)
  }

  lemma AtFacts(v: View, objs0: map<ObjKey, Object>, i: nat, objs: map<ObjKey, Object>)
    requires At(v, objs0, i, objs)
    ensures AllStored(objs)
    ensures i < COUNT ==> (Blocked(ORDER[i], v, Lookup(objs, KeyAt(i, v))) <==> i == Stop(PlanFor(v), objs0))
  {
    PlanIsLawful(v);
    PrefixStored(v, objs0, i);
    if i < COUNT {
      BlockedAfter(PlanFor(v), objs0, i, i);
    }
  }

  lemma AtNext(v: View, objs0: map<ObjKey, Object>, i: nat, objs: map<ObjKey, Object>)
    requires At(v, objs0, i, objs) && i < COUNT
    requires !Blocked(ORDER[i], v, Lookup(objs, KeyAt(i, v)))
    ensures At(v, objs0, i + 1, objs[KeyAt(i, v) := Put(ORDER[i], v, Lookup(objs, KeyAt(i, v)))])
  {
    AtFacts(v, objs0, i, objs);
  }

  /** A reconcile of the stored copy, part way through its pass over objs0. */
  ghost predicate OnTrack(s: Store, ph: Phase, key: CrKey, cr: Kubeshark, objs0: map<ObjKey, Object>) {
    && InRange(ph)
    && key in s.crs && s.crs[key] == cr
    && match ph
       case Fetching(c, i) => c == cr && At(cr.ToView(), objs0, i, s.objs)
       case Writing(c, i, seen) =>
         && c == cr && At(cr.ToView(), objs0, i, s.objs)
         && seen == Lookup(s.objs, KeyAt(i, cr.ToView()))
         && !OwnerBlocks(ORDER[i], cr.ToView(), seen)
       case Reporting(c, _) => c == cr && exists j: nat :: At(cr.ToView(), objs0, j, s.objs)
       case _ => false
  }

  /** The object that blocks the pass is the one it was blocked on from the start. */
  lemma EndingAtBlock(v: View, objs0: map<ObjKey, Object>, i: nat, objs: map<ObjKey, Object>)
    requires At(v, objs0, i, objs) && i < COUNT
    requires Blocked(ORDER[i], v, Lookup(objs, KeyAt(i, v)))
    ensures Ending(v, objs0) == StepError(i, BlockText(ORDER[i], v, Lookup(objs, KeyAt(i, v))))
    ensures objs == KeyedWrites.Result(PlanFor(v), objs0)
  {
    var p := PlanFor(v);
    PlanIsLawful(v);
    AtFacts(v, objs0, i, objs);
    PrefixAt(p, objs0, i, p.key(i));
    if LastAt(p, p.key(i), i) >= 0 { LastUnblocks(p, objs0, i, i); }
  }

  /** One call keeps the pass on track; served calls end it only where a fault-free pass ends. */
  ghost predicate Tracked(e: Effect, i: nat, key: CrKey, cr: Kubeshark, objs0: map<ObjKey, Object>, outcome: Outcome) {
    && e.next.Some? && OnTrack(e.store, e.next.value, key, cr, objs0)
    && (!e.next.value.Reporting? ==> i <= e.next.value.i <= i + 1)
    && (outcome.Served? && e.next.value.Reporting? ==>
          Stop(PlanFor(cr.ToView()), objs0) <= i + 1 &&
          e.next.value.verdict == Ending(cr.ToView(), objs0)
          && e.store.objs == KeyedWrites.Result(PlanFor(cr.ToView()), objs0))
  }

  lemma TrackAdvance(s: Store, key: CrKey, cr: Kubeshark, i: nat, objs0: map<ObjKey, Object>, outcome: Outcome,
          e: Effect)
    requires i < COUNT && key in e.store.crs && e.store.crs[key] == cr
    requires At(cr.ToView(), objs0, i + 1, e.store.objs)
    requires outcome.Served? && e.next == Some(Advanced(cr, i))
    ensures Tracked(e, i, key, cr, objs0, outcome)
  {
    hide Put, OwnerBlocks, FieldBlocks, Prefix, Blocked, KeyAt;
    var v := cr.ToView();
    if i + 1 == COUNT {
      assert Stop(PlanFor(v), objs0) == COUNT;
    }
  }

  lemma TrackFetch(s: Store, key: CrKey, cr: Kubeshark, i: nat, objs0: map<ObjKey, Object>, outcome: Outcome, e: Effect)
    requires OnTrack(s, Fetching(cr, i), key, cr, objs0)
    requires FetchFacts(s, cr, i, outcome, e)
    ensures Tracked(e, i, key, cr, objs0, outcome)
  {
    hide PlanFor, Put, OwnerBlocks, FieldBlocks, KeyAt, At, Ending, BlockText, StepError, Stop, KeyedWrites.Result,
         Untouched;
    var v := cr.ToView();
    var x := Lookup(s.objs, KeyAt(i, v));
    AtFacts(v, objs0, i, s.objs);
    if outcome.Served? {
      if OwnerBlocks(ORDER[i], v, x) {
        EndingAtBlock(v, objs0, i, s.objs);
      } else if e.next == Some(Advanced(cr, i)) {
        AtNext(v, objs0, i, s.objs);
        assert s.objs[KeyAt(i, v) := Put(ORDER[i], v, x)] == s.objs;
        TrackAdvance(s, key, cr, i, objs0, outcome, e);
      }
    }
  }

  lemma TrackWrite(s: Store, key: CrKey, cr: Kubeshark, i: nat, seen: Option<Object>, objs0: map<ObjKey,
          Object>, outcome: Outcome, e: Effect)
    requires OnTrack(s, Writing(cr, i, seen), key, cr, objs0)
    requires WriteFacts(s, cr, i, outcome, e)
    ensures Tracked(e, i, key, cr, objs0, outcome)
  {
    hide PlanFor, Put, Blocked, At, KeyAt, Ending, BlockText, StepError, Stop, KeyedWrites.Result;
    var v := cr.ToView();
    AtFacts(v, objs0, i, s.objs);
    if !outcome.Refused? {
      if Blocked(ORDER[i], v, seen) {
        EndingAtBlock(v, objs0, i, s.objs);
      } else {
        AtNext(v, objs0, i, s.objs);
        if outcome.Served? {
          TrackAdvance(s, key, cr, i, objs0, outcome, e);
        }
      }
    }
  }

  lemma TrackChild(s: Store, p: Pass, key: CrKey, cr: Kubeshark, objs0: map<ObjKey, Object>, outcome: Outcome, now: nat)
    requires OnTrack(s, p.phase, key, cr, objs0) && !p.phase.Reporting?
    ensures Tracked(Serve(s, key, p, outcome, now), p.phase.i, key, cr, objs0, outcome)
  {
    AtFacts(cr.ToView(), objs0, p.phase.i, s.objs);
    if p.phase.Fetching? {
      FetchEffect(s, p.number, cr, p.phase.i, outcome);
      TrackFetch(s, key, cr, p.phase.i, objs0, outcome, Serve(s, key, p, outcome, now));
    } else {
      WriteEffect(s, p.number, cr, p.phase.i, outcome);
      TrackWrite(s, key, cr, p.phase.i, p.phase.seen, objs0, outcome, Serve(s, key, p, outcome, now));
    }
  }
}
