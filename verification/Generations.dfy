/** The observed generation over whole runs, and the one way it can run ahead. */
module Generations {
  import opened Wrappers
  import opened Api
  import opened Components
  import opened Laws
  import opened Conditions
  import opened Operator
  import opened Passes
  import opened Runs
  import opened Readiness

  // ----- What can go wrong -----

  /** A report that takes effect: the status patch is addressed by key only. */
  predicate Lands(sys: System, ev: Event) {
    && ev.Call? && ev.key in sys.passes && sys.passes[ev.key].phase.Reporting?
    && ev.key in sys.store.crs && !ev.outcome.Refused?
  }

  /** The report lands on another incarnation, of a lower generation than the copy, and carries the copy's. */
  predicate Overshoots(sys: System, ev: Event) {
    Lands(sys, ev) &&
    var cr := sys.passes[ev.key].phase.cr;
    var stored := sys.store.crs[ev.key];
    stored.id != cr.id && stored.generation < cr.generation && cr.status.observedGeneration != cr.generation
  }

  /** The report comes from a copy read while the observed generation was ahead of the generation. */
  predicate Retreats(sys: System, ev: Event) {
    Lands(sys, ev) &&
    var cr := sys.passes[ev.key].phase.cr;
    sys.store.crs[ev.key].id == cr.id && cr.generation < cr.status.observedGeneration
  }

  function Intended(sys: System, ev: Event): Status
    requires Lands(sys, ev)
  {
    ReportedStatus(sys.passes[ev.key].phase.cr, sys.passes[ev.key].phase.verdict, ev.now)
  }

  /** The report lands on another incarnation with a patch that leaves out a member the copy already had. */
  predicate FallsShort(sys: System, ev: Event) {
    Lands(sys, ev) &&
    var cr := sys.passes[ev.key].phase.cr;
    && sys.store.crs[ev.key].id != cr.id
    && (|| Intended(sys, ev).conditions == cr.status.conditions
        || (cr.status.observedGeneration == cr.generation && cr.generation != 0))
  }

  predicate NoOvershoot(sys: System, ev: Event) {
    !Overshoots(sys, ev)
  }

  predicate NoRetreat(sys: System, ev: Event) {
    !Retreats(sys, ev)
  }

  // ----- What is promised -----

  predicate WithinBound(cr: Kubeshark) {
    cr.status.observedGeneration <= cr.generation
  }

  ghost predicate AllWithinBound(s: Store) {
    forall key <- s.crs :: WithinBound(s.crs[key])
  }

  /** Between two states of one resource the observed generation has not gone back. */
  predicate ObservedKept(s: Store, s': Store, key: CrKey) {
    key in s.crs && key in s'.crs && s'.crs[key].id == s.crs[key].id ==>
      s.crs[key].status.observedGeneration <= s'.crs[key].status.observedGeneration
  }

  ghost predicate AllObservedKept(s: Store, s': Store) {
    forall key :: ObservedKept(s, s', key)
  }

  /** A resource that is not the one a copy in flight was read from has not been reported on yet. */
  predicate CopyMet(s: Store, key: CrKey, cr: Kubeshark) {
    key in s.crs ==> s.crs[key].id == cr.id || s.crs[key].status == EMPTY_STATUS
  }

  ghost predicate Met(sys: System) {
    forall key <- sys.passes :: HasCopy(sys.passes[key].phase) ==> CopyMet(sys.store, key, sys.passes[key].phase.cr)
  }

  // ----- Steps that report nothing -----

  /** The copy is the same but for finalizers. */
  predicate SameCopy(cr: Kubeshark, cr': Kubeshark) {
    cr'.(finalizers := cr.finalizers) == cr
  }

  /** The keys at which an event may store a new resource. */
  function Fresh(ev: Event): set<CrKey> {
    match ev
    case Outside(CreateCr(key, _, _)) => {key}
    case _ => {}
  }

  /** Where the copies of a state come from: kept, or just read from the stored resource. */
  predicate CopyFrom(sys: System, sys': System, k: CrKey)
    requires k in sys'.passes && HasCopy(sys'.passes[k].phase)
  {
    var cr' := sys'.passes[k].phase.cr;
    || (k in sys.passes && HasCopy(sys.passes[k].phase) && SameCopy(sys.passes[k].phase.cr, cr'))
    || (k in sys.store.crs && cr' == sys.store.crs[k] && k in sys'.store.crs && sys'.store.crs[k] == cr')
  }

  /** Resources keep their status and generations only grow; fresh ones start unobserved. */
  ghost predicate Calmly(sys: System, sys': System, made: set<CrKey>) {
    && (forall k <- sys'.store.crs ::
          || (k in sys.store.crs && sys'.store.crs[k].id == sys.store.crs[k].id
              && sys'.store.crs[k].status == sys.store.crs[k].status
              && sys'.store.crs[k].generation >= sys.store.crs[k].generation)
          || (sys'.store.crs[k].status == EMPTY_STATUS && k !in sys.store.crs && k in made))
    && (forall k <- sys'.passes :: k in sys.passes || !HasCopy(sys'.passes[k].phase))
    && (forall k <- sys'.passes :: HasCopy(sys'.passes[k].phase) ==> CopyFrom(sys, sys', k))
  }

  lemma CalmlyMet(sys: System, sys': System, made: set<CrKey>)
    requires Calmly(sys, sys', made)
    ensures Met(sys) ==> Met(sys')
    ensures AllWithinBound(sys.store) ==> AllWithinBound(sys'.store)
    ensures AllObservedKept(sys.store, sys'.store)
  {
  }

  lemma OutsideCalm(sys: System, a: Action)
    ensures Calmly(sys, Next(sys, Outside(a)), Fresh(Outside(a)))
  {
    hide Perturb;
    PerturbHasShape(sys.store, a);
  }

  lemma ChildCalm(sys: System, key: CrKey, outcome: Outcome, now: nat)
    requires key in sys.passes && InRange(sys.passes[key].phase)
    requires sys.passes[key].phase.Fetching? || sys.passes[key].phase.Writing?
    ensures Calmly(sys, Next(sys, Call(key, outcome, now)), {})
  {
    hide FetchChild, WriteChild, Put, Shape, KeyAt, Blocked, OwnerBlocks;
    ChildHasShape(sys.store, key, sys.passes[key], outcome, now);
  }

  lemma ReadingCalm(sys: System, key: CrKey, outcome: Outcome, now: nat)
    requires key in sys.passes && sys.passes[key].phase.Reading?
    ensures Calmly(sys, Next(sys, Call(key, outcome, now)), {})
  {
    hide FetchChild, WriteChild, DeleteCluster, DropFinalizer, Report, PutFinalizer, HasFinalizer;
  }

  lemma AddingCalm(sys: System, key: CrKey, outcome: Outcome, now: nat)
    requires key in sys.passes && sys.passes[key].phase.AddingFinalizer?
    ensures Calmly(sys, Next(sys, Call(key, outcome, now)), {})
  {
    hide WriteBack, FetchChild, WriteChild, DeleteCluster, DropFinalizer, Report, ReadCr, HasFinalizer;
  }

  lemma DeletingCalm(sys: System, key: CrKey, outcome: Outcome, now: nat)
    requires key in sys.passes && InRange(sys.passes[key].phase) && sys.passes[key].phase.Deleting?
    ensures Calmly(sys, Next(sys, Call(key, outcome, now)), {})
  {
    hide ClusterKey;
  }

  lemma DroppingCalm(sys: System, key: CrKey, outcome: Outcome, now: nat)
    requires key in sys.passes && sys.passes[key].phase.DroppingFinalizer?
    ensures Calmly(sys, Next(sys, Call(key, outcome, now)), {})
  {
    hide DropFinalizer, Without;
    DropHasShape(sys.store, sys.passes[key].number, key, sys.passes[key].phase.cr, outcome);
  }

  lemma CalmlyStarted(sys: System, ev: Event)
    requires ev.Start? || ev.Crash? || (ev.Call? && ev.key !in sys.passes)
    ensures Calmly(sys, Next(sys, ev), {})
  {
  }

  predicate Reports(sys: System, ev: Event) {
    ev.Call? && ev.key in sys.passes && sys.passes[ev.key].phase.Reporting?
  }

  lemma OtherStepsAreCalm(sys: System, ev: Event)
    requires Sound(sys) && !Reports(sys, ev)
    ensures Calmly(sys, Next(sys, ev), Fresh(ev))
  {
    hide Calmly, CopyOk, StoredCrOk, LogOk;
    match ev {
      case Outside(a) => OutsideCalm(sys, a);
      case Call(k, outcome, now) =>
        if k !in sys.passes {
          CalmlyStarted(sys, ev);
        } else {
          match sys.passes[k].phase {
            case Fetching(_, _) => ChildCalm(sys, k, outcome, now);
            case Writing(_, _, _) => ChildCalm(sys, k, outcome, now);
            case Reading => ReadingCalm(sys, k, outcome, now);
            case AddingFinalizer(_) => AddingCalm(sys, k, outcome, now);
            case Deleting(_, _) => DeletingCalm(sys, k, outcome, now);
            case DroppingFinalizer(_) => DroppingCalm(sys, k, outcome, now);
          }
        }
      case _ => CalmlyStarted(sys, ev);
    }
  }

  // ----- Reports -----

  /** What a report does to the store and the reconciles. */
  lemma ReportStep(sys: System, key: CrKey, outcome: Outcome, now: nat)
    requires key in sys.passes && sys.passes[key].phase.Reporting?
    ensures var sys' := Next(sys, Call(key, outcome, now));
            var cr := sys.passes[key].phase.cr;
            && sys'.passes == sys.passes - {key}
            && (if Lands(sys, Call(key, outcome, now)) then
                  var stored := sys.store.crs[key];
                  var intended := ReportedStatus(cr, sys.passes[key].phase.verdict, now);
                  var status := PatchStatus(stored.status, cr.status, intended);
                  sys'.store.crs == sys.store.crs[key := stored.(status := status)]
                else sys'.store.crs == sys.store.crs)
  {
    hide SetStatusCondition, PatchStatus;
    if key in sys.store.crs { assert sys.store.crs[key := sys.store.crs[key]] == sys.store.crs; }
  }

  /** What the invariants of runs say about a copy that is about to be reported on. */
  lemma ReportedCopy(sys: System, key: CrKey)
    requires Sound(sys) && Trusted(sys) && Met(sys)
    requires key in sys.passes && sys.passes[key].phase.Reporting? && key in sys.store.crs
    ensures var cr, stored := sys.passes[key].phase.cr, sys.store.crs[key];
            && stored.id.key == cr.id.key
            && (stored.id == cr.id ==> stored.status == cr.status && cr.generation <= stored.generation)
            && (stored.id != cr.id ==> stored.status == EMPTY_STATUS)
  {
    hide AllStored, StepsDone, LogOk, Conforms, CrTrusted;
    assert PassTrusted(sys, key, sys.passes[key]);
    assert StoredCrOk(sys, key);
  }

  lemma ReportsSomething(cr: Kubeshark, verdict: Verdict, now: nat)
    ensures ReportedStatus(cr, verdict, now).conditions != []
  {
  }

  /**
   After a report that takes effect: exactly when the bound holds, exactly when the observed generation has gone
   back, and exactly when the stored status is the one intended.
   */
  lemma ReportExactly(sys: System, key: CrKey, outcome: Outcome, now: nat)
    requires Sound(sys) && Trusted(sys) && Met(sys) && Lands(sys, Call(key, outcome, now))
    ensures var ev := Call(key, outcome, now);
            var sys' := Next(sys, ev);
            && (WithinBound(sys.store.crs[key]) ==> (WithinBound(sys'.store.crs[key]) <==> !Overshoots(sys, ev)))
            && (ObservedKept(sys.store, sys'.store, key) <==> !Retreats(sys, ev))
            && (sys'.store.crs[key].status == Intended(sys, ev) <==> !FallsShort(sys, ev))
  {
    hide Sound, Trusted, Met, SetStatusCondition, Serve, Next;
    ReportsSomething(sys.passes[key].phase.cr, sys.passes[key].phase.verdict, now);
    ReportStep(sys, key, outcome, now);
    ReportedCopy(sys, key);
  }

  lemma ReportElsewhere(sys: System, key: CrKey, outcome: Outcome, now: nat, k: CrKey)
    requires key in sys.passes && sys.passes[key].phase.Reporting?
    requires k != key || !Lands(sys, Call(key, outcome, now))
    ensures var sys' := Next(sys, Call(key, outcome, now));
            Lookup(sys'.store.crs, k) == Lookup(sys.store.crs, k) && ObservedKept(sys.store, sys'.store, k)
  {
    hide Next, Serve;
    ReportStep(sys, key, outcome, now);
  }

  lemma ReportKeepsMet(sys: System, key: CrKey, outcome: Outcome, now: nat)
    requires Met(sys) && key in sys.passes && sys.passes[key].phase.Reporting?
    ensures Met(Next(sys, Call(key, outcome, now)))
  {
    hide Next, Serve;
    ReportStep(sys, key, outcome, now);
  }

  // ----- One step, exactly -----

  lemma NextMet(sys: System, ev: Event)
    requires Sound(sys) && Met(sys)
    ensures Met(Next(sys, ev))
  {
    hide Sound, Met, Next, Calmly;
    if Reports(sys, ev) {
      ReportKeepsMet(sys, ev.key, ev.outcome, ev.now);
    } else {
      OtherStepsAreCalm(sys, ev);
      CalmlyMet(sys, Next(sys, ev), Fresh(ev));
    }
  }

  lemma StepBoundExactly(sys: System, ev: Event)
    requires Sound(sys) && Trusted(sys) && Met(sys) && AllWithinBound(sys.store)
    ensures AllWithinBound(Next(sys, ev).store) <==> !Overshoots(sys, ev)
  {
    hide Sound, Trusted, Met, Next, Calmly, WithinBound, ObservedKept;
    var sys' := Next(sys, ev);
    if Lands(sys, ev) {
      ReportExactly(sys, ev.key, ev.outcome, ev.now);
      ReportStep(sys, ev.key, ev.outcome, ev.now);
      assert WithinBound(sys.store.crs[ev.key]);
    } else if Reports(sys, ev) {
      ReportStep(sys, ev.key, ev.outcome, ev.now);
    } else {
      OtherStepsAreCalm(sys, ev);
      CalmlyMet(sys, sys', Fresh(ev));
    }
  }

  lemma StepRetreatExactly(sys: System, ev: Event)
    requires Sound(sys) && Trusted(sys) && Met(sys)
    ensures AllObservedKept(sys.store, Next(sys, ev).store) <==> !Retreats(sys, ev)
  {
    hide Sound, Trusted, Met, Next, Calmly, ObservedKept, Retreats, Overshoots;
    var sys' := Next(sys, ev);
    if Reports(sys, ev) {
      forall k | k != ev.key || !Lands(sys, ev)
        ensures ObservedKept(sys.store, sys'.store, k)
      {
        ReportElsewhere(sys, ev.key, ev.outcome, ev.now, k);
      }
      if Lands(sys, ev) {
        ReportExactly(sys, ev.key, ev.outcome, ev.now);
      } else {
        RetreatsLand(sys, ev);
      }
    } else {
      RetreatsLand(sys, ev);
      OtherStepsAreCalm(sys, ev);
      CalmlyMet(sys, sys', Fresh(ev));
    }
  }

  predicate ReportsIntended(sys: System, ev: Event) {
    Lands(sys, ev) ==> ev.key in Next(sys, ev).store.crs && Next(sys, ev).store.crs[ev.key].status == Intended(sys, ev)
  }

  lemma StepIntendedExactly(sys: System, ev: Event)
    requires Sound(sys) && Trusted(sys) && Met(sys)
    ensures ReportsIntended(sys, ev) <==> !FallsShort(sys, ev)
  {
    hide Sound, Trusted, Met, ReportedStatus, Next;
    if Lands(sys, ev) {
      ReportStep(sys, ev.key, ev.outcome, ev.now);
      ReportExactly(sys, ev.key, ev.outcome, ev.now);
    }
  }

  lemma RetreatsLand(sys: System, ev: Event)
    ensures Retreats(sys, ev) ==> Lands(sys, ev)
    ensures Lands(sys, ev) ==> Reports(sys, ev)
  {
  }

  // ----- Runs -----

  lemma {:induction false} RunsAreMet(evs: seq<Event>)
    requires Along(FinalizerKept, evs)
    ensures Met(Run(INITIAL, evs))
    decreases |evs|
  {
    hide Next, Met;
    if evs != [] {
      AlongInit(FinalizerKept, evs);
      RunsAreMet(evs[..|evs| - 1]);
      RunsAreSound(evs[..|evs| - 1]);
      NextMet(Run(INITIAL, evs[..|evs| - 1]), evs[|evs| - 1]);
    } else {
      assert Met(INITIAL) by { InitiallyMet(); }
    }
  }

  lemma InitiallyMet()
    ensures Met(INITIAL) && AllWithinBound(INITIAL.store)
  {
  }

  /** The bound holds at every state of the run. */
  ghost predicate BoundThroughout(evs: seq<Event>) {
    forall n :: 0 <= n <= |evs| ==> AllWithinBound(Run(INITIAL, evs[..n]).store)
  }

  /** No step of the run takes an observed generation back. */
  ghost predicate NeverBack(evs: seq<Event>) {
    forall n :: 0 <= n < |evs| ==> KeptFrom(Run(INITIAL, evs[..n]), evs[n])
  }

  ghost predicate KeptFrom(sys: System, ev: Event) {
    AllObservedKept(sys.store, Next(sys, ev).store)
  }

  lemma RunFacts(evs: seq<Event>, n: nat)
    requires Along(FinalizerKept, evs) && n <= |evs|
    ensures var sys := Run(INITIAL, evs[..n]); Sound(sys) && Trusted(sys) && Met(sys)
    ensures n < |evs| ==> Run(INITIAL, evs[..n + 1]) == Next(Run(INITIAL, evs[..n]), evs[n])
  {
    hide Sound, Trusted, Met, Next;
    AlongPrefix(FinalizerKept, evs, n);
    RunsAreTrusted(evs[..n]);
    RunsAreMet(evs[..n]);
    if n < |evs| { assert evs[..n + 1][..n] == evs[..n]; }
  }

  lemma AlongPrefix(assumption: (System, Event) -> bool, evs: seq<Event>, n: nat)
    requires Along(assumption, evs) && n <= |evs|
    ensures Along(assumption, evs[..n])
  {
    forall m | 0 <= m < n
      ensures assumption(Run(INITIAL, evs[..n][..m]), evs[..n][m])
    {
      assert evs[..n][..m] == evs[..m];
    }
  }

  lemma {:induction false} BoundUpTo(evs: seq<Event>, n: nat)
    requires Along(FinalizerKept, evs) && Along(NoOvershoot, evs) && n <= |evs|
    ensures AllWithinBound(Run(INITIAL, evs[..n]).store)
  {
    hide Sound, Trusted, Met, Next, Overshoots, AllWithinBound, Run;
    if n == 0 {
      EmptyRun(evs);
    } else {
      BoundUpTo(evs, n - 1);
      RunFacts(evs, n - 1);
      assert NoOvershoot(Run(INITIAL, evs[..n - 1]), evs[n - 1]);
      StepBoundExactly(Run(INITIAL, evs[..n - 1]), evs[n - 1]);
    }
  }

  lemma EmptyRun(evs: seq<Event>)
    ensures AllWithinBound(Run(INITIAL, evs[..0]).store)
  {
    InitiallyMet();
  }

  /**
   The observed generation, exactly. In any run that leaves the finalizer alone it stays within the generation at
   every state if and only if no report lands on a later incarnation that is younger in generations than the copy.
   */
  lemma BoundExactly(evs: seq<Event>)
    requires Along(FinalizerKept, evs)
    ensures BoundThroughout(evs) <==> Along(NoOvershoot, evs)
  {
    hide Sound, Trusted, Met, Next, Overshoots, AllWithinBound, Run;
    if BoundThroughout(evs) {
      forall n | 0 <= n < |evs|
        ensures NoOvershoot(Run(INITIAL, evs[..n]), evs[n])
      {
        RunFacts(evs, n);
        StepBoundExactly(Run(INITIAL, evs[..n]), evs[n]);
        assert AllWithinBound(Run(INITIAL, evs[..n + 1]).store);
      }
    }
    if Along(NoOvershoot, evs) {
      forall n | 0 <= n <= |evs|
        ensures AllWithinBound(Run(INITIAL, evs[..n]).store)
      {
        BoundUpTo(evs, n);
      }
    }
  }

  /** It goes back at a step exactly if the copy reported on was itself read with an observed generation ahead. */
  lemma NeverBackExactly(evs: seq<Event>)
    requires Along(FinalizerKept, evs)
    ensures NeverBack(evs) <==> Along(NoRetreat, evs)
  {
    hide Sound, Trusted, Met, Next, Retreats, AllObservedKept, Run;
    forall n | 0 <= n < |evs|
      ensures KeptFrom(Run(INITIAL, evs[..n]), evs[n]) <==> NoRetreat(Run(INITIAL, evs[..n]), evs[n])
    {
      RunFacts(evs, n);
      StepRetreatExactly(Run(INITIAL, evs[..n]), evs[n]);
    }
  }

  /** A report stores exactly the intended status unless it falls short on another incarnation. */
  lemma IntendedExactly(evs: seq<Event>, n: nat)
    requires Along(FinalizerKept, evs) && n < |evs|
    ensures var sys := Run(INITIAL, evs[..n]); ReportsIntended(sys, evs[n]) <==> !FallsShort(sys, evs[n])
  {
    hide Sound, Trusted, Met, Next, FallsShort, ReportsIntended, Run;
    RunFacts(evs, n);
    StepIntendedExactly(Run(INITIAL, evs[..n]), evs[n]);
  }

  // ----- Without overshoot -----

  /** Copies in flight were read while the observed generation was within the bound. */
  ghost predicate CopiesWithin(sys: System) {
    forall key <- sys.passes :: HasCopy(sys.passes[key].phase) ==> WithinBound(sys.passes[key].phase.cr)
  }

  lemma CalmlyWithin(sys: System, sys': System, made: set<CrKey>)
    requires Calmly(sys, sys', made) && CopiesWithin(sys) && AllWithinBound(sys.store)
    ensures CopiesWithin(sys')
  {
  }

  lemma NextWithin(sys: System, ev: Event)
    requires Sound(sys) && CopiesWithin(sys) && AllWithinBound(sys.store)
    ensures CopiesWithin(Next(sys, ev)) && !Retreats(sys, ev)
  {
    hide Sound, Next, Calmly, AllWithinBound;
    if Reports(sys, ev) {
      ReportStep(sys, ev.key, ev.outcome, ev.now);
    } else {
      OtherStepsAreCalm(sys, ev);
      CalmlyWithin(sys, Next(sys, ev), Fresh(ev));
    }
  }

  lemma {:induction false} WithinUpTo(evs: seq<Event>, n: nat)
    requires Along(FinalizerKept, evs) && BoundThroughout(evs) && n <= |evs|
    ensures CopiesWithin(Run(INITIAL, evs[..n]))
  {
    hide Sound, Trusted, Met, Next, AllWithinBound, CopiesWithin, Run;
    if n == 0 {
      EmptyRunWithin(evs);
    } else {
      WithinUpTo(evs, n - 1);
      RunFacts(evs, n - 1);
      assert AllWithinBound(Run(INITIAL, evs[..n - 1]).store);
      NextWithin(Run(INITIAL, evs[..n - 1]), evs[n - 1]);
    }
  }

  lemma EmptyRunWithin(evs: seq<Event>)
    ensures CopiesWithin(Run(INITIAL, evs[..0]))
  {
  }

  /** Where the bound holds throughout, the observed generation never goes back. */
  lemma BoundedNeverBack(evs: seq<Event>)
    requires Along(FinalizerKept, evs) && BoundThroughout(evs)
    ensures NeverBack(evs)
  {
    hide Sound, Trusted, Met, Next, Retreats, CopiesWithin, AllWithinBound, Run, NeverBack;
    forall n | 0 <= n < |evs|
      ensures NoRetreat(Run(INITIAL, evs[..n]), evs[n])
    {
      WithinUpTo(evs, n);
      RunFacts(evs, n);
      assert AllWithinBound(Run(INITIAL, evs[..n]).store);
      NextWithin(Run(INITIAL, evs[..n]), evs[n]);
    }
    NeverBackExactly(evs);
  }

  // ----- A sufficient condition on the environment -----

  /** A resource is not created anew while a reconcile of its name holds a copy. */
  predicate NotRecreated(sys: System, ev: Event) {
    match ev
    case Outside(CreateCr(key, _, _)) => key in sys.passes ==> !HasCopy(sys.passes[key].phase)
    case _ => true
  }

  predicate GenerationAssumptions(sys: System, ev: Event) {
    FinalizerKept(sys, ev) && NotRecreated(sys, ev)
  }

  /** What is stored under the key of a copy in flight is what the copy was read from. */
  ghost predicate Matched(sys: System) {
    forall key <- sys.passes :: HasCopy(sys.passes[key].phase) && key in sys.store.crs ==>
      sys.store.crs[key].id == sys.passes[key].phase.cr.id
  }

  lemma CalmlyMatched(sys: System, sys': System, made: set<CrKey>)
    requires Calmly(sys, sys', made) && Matched(sys)
    requires forall k <- made :: k in sys.passes ==> !HasCopy(sys.passes[k].phase)
    ensures Matched(sys')
  {
  }

  lemma NextMatched(sys: System, ev: Event)
    requires Sound(sys) && Matched(sys) && NotRecreated(sys, ev)
    ensures Matched(Next(sys, ev)) && !Overshoots(sys, ev)
  {
    hide Sound, Next, Calmly;
    if Reports(sys, ev) {
      ReportStep(sys, ev.key, ev.outcome, ev.now);
    } else {
      OtherStepsAreCalm(sys, ev);
      CalmlyMatched(sys, Next(sys, ev), Fresh(ev));
    }
  }

  lemma {:induction false} RunsMatch(evs: seq<Event>)
    requires Along(GenerationAssumptions, evs)
    ensures Along(FinalizerKept, evs) && Along(NoOvershoot, evs)
    ensures Matched(Run(INITIAL, evs))
    decreases |evs|
  {
    hide Next, Matched, Overshoots;
    if evs != [] {
      var init, last := evs[..|evs| - 1], evs[|evs| - 1];
      AlongInit(GenerationAssumptions, evs);
      RunsMatch(init);
      RunsAreSound(init);
      NextMatched(Run(INITIAL, init), last);
      AlongSnoc(NoOvershoot, init, last);
      assert init + [last] == evs;
    } else {
      NothingMatched();
    }
  }

  lemma NothingMatched()
    ensures Matched(INITIAL)
  {
  }

  lemma AlongSnoc(assumption: (System, Event) -> bool, evs: seq<Event>, ev: Event)
    requires Along(assumption, evs) && assumption(Run(INITIAL, evs), ev)
    ensures Along(assumption, evs + [ev])
  {
    forall n | 0 <= n < |evs + [ev]|
      ensures assumption(Run(INITIAL, (evs + [ev])[..n]), (evs + [ev])[n])
    {
      if n < |evs| {
        assert (evs + [ev])[..n] == evs[..n];
      } else {
        assert (evs + [ev])[..n] == evs;
      }
    }
  }

  /**
   In particular, as long as no resource is created anew under a name whose reconcile holds a copy, the observed
   generation never exceeds the generation, never goes back, and a report that takes effect stores exactly the
   status the reconcile intended.
   */
  lemma ObservedGenerationIsSound(evs: seq<Event>)
    requires Along(GenerationAssumptions, evs)
    ensures BoundThroughout(evs) && NeverBack(evs)
    ensures forall n :: 0 <= n < |evs| ==> ReportsIntended(Run(INITIAL, evs[..n]), evs[n])
  {
    hide Sound, Trusted, Met, Next, Run, BoundThroughout, NeverBack, ReportsIntended;
    RunsMatch(evs);
    BoundExactly(evs);
    BoundedNeverBack(evs);
    forall n | 0 <= n < |evs|
      ensures ReportsIntended(Run(INITIAL, evs[..n]), evs[n])
    {
      AlongPrefix(GenerationAssumptions, evs, n);
      RunsMatch(evs[..n]);
      RunFacts(evs, n);
      MatchedReports(Run(INITIAL, evs[..n]), evs[n]);
    }
  }

  lemma MatchedReports(sys: System, ev: Event)
    requires Sound(sys) && Trusted(sys) && Met(sys) && Matched(sys)
    ensures ReportsIntended(sys, ev)
  {
    hide Sound, Trusted, Met, ReportedStatus, Next;
    StepIntendedExactly(sys, ev);
  }

  // ----- The one way it can run ahead -----

  lemma RunOneMore(evs: seq<Event>, ev: Event)
    ensures Run(INITIAL, evs + [ev]) == Next(Run(INITIAL, evs), ev)
  {
    assert (evs + [ev])[..|evs + [ev]| - 1] == evs;
  }

  /** A resource of one incarnation, deleted, cleaned up, its release answered by a timeout, and created anew. */
  function RecreationRun(key: CrKey, spec: Spec): seq<Event> {
    [Outside(CreateCr(key, spec, [FINALIZER])), Outside(RequestDelete(key)), Start(key), Call(key, Served, 0)]
    + [Call(key, Served, 0)] + [Call(key, Served, 0)] + [Call(key, Lost("timeout"), 0)]
    + [Outside(CreateCr(key, spec, []))] + [Call(key, Served, 0)]
  }

  lemma RecreationSetup(key: CrKey, spec: Spec) returns (evs: seq<Event>, cr: Kubeshark)
    ensures evs == [Outside(CreateCr(key, spec, [FINALIZER])), Outside(RequestDelete(key)), Start(key), Call(key,
        Served, 0)]
    ensures cr == Kubeshark(CrId(key, 0), 2, true, [FINALIZER], spec, EMPTY_STATUS)
    ensures var sys := Run(INITIAL, evs);
            sys.store.crs == map[key := cr] && sys.store.objs == map[] && sys.store.nextUid == 1
            && sys.passes == map[key := Pass(0, Deleting(cr, 0))]
  {
    cr := Kubeshark(CrId(key, 0), 2, true, [FINALIZER], spec, EMPTY_STATUS);
    var e1, e2 := Outside(CreateCr(key, spec, [FINALIZER])), Outside(RequestDelete(key));
    evs := [e1, e2, Start(key), Call(key, Served, 0)];
    var s1 := Next(INITIAL, e1);
    var s2 := Next(s1, e2);
    var s3 := Next(s2, Start(key));
    assert s3.store.crs == map[key := cr] && s3.passes == map[key := Pass(0, Reading)];
    assert Run(INITIAL, []) == INITIAL;
    RunOneMore([], e1);
    assert [] + [e1] == [e1];
    RunOneMore([e1], e2);
    assert [e1] + [e2] == [e1, e2];
    RunOneMore([e1, e2], Start(key));
    assert [e1, e2] + [Start(key)] == [e1, e2, Start(key)];
    RunOneMore([e1, e2, Start(key)], Call(key, Served, 0));
    assert [e1, e2, Start(key)] + [Call(key, Served, 0)] == evs;
    assert s3.passes[key := Pass(0, Deleting(cr, 0))] == map[key := Pass(0, Deleting(cr, 0))];
  }

  lemma RemoveOnlyFinalizer(cr: Kubeshark)
    requires cr.finalizers == [FINALIZER]
    ensures RemoveFinalizer(cr).finalizers == []
  {
    assert Without([FINALIZER], FINALIZER) == Without([], FINALIZER);
  }

  lemma RecreationReleased(key: CrKey, spec: Spec) returns (evs: seq<Event>, copy: Kubeshark)
    ensures RecreationRun(key, spec) == evs + [Outside(CreateCr(key, spec, []))] + [Call(key, Served, 0)]
    ensures copy.id == CrId(key, 0) && copy.generation == 2 && copy.status == EMPTY_STATUS
    ensures var sys := Run(INITIAL, evs);
            sys.store.crs == map[] && sys.store.nextUid == 1
            && sys.passes == map[key := Pass(0, Reporting(copy, DeleteFailed("timeout")))]
  {
    hide Next;
    var start, cr := RecreationSetup(key, spec);
    var ok, lost := Call(key, Served, 0), Call(key, Lost("timeout"), 0);
    copy := RemoveFinalizer(cr);
    evs := start + [ok] + [ok] + [lost];
    RunOneMore(start, ok);
    RunOneMore(start + [ok], ok);
    RunOneMore(start + [ok] + [ok], lost);
    BothDeleted(Run(INITIAL, start), key, cr);
    ReleaseLost(Next(Next(Run(INITIAL, start), ok), ok), key, cr);
  }

  lemma BothDeleted(sys: System, key: CrKey, cr: Kubeshark)
    requires sys.store.crs == map[key := cr] && sys.passes == map[key := Pass(0, Deleting(cr, 0))]
    ensures var sys' := Next(Next(sys, Call(key, Served, 0)), Call(key, Served, 0));
            && sys'.store.crs == map[key := cr] && sys'.store.nextUid == sys.store.nextUid
            && sys'.passes == map[key := Pass(0, DroppingFinalizer(cr))]
  {
    hide ClusterKey;
  }

  lemma ReleaseLost(sys: System, key: CrKey, cr: Kubeshark)
    requires sys.store.crs == map[key := cr] && sys.passes == map[key := Pass(0, DroppingFinalizer(cr))]
    requires cr.deleting && cr.finalizers == [FINALIZER]
    ensures var sys' := Next(sys, Call(key, Lost("timeout"), 0));
            && sys'.store.crs == map[] && sys'.store.nextUid == sys.store.nextUid
            && sys'.passes == map[key := Pass(0, Reporting(RemoveFinalizer(cr), DeleteFailed("timeout")))]
  {
    hide WriteBack, RemoveFinalizer, Without;
    RemoveOnlyFinalizer(cr);
  }

  /**
   Without that proviso the bound fails: the failure report of a finished deletion is addressed by name only,
   and lands on the new incarnation with the generation of the old one.
   */
  lemma RecreationBreaksTheBound(key: CrKey, spec: Spec)
    ensures Along(FinalizerKept, RecreationRun(key, spec))
    ensures var sys := Run(INITIAL, RecreationRun(key, spec));
            && key in sys.store.crs && sys.store.crs[key].generation == 1
            && sys.store.crs[key].status.observedGeneration == 2
  {
    hide SetStatusCondition;
    var evs, copy := RecreationReleased(key, spec);
    var ok, anew := Call(key, Served, 0), Outside(CreateCr(key, spec, []));
    RunOneMore(evs, anew);
    RunOneMore(evs + [anew], ok);
    var sys := Next(Run(INITIAL, evs), anew);
    assert sys.store.crs[key].generation == 1 && sys.store.crs[key].status == EMPTY_STATUS;
  }
}
