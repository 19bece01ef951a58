/** Pass numbers: each belongs to one reconcile, and so to one copy of one resource. */
module Numbering {
  import opened Api
  import opened Components
  import opened Conditions
  import opened Operator
  import opened Runs

  /** The entry was made with the copy that the pass holds. */
  predicate MadeWith(e: Entry, p: Pass)
    requires e.Done?
  {
    HasCopy(p.phase) && e.view == p.phase.cr.ToView() && e.generation == p.phase.cr.generation
  }

  ghost predicate Numbered(sys: System) {
    && (forall k <- sys.passes :: sys.passes[k].number < sys.nextPass)
    && (forall j, k | j in sys.passes && k in sys.passes :: sys.passes[j].number == sys.passes[k].number ==> j == k)
    && (forall e <- sys.log :: e.Done? ==> e.number < sys.nextPass)
    && (forall e <- sys.log, k <- sys.passes ::
          e.Done? && e.number == sys.passes[k].number ==> MadeWith(e, sys.passes[k]))
    && (forall d <- sys.log, e <- sys.log :: d.Done? && e.Done? && d.number == e.number ==>
          d.view == e.view && d.generation == e.generation)
  }

  /** A reconcile goes on under its number, with the copy it has if it has one. */
  predicate Carried(p: Pass, p': Pass) {
    && p'.number == p.number
    && (HasCopy(p.phase) ==>
          HasCopy(p'.phase) && p'.phase.cr.ToView() == p.phase.cr.ToView()
          && p'.phase.cr.generation == p.phase.cr.generation)
  }

  /** Only the reconcile of `key` may be new, and only it may have done something. */
  ghost predicate Moved(sys: System, sys': System, key: CrKey) {
    && sys'.nextPass >= sys.nextPass
    && (forall k <- sys'.passes ::
          if k in sys.passes then Carried(sys.passes[k], sys'.passes[k])
          else k == key && sys'.passes[k].number == sys.nextPass < sys'.nextPass && !HasCopy(sys'.passes[k].phase))
    && (forall e <- sys'.log :: e in sys.log || !e.Done?
          || (key in sys.passes && e.number == sys.passes[key].number && MadeWith(e, sys.passes[key])))
  }

  lemma MovedNumbered(sys: System, sys': System, key: CrKey)
    requires Numbered(sys) && Moved(sys, sys', key)
    ensures Numbered(sys')
  {
  }

  lemma ChildMoves(sys: System, key: CrKey, outcome: Outcome, now: nat)
    requires Callable(sys, key) && (sys.passes[key].phase.Fetching? || sys.passes[key].phase.Writing?)
    ensures Moved(sys, Next(sys, Call(key, outcome, now)), key)
  {
    hide FetchChild, WriteChild, Put, Shape, KeyAt, Blocked, OwnerBlocks;
    ChildHasShape(sys.store, key, sys.passes[key], outcome, now);
  }

  lemma OtherCallMoves(sys: System, key: CrKey, outcome: Outcome, now: nat)
    requires Callable(sys, key) && !sys.passes[key].phase.Fetching? && !sys.passes[key].phase.Writing?
    ensures Moved(sys, Next(sys, Call(key, outcome, now)), key)
  {
    hide WriteBack, Without, PatchStatus, ReportedStatus, ClusterKey;
  }

  lemma NextNumbered(sys: System, ev: Event)
    requires Numbered(sys)
    ensures Numbered(Next(sys, ev))
  {
    hide Numbered, Serve, Perturb;
    match ev {
      case Start(key) => MovedNumbered(sys, Next(sys, ev), key);
      case Crash(key) => MovedNumbered(sys, Next(sys, ev), key);
      case Outside(a) => PerturbHasShape(sys.store, a); MovedNumbered(sys, Next(sys, ev), CrKey("", ""));
      case Call(key, outcome, now) =>
        if !Callable(sys, key) {
          assert Next(sys, ev) == sys;
        } else {
          if sys.passes[key].phase.Fetching? || sys.passes[key].phase.Writing? {
            ChildMoves(sys, key, outcome, now);
          } else {
            OtherCallMoves(sys, key, outcome, now);
          }
          MovedNumbered(sys, Next(sys, ev), key);
        }
    }
  }

  /** In every run two steps done under one number were done by one reconcile, from one copy. */
  lemma {:induction false} RunsAreNumbered(evs: seq<Event>)
    ensures Numbered(Run(INITIAL, evs))
    decreases |evs|
  {
    hide Next;
    if evs != [] {
      RunsAreNumbered(evs[..|evs| - 1]);
      NextNumbered(Run(INITIAL, evs[..|evs| - 1]), evs[|evs| - 1]);
    }
  }
}
