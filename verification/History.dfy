/** The log: what it records happened, when it was recorded, and no step changes an object without recording it. */
module History {
  import opened Wrappers
  import opened Api
  import opened Objects
  import opened Components
  import opened Conditions
  import opened Operator
  import opened Runs

  /** The copy with which the reconcile makes the child call that the event is. */
  predicate HandlesChild(sys: System, ev: Event, i: nat, k: ObjKey) {
    && ev.Call? && ev.key in sys.passes
    && var ph := sys.passes[ev.key].phase;
       (ph.Fetching? || ph.Writing?) && ph.i == i < COUNT && k == KeyAt(i, ph.cr.ToView())
  }

  /** The step from `sys` to `sys'` was what the entry says. */
  ghost predicate Happened(e: Entry, sys: System, ev: Event, sys': System) {
    match e
    case Version(id, g, spec) =>
      if id.key in sys'.store.crs
      then sys'.store.crs[id.key].id == id && sys'.store.crs[id.key].generation == g
           && sys'.store.crs[id.key].spec == spec
      else Live(sys.store, id)
    case Done(number, v, g, i, o) =>
      && (exists k :: HandlesChild(sys, ev, i, k) && k in sys'.store.objs && sys'.store.objs[k] == o)
      && var p := sys.passes[ev.key];
         p.number == number && p.phase.cr.ToView() == v && p.phase.cr.generation == g
    case Managed(id, k) =>
      && (exists i: nat :: HandlesChild(sys, ev, i, k))
      && k in sys'.store.objs && sys.passes[ev.key].phase.cr.id == id
    case Removed(number, id, k) =>
      && ev.Call? && ev.key in sys.passes && sys.passes[ev.key].phase.Deleting?
      && sys.passes[ev.key].number == number && sys.passes[ev.key].phase.cr.id == id
      && ClusterScoped(k) && k !in sys'.store.objs
    case DeletionRead(id, spec) =>
      && ev.Call? && ev.key == id.key && ev.key in sys.passes && sys.passes[ev.key].phase.Reading?
      && Live(sys.store, id) && sys.store.crs[id.key].deleting && sys.store.crs[id.key].spec == spec
    case Released(number, id, spec) =>
      && ev.Call? && ev.key == id.key && ev.key in sys.passes && sys.passes[ev.key].phase.DroppingFinalizer?
      && sys.passes[ev.key].number == number
      && Live(sys.store, id) && sys.store.crs[id.key].spec == spec
      && (Live(sys'.store, id) ==> !HasFinalizer(sys'.store.crs[id.key]))
  }

  /** A call of a reconcile that changes or removes an object says so. */
  ghost predicate Recorded(sys: System, ev: Event, sys': System) {
    ev.Call? ==>
      && (forall k <- sys'.store.objs :: Lookup(sys.store.objs, k) != Some(sys'.store.objs[k]) ==>
            (exists i: nat :: HandlesChild(sys, ev, i, k))
            && Managed(sys.passes[ev.key].phase.cr.id, k) in sys'.log)
      && (forall k <- sys.store.objs :: k !in sys'.store.objs ==>
            ev.key in sys.passes && sys.passes[ev.key].phase.Deleting?
            && Removed(sys.passes[ev.key].number, sys.passes[ev.key].phase.cr.id, k) in sys'.log)
  }

  ghost predicate TrueStep(sys: System, ev: Event) {
    var sys' := Next(sys, ev);
    && sys.log <= sys'.log && (forall e <- sys'.log :: e in sys.log || Happened(e, sys, ev, sys'))
    && Recorded(sys, ev, sys')
  }

  /** What a child call may leave: its own object, with the notes on it. */
  ghost predicate ChildNotes(s: Store, p: Pass, e: Effect)
    requires p.phase.Fetching? || p.phase.Writing?
    requires p.phase.i < COUNT
  {
    var cr, k := p.phase.cr, KeyAt(p.phase.i, p.phase.cr.ToView());
    && (e.store.objs == s.objs
        || (k in e.store.objs && e.store.objs == s.objs[k := e.store.objs[k]] && Managed(cr.id, k) in e.notes))
    && forall n <- e.notes ::
         && k in e.store.objs
         && (n == Managed(cr.id, k)
             || n == Done(p.number, cr.ToView(), cr.generation, p.phase.i, e.store.objs[k]))
  }

  lemma FetchNotes(s: Store, p: Pass, outcome: Outcome)
    requires p.phase.Fetching? && p.phase.i < COUNT
    ensures ChildNotes(s, p, FetchChild(s, p.number, p.phase.cr, p.phase.i, outcome))
  {
    hide Mutate, KeyAt, StepError, Advanced;
  }

  lemma WriteNotes(s: Store, p: Pass, outcome: Outcome)
    requires p.phase.Writing? && p.phase.i < COUNT
    ensures ChildNotes(s, p, WriteChild(s, p.number, p.phase.cr, p.phase.i, p.phase.seen, outcome))
  {
    hide Mutate, KeyAt, Admit, StepError, Rejection, Advanced;
  }

  lemma ChildStepIsTrue(sys: System, ev: Event)
    requires ev.Call? && Callable(sys, ev.key)
    requires sys.passes[ev.key].phase.Fetching? || sys.passes[ev.key].phase.Writing?
    ensures TrueStep(sys, ev)
  {
    hide FetchChild, WriteChild, KeyAt;
    var p := sys.passes[ev.key];
    assert HandlesChild(sys, ev, p.phase.i, KeyAt(p.phase.i, p.phase.cr.ToView()));
    if p.phase.Fetching? {
      FetchNotes(sys.store, p, ev.outcome);
    } else {
      WriteNotes(sys.store, p, ev.outcome);
    }
  }

  lemma DeletionStepIsTrue(sys: System, ev: Event)
    requires ev.Call? && Callable(sys, ev.key) && sys.passes[ev.key].phase.Deleting?
    ensures TrueStep(sys, ev)
  {
    hide NameFor;
    var sys' := Next(sys, ev);
    var ph := sys.passes[ev.key].phase;
    if sys'.store.objs != sys.store.objs {
      assert Removed(sys.passes[ev.key].number, ph.cr.id, ClusterKey(ph.cr.ToView(), ph.i)) in sys'.log;
    }
  }

  predicate RightlyKeyed(s: Store) {
    forall key <- s.crs :: s.crs[key].id.key == key
  }

  lemma ReleaseIsTrue(sys: System, ev: Event)
    requires RightlyKeyed(sys.store) && ev.Call? && Callable(sys, ev.key)
    requires sys.passes[ev.key].phase.DroppingFinalizer?
    ensures TrueStep(sys, ev)
  {
    hide WriteBack, Without;
  }

  lemma ResourceStepIsTrue(sys: System, ev: Event)
    requires RightlyKeyed(sys.store) && ev.Call? && Callable(sys, ev.key)
    requires var ph := sys.passes[ev.key].phase; ph.Reading? || ph.AddingFinalizer? || ph.Reporting?
    ensures TrueStep(sys, ev)
  {
    hide WriteBack, PatchStatus, ReportedStatus, Without;
  }

  lemma PerturbedTruly(s: Store, a: Action)
    requires RightlyKeyed(s)
    ensures forall e <- Perturb(s, a).1 ::
              && e.Version? && e.id.key in Perturb(s, a).0.crs
              && CurrentVersion(Perturb(s, a).0.crs[e.id.key]) == e
  {
    hide Admit, OwnerIsLive;
  }

  lemma OutsideIsTrue(sys: System, ev: Event)
    requires RightlyKeyed(sys.store) && !ev.Call?
    ensures TrueStep(sys, ev)
  {
    hide Perturb, RightlyKeyed;
    if ev.Outside? { PerturbedTruly(sys.store, ev.action); }
  }

  lemma StepsAreTrue(sys: System, ev: Event)
    requires Sound(sys)
    ensures TrueStep(sys, ev)
  {
    hide Next, TrueStep, CopyOk, LogOk, InRange;
    assert RightlyKeyed(sys.store) by {
      forall key <- sys.store.crs
        ensures sys.store.crs[key].id.key == key
      {
        assert StoredCrOk(sys, key);
      }
    }
    if !ev.Call? {
      OutsideIsTrue(sys, ev);
    } else if !Callable(sys, ev.key) {
      NothingHappens(sys, ev);
    } else if sys.passes[ev.key].phase.Fetching? || sys.passes[ev.key].phase.Writing? {
      ChildStepIsTrue(sys, ev);
    } else if sys.passes[ev.key].phase.Deleting? {
      DeletionStepIsTrue(sys, ev);
    } else if sys.passes[ev.key].phase.DroppingFinalizer? {
      ReleaseIsTrue(sys, ev);
    } else {
      ResourceStepIsTrue(sys, ev);
    }
  }

  lemma NothingHappens(sys: System, ev: Event)
    requires ev.Call? && !Callable(sys, ev.key)
    ensures TrueStep(sys, ev)
  {
  }

  /** The entry was made at step n of the run, and was true there. */
  ghost predicate MadeAt(evs: seq<Event>, e: Entry, n: nat) {
    && n < |evs|
    && var sys := Run(INITIAL, evs[..n]);
       e !in sys.log && e in Next(sys, evs[n]).log && Happened(e, sys, evs[n], Next(sys, evs[n]))
  }

  /** Over every run each entry of the log was true when it was made, and every change by a reconcile has one. */
  lemma {:induction false} LogIsTrue(evs: seq<Event>)
    requires Along(FinalizerKept, evs)
    ensures forall e <- Run(INITIAL, evs).log :: exists n: nat :: MadeAt(evs, e, n)
    ensures forall n :: 0 <= n < |evs| ==> TrueStep(Run(INITIAL, evs[..n]), evs[n])
    decreases |evs|
  {
    hide Sound, Next, TrueStep, Happened;
    if evs != [] {
      var init := evs[..|evs| - 1];
      AlongInit(FinalizerKept, evs);
      LogIsTrue(init);
      RunsAreSound(init);
      StepsAreTrue(Run(INITIAL, init), evs[|evs| - 1]);
      forall n | 0 <= n < |evs|
        ensures TrueStep(Run(INITIAL, evs[..n]), evs[n])
      {
        if n < |init| { assert evs[..n] == init[..n] && evs[n] == init[n]; }
      }
      forall e <- Run(INITIAL, evs).log
        ensures exists n: nat :: MadeAt(evs, e, n)
      {
        if e in Run(INITIAL, init).log {
          var n: nat :| MadeAt(init, e, n);
          assert evs[..n] == init[..n] && evs[n] == init[n];
          assert MadeAt(evs, e, n);
        } else {
          assert MadeAt(evs, e, |init|) by { LastEntry(evs, e); }
        }
      }
    }
  }

  lemma LastEntry(evs: seq<Event>, e: Entry)
    requires evs != [] && TrueStep(Run(INITIAL, evs[..|evs| - 1]), evs[|evs| - 1])
    requires e in Run(INITIAL, evs).log && e !in Run(INITIAL, evs[..|evs| - 1]).log
    ensures MadeAt(evs, e, |evs| - 1)
  {
    hide Next, Happened, Recorded;
  }
}
