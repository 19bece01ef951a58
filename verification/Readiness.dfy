/** What the Ready condition and the observed generation mean over whole runs. */
module Readiness {
  import opened Wrappers
  import opened Api
  import opened Objects
  import opened Components
  import opened Laws
  import opened Conditions
  import opened Operator
  import opened Passes
  import opened Runs
  import opened Numbering

  ghost predicate StepDone(log: set<Entry>, number: nat, v: View, g: nat, j: nat) {
    exists o :: Done(number, v, g, j, o) in log
  }

  /** The first n steps of one pass each left its child as this version of the resource wants it. */
  ghost predicate StepsDone(log: set<Entry>, number: nat, v: View, g: nat, n: nat) {
    forall j: nat :: j < n ==> StepDone(log, number, v, g, j)
  }

  /** Some single pass did all twelve steps on the spec of this generation. */
  ghost predicate Earned(log: set<Entry>, id: CrId, g: nat) {
    exists number: nat, spec :: Version(id, g, spec) in log && StepsDone(log, number, View(id, spec), g, COUNT)
  }

  function StepsOf(ph: Phase): nat {
    match ph
    case Fetching(_, i) => i
    case Writing(_, i, _) => i
    case Reporting(_, verdict) => if verdict.Reconciled? then COUNT else 0
    case _ => 0
  }

  ghost predicate PassTrusted(sys: System, key: CrKey, p: Pass)
    requires HasCopy(p.phase)
  {
    var cr := p.phase.cr;
    && UniqueKinds(cr.status.conditions)
    && (Live(sys.store, cr.id) ==> sys.store.crs[cr.id.key].status == cr.status)
    && StepsDone(sys.log, p.number, cr.ToView(), cr.generation, StepsOf(p.phase))
  }

  ghost predicate CrTrusted(sys: System, cr: Kubeshark) {
    && UniqueKinds(cr.status.conditions)
    && forall g: nat :: ReadyAt(cr.status, g) ==> Earned(sys.log, cr.id, g)
  }

  ghost predicate Trusted(sys: System) {
    && AllStored(sys.store.objs)
    && (forall e <- sys.log :: e.Done? ==> e.i < COUNT && Conforms(ORDER[e.i], e.view, e.obj))
    && (forall key <- sys.store.crs :: CrTrusted(sys, sys.store.crs[key]))
    && (forall key <- sys.passes :: HasCopy(sys.passes[key].phase) ==> PassTrusted(sys, key, sys.passes[key]))
  }

  lemma StepsStay(log: set<Entry>, log': set<Entry>, number: nat, v: View, g: nat, n: nat)
    requires log <= log' && StepsDone(log, number, v, g, n)
    ensures StepsDone(log', number, v, g, n)
  {
    forall j: nat | j < n
      ensures StepDone(log', number, v, g, j)
    {
      assert StepDone(log, number, v, g, j);
      var o :| Done(number, v, g, j, o) in log;
      assert Done(number, v, g, j, o) in log';
    }
  }

  lemma EarnedStays(log: set<Entry>, log': set<Entry>, id: CrId, g: nat)
    requires log <= log' && Earned(log, id, g)
    ensures Earned(log', id, g)
  {
    var number: nat, spec :| Version(id, g, spec) in log && StepsDone(log, number, View(id, spec), g, COUNT);
    StepsStay(log, log', number, View(id, spec), g, COUNT);
    assert Version(id, g, spec) in log';
  }

  lemma CrStaysTrusted(sys: System, sys': System, cr: Kubeshark, cr': Kubeshark)
    requires CrTrusted(sys, cr) && sys.log <= sys'.log && cr'.id == cr.id && cr'.status == cr.status
    ensures CrTrusted(sys', cr')
  {
    forall g: nat | ReadyAt(cr'.status, g)
      ensures Earned(sys'.log, cr'.id, g)
    {
      EarnedStays(sys.log, sys'.log, cr.id, g);
    }
  }

  /** Nothing about statuses happens, and new steps are vouched for separately. */
  ghost predicate SameStatuses(sys: System, sys': System) {
    && sys.log <= sys'.log
    && (forall k <- sys'.store.crs ::
          || (k in sys.store.crs && sys'.store.crs[k].id == sys.store.crs[k].id
              && sys'.store.crs[k].status == sys.store.crs[k].status)
          || (sys'.store.crs[k].status == EMPTY_STATUS && sys'.store.crs[k].id.uid >= sys.store.nextUid))
  }

  lemma NewStatusIsTrusted(sys: System, cr: Kubeshark)
    requires cr.status == EMPTY_STATUS
    ensures CrTrusted(sys, cr)
  {
  }

  lemma CrsStayTrusted(sys: System, sys': System)
    requires Trusted(sys) && SameStatuses(sys, sys')
    ensures forall key <- sys'.store.crs :: CrTrusted(sys', sys'.store.crs[key])
  {
    forall k <- sys'.store.crs
      ensures CrTrusted(sys', sys'.store.crs[k])
    {
      if sys'.store.crs[k].status == EMPTY_STATUS {
        NewStatusIsTrusted(sys', sys'.store.crs[k]);
      } else {
        CrStaysTrusted(sys, sys', sys.store.crs[k], sys'.store.crs[k]);
      }
    }
  }

  lemma PassStaysTrusted(sys: System, sys': System, key: CrKey, p: Pass, ph: Phase)
    requires Sound(sys) && HasCopy(p.phase) && PassTrusted(sys, key, p) && CopyOk(sys, key, p)
    requires SameStatuses(sys, sys')
    requires HasCopy(ph) && ph.cr.id == p.phase.cr.id && ph.cr.status == p.phase.cr.status
    requires StepsOf(ph) == 0 || (StepsOf(ph) == StepsOf(p.phase) && ph.cr == p.phase.cr)
    ensures PassTrusted(sys', key, Pass(p.number, ph))
  {
    hide StepsDone, StoredCrOk, LogOk;
    if StepsOf(ph) != 0 {
      StepsStay(sys.log, sys'.log, p.number, p.phase.cr.ToView(), p.phase.cr.generation, StepsOf(ph));
    } else {
      NoStepsDone(sys'.log, p.number, ph.cr.ToView(), ph.cr.generation);
    }
  }

  lemma NoStepsDone(log: set<Entry>, number: nat, v: View, g: nat)
    ensures StepsDone(log, number, v, g, 0)
  {
  }

  /** Steps other than the children's calls, reads and reports. */
  lemma QuietTrust(sys: System, sys': System)
    requires Sound(sys) && Trusted(sys) && SameStatuses(sys, sys') && AllStored(sys'.store.objs)
    requires forall e <- sys'.log :: e in sys.log || !e.Done?
    requires forall k <- sys'.passes ::
               || sys'.passes[k].phase.Reading?
               || (&& k in sys.passes && HasCopy(sys.passes[k].phase) && sys'.passes[k].number == sys.passes[k].number
                   && var ph, ph' := sys.passes[k].phase, sys'.passes[k].phase;
                      HasCopy(ph') && ph'.cr.id == ph.cr.id && ph'.cr.status == ph.cr.status
                      && (StepsOf(ph') == 0 || ph' == ph))
    ensures Trusted(sys')
  {
    hide CrTrusted, PassTrusted, CopyOk, StoredCrOk, LogOk, Conforms;
    CrsStayTrusted(sys, sys');
    forall k <- sys'.passes
      ensures HasCopy(sys'.passes[k].phase) ==> PassTrusted(sys', k, sys'.passes[k])
    {
      if HasCopy(sys'.passes[k].phase) {
        PassStaysTrusted(sys, sys', k, sys.passes[k], sys'.passes[k].phase);
      }
    }
  }

  lemma OutsideStatuses(sys: System, a: Action)
    ensures var sys' := Next(sys, Outside(a));
            && SameStatuses(sys, sys') && sys'.passes == sys.passes
            && forall e <- sys'.log :: e in sys.log || !e.Done?
  {
    hide Perturb;
    PerturbHasShape(sys.store, a);
  }

  lemma OutsideTrust(sys: System, a: Action)
    requires Sound(sys) && Trusted(sys)
    ensures Trusted(Next(sys, Outside(a)))
  {
    hide Next, Sound, SameStatuses, AllStored, CrTrusted, PassTrusted;
    OutsideStored(sys, a);
    OutsideStatuses(sys, a);
    QuietTrust(sys, Next(sys, Outside(a)));
  }

  lemma OutsideStored(sys: System, a: Action)
    requires AllStored(sys.store.objs)
    ensures AllStored(Next(sys, Outside(a)).store.objs)
  {
    hide DefaultBody;
    if a.Drift? && a.content.Some? {
      AdmitIdempotent(a.obj, a.content.value);
    }
  }

  // ----- Calls -----

  lemma ReadKinds(sys: System, cr: Kubeshark)
    requires CrTrusted(sys, cr)
    ensures UniqueKinds(cr.status.conditions)
  {
  }

  lemma ReadTrust(sys: System, key: CrKey, outcome: Outcome, now: nat)
    requires Sound(sys) && Trusted(sys) && key in sys.passes && sys.passes[key].phase.Reading?
    ensures Trusted(Next(sys, Call(key, outcome, now)))
  {
    hide AllStored, StepsDone, LogOk, Conforms, CopyOk, CrTrusted, FetchChild, WriteChild, DeleteCluster, DropFinalizer;
    hide Report, PutFinalizer;
    var p := sys.passes[key];
    var sys' := Next(sys, Call(key, outcome, now));
    CrsStayTrusted(sys, sys');
    forall k <- sys'.passes
      ensures HasCopy(sys'.passes[k].phase) ==> PassTrusted(sys', k, sys'.passes[k])
    {
      if k == key {
        var cr := sys'.passes[key].phase.cr;
        ReadKinds(sys, cr);
        NoStepsDone(sys'.log, p.number, cr.ToView(), cr.generation);
      } else if HasCopy(sys.passes[k].phase) {
        PassStaysTrusted(sys, sys', k, sys.passes[k], sys.passes[k].phase);
      }
    }
  }

  /** Finalizer writes and deletions leave all statuses, and the status of the copy, as they are. */
  ghost predicate FinalizerCall(sys: System, sys': System, key: CrKey) {
    && SameStatuses(sys, sys') && sys'.store.objs.Items <= sys.store.objs.Items
    && (forall e <- sys'.log :: e in sys.log || !e.Done?)
    && (forall k <- sys'.passes ::
          && k in sys.passes && sys'.passes[k].number == sys.passes[k].number
          && var ph, ph' := sys.passes[k].phase, sys'.passes[k].phase;
             ph' == ph || (k == key && HasCopy(ph') && HasCopy(ph) && ph'.cr.id == ph.cr.id
                           && ph'.cr.status == ph.cr.status && StepsOf(ph') == 0))
  }

  lemma AddingCall(sys: System, key: CrKey, outcome: Outcome, now: nat)
    requires key in sys.passes && sys.passes[key].phase.AddingFinalizer?
    ensures FinalizerCall(sys, Next(sys, Call(key, outcome, now)), key)
  {
    hide WriteBack;
  }

  lemma DeletingCall(sys: System, key: CrKey, outcome: Outcome, now: nat)
    requires key in sys.passes && sys.passes[key].phase.Deleting?
    ensures FinalizerCall(sys, Next(sys, Call(key, outcome, now)), key)
  {
    hide ClusterKey;
  }

  lemma DroppingCall(sys: System, key: CrKey, outcome: Outcome, now: nat)
    requires key in sys.passes && sys.passes[key].phase.DroppingFinalizer?
    ensures FinalizerCall(sys, Next(sys, Call(key, outcome, now)), key)
  {
    hide DropFinalizer, Without;
    DropHasShape(sys.store, sys.passes[key].number, key, sys.passes[key].phase.cr, outcome);
  }

  lemma FewerStored(objs: map<ObjKey, Object>, objs': map<ObjKey, Object>)
    requires AllStored(objs) && objs'.Items <= objs.Items
    ensures AllStored(objs')
  {
    hide Stored;
    forall k <- objs'
      ensures Stored(k, objs'[k])
    {
      assert (k, objs'[k]) in objs'.Items;
    }
  }

  lemma FinalizerTrust(sys: System, key: CrKey, outcome: Outcome, now: nat)
    requires Sound(sys) && Trusted(sys) && key in sys.passes
    requires var ph := sys.passes[key].phase; ph.AddingFinalizer? || ph.Deleting? || ph.DroppingFinalizer?
    ensures Trusted(Next(sys, Call(key, outcome, now)))
  {
    hide Next, Sound, SameStatuses, AllStored, CrTrusted, PassTrusted, Conforms;
    match sys.passes[key].phase {
      case AddingFinalizer(_) => AddingCall(sys, key, outcome, now);
      case Deleting(_, _) => DeletingCall(sys, key, outcome, now);
      case DroppingFinalizer(_) => DroppingCall(sys, key, outcome, now);
    }
    FewerStored(sys.store.objs, Next(sys, Call(key, outcome, now)).store.objs);
    QuietTrust(sys, Next(sys, Call(key, outcome, now)));
  }

  lemma ChildTrust(sys: System, key: CrKey, outcome: Outcome, now: nat)
    requires Sound(sys) && Trusted(sys) && key in sys.passes
    requires sys.passes[key].phase.Fetching? || sys.passes[key].phase.Writing?
    ensures Trusted(Next(sys, Call(key, outcome, now)))
  {
    hide FetchChild, WriteChild, Put, Shape, KeyAt, Blocked, OwnerBlocks, StoredCrOk, LogOk, Conforms, CrTrusted,
         PassTrusted, AllStored, CopyOk;
    var p := sys.passes[key];
    var e := Serve(sys.store, key, p, outcome, now);
    var sys' := Next(sys, Call(key, outcome, now));
    ChildHasShape(sys.store, key, p, outcome, now);
    ChildEffectStored(sys.store, p, e);
    ChildDoneConforms(sys.store, p, e);
    CrsStayTrusted(sys, sys');
    forall k <- sys'.passes
      ensures HasCopy(sys'.passes[k].phase) ==> PassTrusted(sys', k, sys'.passes[k])
    {
      if k == key {
        ChildPassTrusted(sys, sys', key, p, e);
      } else if HasCopy(sys.passes[k].phase) {
        PassStaysTrusted(sys, sys', k, sys.passes[k], sys.passes[k].phase);
      }
    }
  }

  lemma ChildEffectStored(s: Store, p: Pass, e: Effect)
    requires InRange(p.phase) && (p.phase.Fetching? || p.phase.Writing?) && ChildShape(s, p, e)
    requires AllStored(s.objs)
    ensures AllStored(e.store.objs)
  {
    hide Put, Shape, Blocked, OwnerBlocks;
    if p.phase.Writing? {
      PutIsStored(ORDER[p.phase.i], p.phase.cr.ToView(), p.phase.seen);
    }
  }

  lemma ChildDoneConforms(s: Store, p: Pass, e: Effect)
    requires InRange(p.phase) && (p.phase.Fetching? || p.phase.Writing?) && ChildShape(s, p, e)
    requires AllStored(s.objs)
    ensures forall n <- e.notes :: n.Done? ==> n.i < COUNT && Conforms(ORDER[n.i], n.view, n.obj)
  {
    hide Conforms, OwnerBlocks, FieldBlocks, ShapeBody, DefaultBody;
    var c, v := ORDER[p.phase.i], p.phase.cr.ToView();
    if p.phase.Fetching? {
      var x := Lookup(s.objs, KeyAt(p.phase.i, v));
      if x.Some? && Shape(c, v, Owned(c, v, x.value)) == x.value {
        UnchangedIsPut(c, v, x.value);
      }
      PutConforms(c, v, x);
    } else {
      PutConforms(c, v, p.phase.seen);
    }
  }

  lemma OneMoreStep(log: set<Entry>, number: nat, v: View, g: nat, i: nat, o: Object)
    requires StepsDone(log, number, v, g, i) && Done(number, v, g, i, o) in log
    ensures StepsDone(log, number, v, g, i + 1)
  {
    assert StepDone(log, number, v, g, i);
  }

  lemma ChildPassTrusted(sys: System, sys': System, key: CrKey, p: Pass, e: Effect)
    requires InRange(p.phase) && (p.phase.Fetching? || p.phase.Writing?) && ChildShape(sys.store, p, e)
    requires PassTrusted(sys, key, p)
    requires sys'.store.crs == sys.store.crs && sys'.log == sys.log + e.notes
    ensures e.next.Some? && HasCopy(e.next.value) && PassTrusted(sys', key, Pass(p.number, e.next.value))
  {
    hide Put, Shape, KeyAt, Blocked, OwnerBlocks, UniqueKinds, StepDone;
    var cr := p.phase.cr;
    StepsStay(sys.log, sys'.log, p.number, cr.ToView(), cr.generation, p.phase.i);
    NoStepsDone(sys'.log, p.number, cr.ToView(), cr.generation);
    if e.next == Some(Advanced(cr, p.phase.i)) {
      var d :| d in e.notes && d.Done?;
      OneMoreStep(sys'.log, p.number, cr.ToView(), cr.generation, p.phase.i, d.obj);
    }
  }

  // ----- Reports -----

  lemma FailureEarnsNothing(stored: Status, cr: Kubeshark, verdict: Verdict, now: nat, g: nat)
    requires UniqueKinds(stored.conditions) && UniqueKinds(cr.status.conditions)
    ensures var status := PatchStatus(stored, cr.status, ReportedStatus(cr, verdict, now));
            && UniqueKinds(status.conditions)
            && (ReadyAt(status, g) ==> ReadyAt(stored, g) || (verdict.Reconciled? && g == cr.generation))
  {
    ReportShowsVerdict(cr, verdict, now, g);
    var r := ReportedStatus(cr, verdict, now);
    var status := PatchStatus(stored, cr.status, r);
    if status.conditions == r.conditions {
      assert ReadyAt(status, g) <==> ReadyAt(r, g);
    } else {
      assert ReadyAt(status, g) <==> ReadyAt(stored, g);
    }
  }

  lemma ReportTrust(sys: System, key: CrKey, outcome: Outcome, now: nat)
    requires Sound(sys) && Trusted(sys) && key in sys.passes && sys.passes[key].phase.Reporting?
    ensures Trusted(Next(sys, Call(key, outcome, now)))
  {
    hide AllStored, StepsDone, LogOk, Conforms, CopyOk, StoredCrOk, PatchStatus, ReportedStatus, Earned, UniqueKinds,
         ReadyAt;
    var p := sys.passes[key];
    var cr := p.phase.cr;
    var sys' := Next(sys, Call(key, outcome, now));
    assert sys'.log == sys.log;
    forall k <- sys'.store.crs
      ensures CrTrusted(sys', sys'.store.crs[k])
    {
      assert CrTrusted(sys, sys.store.crs[k]);
      if k == key && sys'.store.crs[k] != sys.store.crs[k] {
        ReportedIsTrusted(sys, sys', key, p, now);
      }
    }
    forall k <- sys'.passes
      ensures HasCopy(sys'.passes[k].phase) ==> PassTrusted(sys', k, sys'.passes[k])
    {
      if HasCopy(sys'.passes[k].phase) { CopyKey(sys, k, sys.passes[k]); }
    }
  }

  lemma CopyKey(sys: System, key: CrKey, p: Pass)
    requires HasCopy(p.phase) && CopyOk(sys, key, p)
    ensures p.phase.cr.id.key == key
  {
  }

  lemma ReportedIsTrusted(sys: System, sys': System, key: CrKey, p: Pass, now: nat)
    requires Sound(sys) && p.phase.Reporting? && CopyOk(sys, key, p) && PassTrusted(sys, key, p)
    requires key in sys.store.crs && CrTrusted(sys, sys.store.crs[key]) && sys'.log == sys.log
    requires key in sys'.store.crs && sys'.store.crs[key].id == sys.store.crs[key].id
    requires sys'.store.crs[key].status ==
               PatchStatus(sys.store.crs[key].status, p.phase.cr.status, ReportedStatus(p.phase.cr, p.phase.verdict,
                   now))
    ensures CrTrusted(sys', sys'.store.crs[key])
  {
    hide PatchStatus, ReportedStatus, StoredCrOk, LogOk, StepsDone, UniqueKinds, ReadyAt;
    var cr := p.phase.cr;
    FailureEarnsNothing(sys.store.crs[key].status, cr, p.phase.verdict, now, 0);
    forall g: nat | ReadyAt(sys'.store.crs[key].status, g)
      ensures Earned(sys'.log, sys'.store.crs[key].id, g)
    {
      FailureEarnsNothing(sys.store.crs[key].status, cr, p.phase.verdict, now, g);
      if p.phase.verdict.Reconciled? && g == cr.generation {
        assert Version(cr.id, g, cr.spec) in sys.log && StepsDone(sys.log, p.number, View(cr.id, cr.spec), g, COUNT);
      }
    }
  }

  lemma NextTrusted(sys: System, ev: Event)
    requires Sound(sys) && Trusted(sys)
    ensures Trusted(Next(sys, ev))
  {
    match ev {
      case Start(_) => QuietTrust(sys, Next(sys, ev));
      case Crash(_) => QuietTrust(sys, Next(sys, ev));
      case Outside(a) => OutsideTrust(sys, a);
      case Call(key, outcome, now) =>
        if key !in sys.passes {
          assert Next(sys, ev) == sys;
        } else {
          match sys.passes[key].phase {
            case Reading => ReadTrust(sys, key, outcome, now);
            case Fetching(_, _) => ChildTrust(sys, key, outcome, now);
            case Writing(_, _, _) => ChildTrust(sys, key, outcome, now);
            case Reporting(_, _) => ReportTrust(sys, key, outcome, now);
            case _ => FinalizerTrust(sys, key, outcome, now);
          }
        }
    }
  }

  lemma {:induction false} RunsAreTrusted(evs: seq<Event>)
    requires Along(FinalizerKept, evs)
    ensures Sound(Run(INITIAL, evs)) && Trusted(Run(INITIAL, evs))
    decreases |evs|
  {
    hide Sound, Trusted, Along, Next;
    if evs != [] {
      AlongInit(FinalizerKept, evs);
      RunsAreTrusted(evs[..|evs| - 1]);
      NextKeeps(Run(INITIAL, evs[..|evs| - 1]), evs[|evs| - 1]);
      NextTrusted(Run(INITIAL, evs[..|evs| - 1]), evs[|evs| - 1]);
    } else {
      InitiallyTrusted();
    }
  }

  lemma InitiallyTrusted()
    ensures Sound(INITIAL) && Trusted(INITIAL)
  {
  }

  /**
   Soundness of Ready. Over every run, with edits, failures and crashes between any two calls: a stored
   Ready=True at generation g means that one single pass did all twelve steps on the spec of generation g,
   each leaving its child as that spec wants it, and nothing else; and a resource has one Ready condition.
   */
  lemma ReadyIsSound(evs: seq<Event>, key: CrKey, g: nat)
    requires Along(FinalizerKept, evs)
    requires key in Run(INITIAL, evs).store.crs
    requires ReadyAt(Run(INITIAL, evs).store.crs[key].status, g)
    ensures var sys := Run(INITIAL, evs);
            var cr := sys.store.crs[key];
            && UniqueKinds(cr.status.conditions)
            && exists number: nat, spec :: OnePassDidAll(sys.log, cr, g, number, spec)
  {
    hide Sound, Trusted, Numbered;
    RunsAreTrusted(evs);
    RunsAreNumbered(evs);
    EarnedMeans(Run(INITIAL, evs), key, g);
  }

  /** In pass `number` step j saw or left the child as the view wants it. */
  ghost predicate ConformedOnce(log: set<Entry>, number: nat, v: View, g: nat, j: nat)
    requires j < COUNT
  {
    exists o :: Done(number, v, g, j, o) in log && Conforms(ORDER[j], v, o)
  }

  ghost predicate OnePassDidAll(log: set<Entry>, cr: Kubeshark, g: nat, number: nat, spec: Spec) {
    && Version(cr.id, g, spec) in log
    && (g == cr.generation ==> spec == cr.spec)
    && (forall j: nat :: j < COUNT ==> ConformedOnce(log, number, View(cr.id, spec), g, j))
    && (forall e <- log :: e.Done? && e.number == number ==> e.view == View(cr.id, spec) && e.generation == g)
  }

  lemma EarnedMeans(sys: System, key: CrKey, g: nat)
    requires Sound(sys) && Trusted(sys) && Numbered(sys)
    requires key in sys.store.crs && ReadyAt(sys.store.crs[key].status, g)
    ensures var cr := sys.store.crs[key];
            && UniqueKinds(cr.status.conditions)
            && exists number: nat, spec :: OnePassDidAll(sys.log, cr, g, number, spec)
  {
    hide Conforms;
    var cr := sys.store.crs[key];
    assert CrTrusted(sys, cr);
    assert Earned(sys.log, cr.id, g);
    var number: nat, spec :|
      Version(cr.id, g, spec) in sys.log && StepsDone(sys.log, number, View(cr.id, spec), g, COUNT);
    assert StoredCrOk(sys, key);
    forall j: nat | j < COUNT
      ensures ConformedOnce(sys.log, number, View(cr.id, spec), g, j)
    {
      assert StepDone(sys.log, number, View(cr.id, spec), g, j);
      var o :| Done(number, View(cr.id, spec), g, j, o) in sys.log;
    }
    assert ConformedOnce(sys.log, number, View(cr.id, spec), g, 0);
    assert OnePassDidAll(sys.log, cr, g, number, spec);
  }
}
