/**
 What a reconcile returns: the error of the first of its calls that fails, and none exactly if it ended well. The
 recursive answer is computed from the last call alone; the account of it goes by all the calls that were made.
 */
module Answers {
  import opened Wrappers
  import opened Api
  import opened Objects
  import opened Components
  import opened Laws
  import opened Conditions
  import opened Operator
  import opened Passes

  // ----- The answer, read off the last call -----

  /** Why an update of the resource last seen as `version` fails, if it does. */
  function UpdateError(s: Store, key: CrKey, version: Kubeshark, outcome: Outcome): Option<string> {
    if outcome.Refused? then Some(outcome.why)
    else if key !in s.crs then Some("not found")
    else if s.crs[key] != version then Some("the object has been modified")
    else if outcome.Lost? then Some(outcome.why)
    else None
  }

  function PatchError(s: Store, key: CrKey, outcome: Outcome): Option<string> {
    if outcome.Refused? then Some(outcome.why)
    else if key !in s.crs then Some("not found")
    else if outcome.Lost? then Some(outcome.why)
    else None
  }

  /** The error a reconcile returns when the call of this phase is its last. */
  function LastAnswer(s: Store, key: CrKey, ph: Phase, outcome: Outcome): Option<string> {
    match ph
    case Reading => if outcome.Served? then None else Some(outcome.why)
    case AddingFinalizer(cr) => UpdateError(s, key, cr, outcome)
    case Reporting(_, StepFailed(why)) => Some(why)
    case Reporting(_, DeleteFailed(why)) => Some(why)
    case Reporting(_, Reconciled) =>
      if PatchError(s, key, outcome).Some? then Some("patch status: " + PatchError(s, key, outcome).value) else None
    case _ => None
  }

  function Answer(sys: System, key: CrKey, script: Script, pos: nat): Option<string>
    decreases RankOf(sys, key)
  {
    if !Callable(sys, key) then None
    else
      OneCallRanksDown(sys, key, script(pos));
      var sys' := OneCall(sys, key, script(pos));
      if key in sys'.passes then Answer(sys', key, script, pos + 1)
      else LastAnswer(Interfere(sys, script(pos).before, key).store, key, sys.passes[key].phase, script(pos).outcome)
  }

  // ----- The calls of a reconcile -----

  /** The state after n calls, the first under turn `pos` of the script. */
  function After(sys: System, key: CrKey, script: Script, pos: nat, n: nat): System
    decreases n
  {
    if n == 0 then sys else After(OneCall(sys, key, script(pos)), key, script, pos + 1, n - 1)
  }

  /** One call: what the reconcile is about to do, the store it finds, how the call goes, and the time. */
  datatype Moment = Moment(phase: Phase, store: Store, outcome: Outcome, now: nat)

  function MomentAt(sys: System, key: CrKey, script: Script, pos: nat, n: nat): Moment
    requires key in After(sys, key, script, pos, n).passes
  {
    var at, turn := After(sys, key, script, pos, n), script(pos + n);
    Moment(at.passes[key].phase, Interfere(at, turn.before, key).store, turn.outcome, turn.now)
  }

  /** The reconcile makes calls 0 to `last` and no more. */
  ghost predicate Makes(sys: System, key: CrKey, script: Script, pos: nat, last: nat) {
    && (forall n: nat :: n <= last ==> key in After(sys, key, script, pos, n).passes)
    && key !in After(sys, key, script, pos, last + 1).passes
  }

  // ----- How one call can fail -----

  function Unanswered(outcome: Outcome): Option<string> {
    if outcome.Served? then None else Some(outcome.why)
  }

  /** The error of one call, if it fails: the server's, the conflict's, or the callback's. An absent object is none. */
  function CallError(m: Moment, key: CrKey): Option<string>
    requires InRange(m.phase)
  {
    match m.phase
    case Reading => Unanswered(m.outcome)
    case AddingFinalizer(cr) => Conflict(m, key, cr)
    case DroppingFinalizer(cr) => Conflict(m, key, cr)
    case Deleting(_, _) => Unanswered(m.outcome)
    case Fetching(cr, i) =>
      var k := KeyAt(i, cr.ToView());
      if !m.outcome.Served? then Some(m.outcome.why)
      else if !ClusterScoped(k) && k in m.store.objs && OwnedByAnother(cr.ToView(), m.store.objs[k])
      then Some("already owned by another controller")
      else None
    case Writing(cr, i, seen) =>
      var k := KeyAt(i, cr.ToView());
      if m.outcome.Refused? then Some(m.outcome.why)
      else if seen.None? && k in m.store.objs then Some("already exists")
      else if seen.Some? && k !in m.store.objs then Some("not found")
      else if seen.Some? && m.store.objs[k] != seen.value then Some("the object has been modified")
      else if Blocked(ORDER[i], cr.ToView(), seen) then Some("field is immutable")
      else Unanswered(m.outcome)
    case Reporting(_, _) =>
      if m.outcome.Refused? then Some(m.outcome.why)
      else if key !in m.store.crs then Some("not found")
      else Unanswered(m.outcome)
  }

  /** An update of the resource fails too if it is gone or no longer as it was read. */
  function Conflict(m: Moment, key: CrKey, cr: Kubeshark): Option<string> {
    if m.outcome.Refused? then Some(m.outcome.why)
    else if key !in m.store.crs then Some("not found")
    else if m.store.crs[key] != cr then Some("the object has been modified")
    else Unanswered(m.outcome)
  }

  /** What the caller wraps around the error of a call. */
  function Wrapped(ph: Phase, why: string): string {
    match ph
    case Fetching(_, i) => StepText(i, why)
    case Writing(_, i, _) => StepText(i, why)
    case Reporting(_, _) => "patch status: " + why
    case _ => why
  }

  function StepText(i: nat, why: string): string {
    if i == 2 then "hub Deployment: " + why
    else if i == 5 then "ClusterRole: " + why
    else if i == 6 then "ClusterRoleBinding: " + why
    else if i == 8 then "frontend Deployment: " + why
    else why
  }

  // ----- The account -----

  /** Call n is the first to fail. */
  ghost predicate FirstToFail(sys: System, key: CrKey, script: Script, pos: nat, last: nat, n: nat)
    requires Makes(sys, key, script, pos, last)
  {
    && n <= last && Fails(sys, key, script, pos, n)
    && forall j: nat :: j < n ==> !Fails(sys, key, script, pos, j)
  }

  ghost predicate Fails(sys: System, key: CrKey, script: Script, pos: nat, n: nat)
    requires key in After(sys, key, script, pos, n).passes
  {
    var m := MomentAt(sys, key, script, pos, n);
    InRange(m.phase) && CallError(m, key).Some?
  }

  /**
   The error returned is that of call n, wrapped. After a failed read, finalizer update or success report nothing
   follows; after a failed step or deletion one last call reports the very error, and its own failure is ignored.
   */
  ghost predicate ReturnsErrorOf(sys: System, key: CrKey, script: Script, pos: nat, last: nat, n: nat, err: string)
    requires Makes(sys, key, script, pos, last) && n <= last && Fails(sys, key, script, pos, n)
  {
    var m := MomentAt(sys, key, script, pos, n);
    && err == Wrapped(m.phase, CallError(m, key).value)
    && match m.phase
       case Reading => n == last
       case AddingFinalizer(_) => n == last
       case Reporting(_, verdict) => n == last && verdict == Reconciled
       case Fetching(_, _) => n + 1 == last && Tells(MomentAt(sys, key, script, pos, last).phase, StepFailed(err))
       case Writing(_, _, _) => n + 1 == last && Tells(MomentAt(sys, key, script, pos, last).phase, StepFailed(err))
       case Deleting(_, _) => n + 1 == last && Tells(MomentAt(sys, key, script, pos, last).phase, DeleteFailed(err))
       case DroppingFinalizer(_) =>
         n + 1 == last && Tells(MomentAt(sys, key, script, pos, last).phase, DeleteFailed(err))
  }

  predicate Tells(ph: Phase, verdict: Verdict) {
    ph.Reporting? && ph.verdict == verdict
  }

  /**
   The last call was answered, and it found the resource absent or already released, gave it its finalizer, took the
   finalizer from it, or reported success in its status.
   */
  predicate EndsWell(m: Moment, key: CrKey, after: Store) {
    && m.outcome.Served?
    && match m.phase
       case Reading =>
         key in m.store.crs ==>
           m.store.crs[key].deleting && "kubeshark.opstreelabs.in/finalizer" !in m.store.crs[key].finalizers
       case AddingFinalizer(cr) =>
         && key in m.store.crs && m.store.crs[key] == cr
         && !cr.deleting && "kubeshark.opstreelabs.in/finalizer" !in cr.finalizers
         && key in after.crs
         && Updated(cr, after.crs[key], cr.finalizers + ["kubeshark.opstreelabs.in/finalizer"])
       case DroppingFinalizer(cr) =>
         && key in m.store.crs && m.store.crs[key] == cr
         && cr.deleting && "kubeshark.opstreelabs.in/finalizer" in cr.finalizers
         && (key in after.crs ==> "kubeshark.opstreelabs.in/finalizer" !in after.crs[key].finalizers)
       case Reporting(cr, verdict) =>
         && verdict == Reconciled && key in m.store.crs && key in after.crs
         && after.crs[key] == m.store.crs[key].(status :=
              Conditions.PatchStatus(m.store.crs[key].status, cr.status, ReportedStatus(cr, Reconciled, m.now)))
       case _ => false
  }

  /** The answer is right: none exactly if the last call ended well, else the error of the first call that failed. */
  ghost predicate Accounted(sys: System, key: CrKey, script: Script, pos: nat, last: nat, err: Option<string>)
    requires Makes(sys, key, script, pos, last)
  {
    && (err.None? <==> EndsWell(MomentAt(sys, key, script, pos, last), key,
                                After(sys, key, script, pos, last + 1).store))
    && (err.None? <==> forall n: nat :: n <= last ==> !Fails(sys, key, script, pos, n))
    && (err.Some? ==> exists n: nat :: FirstToFail(sys, key, script, pos, last, n)
                                       && ReturnsErrorOf(sys, key, script, pos, last, n, err.value))
  }

  ghost predicate Returns(sys: System, key: CrKey, script: Script, pos: nat, err: Option<string>) {
    exists last: nat :: Makes(sys, key, script, pos, last) && Accounted(sys, key, script, pos, last, err)
  }

  // ----- One call -----

  /** The copy is one that the phase can have been reached with. */
  predicate Proper(ph: Phase) {
    match ph
    case Reading => true
    case AddingFinalizer(cr) => !cr.deleting && !HasFinalizer(cr)
    case Fetching(cr, _) => true
    case Writing(cr, i, seen) => i < COUNT && !OwnerBlocks(ORDER[i], cr.ToView(), seen)
    case Deleting(cr, _) => cr.deleting && HasFinalizer(cr)
    case DroppingFinalizer(cr) => cr.deleting && HasFinalizer(cr)
    case Reporting(_, verdict) => verdict == Reconciled
  }

  predicate Steady(sys: System, key: CrKey) {
    Callable(sys, key) && Proper(sys.passes[key].phase)
  }

  /** The report that follows a failed call. */
  function Verdicted(ph: Phase, err: string): Verdict {
    if ph.Fetching? || ph.Writing? then StepFailed(err) else DeleteFailed(err)
  }

  lemma StepTold(i: nat, why: string)
    requires i < COUNT
    ensures StepError(i, why) == StepFailed(StepText(i, why))
  {
  }

  /** A callback refuses nothing but another controller's object. */
  lemma CallbackRefuses(i: nat, v: View, x: Option<Object>)
    requires i < COUNT
    ensures var r := Mutate(ORDER[i], v, Found(ORDER[i], x));
            && (r.Err? <==> OwnerBlocks(ORDER[i], v, x))
            && (r.Err? ==> r.why == "already owned by another controller")
            && (r.Ok? ==> r.value.body == ShapeBody(ORDER[i], v, Found(ORDER[i], x).body))
    ensures OwnerBlocks(ORDER[i], v, x) <==>
              !ClusterScoped(KeyAt(i, v)) && x.Some? && OwnedByAnother(v, x.value)
  {
    hide ShapeBody, NameFor, BlankBody;
  }

  lemma FetchServed(s: Store, key: CrKey, p: Pass, outcome: Outcome, now: nat)
    requires p.phase.Fetching? && InRange(p.phase)
    ensures var e := CallError(Moment(p.phase, s, outcome, now), key);
            var next := Serve(s, key, p, outcome, now).next;
            && next.Some?
            && if e.None? then Proper(next.value)
               else Tells(next.value, StepFailed(Wrapped(p.phase, e.value)))
  {
    hide Mutate, KeyAt, StepError, StepText, OwnerBlocks, OwnedByAnother, ClusterScoped, Found;
    var v, i := p.phase.cr.ToView(), p.phase.i;
    CallbackRefuses(i, v, Lookup(s.objs, KeyAt(i, v)));
    if !outcome.Served? { StepTold(i, outcome.why); }
    StepTold(i, "already owned by another controller");
  }

  lemma WriteServed(s: Store, key: CrKey, p: Pass, outcome: Outcome, now: nat)
    requires p.phase.Writing? && Proper(p.phase)
    ensures var e := CallError(Moment(p.phase, s, outcome, now), key);
            var next := Serve(s, key, p, outcome, now).next;
            && next.Some?
            && if e.None? then Proper(next.value)
               else Tells(next.value, StepFailed(Wrapped(p.phase, e.value)))
  {
    hide Mutate, KeyAt, StepError, StepText, OwnerBlocks, ShapeBody, ImmutableKept, Admit;
    var v, i := p.phase.cr.ToView(), p.phase.i;
    CallbackRefuses(i, v, p.phase.seen);
    forall why
      ensures StepError(i, why) == StepFailed(StepText(i, why))
    {
      StepTold(i, why);
    }
  }

  lemma Served(s: Store, key: CrKey, p: Pass, outcome: Outcome, now: nat)
    requires InRange(p.phase) && Proper(p.phase)
    ensures var m := Moment(p.phase, s, outcome, now);
            var e := Serve(s, key, p, outcome, now);
            if CallError(m, key).Some? then
              !EndsWell(m, key, e.store) &&
              var err := Wrapped(p.phase, CallError(m, key).value);
              if p.phase.Reading? || p.phase.AddingFinalizer? || p.phase.Reporting?
              then e.next.None? && LastAnswer(s, key, p.phase, outcome) == Some(err)
              else e.next.Some? && Tells(e.next.value, Verdicted(p.phase, err))
            else if e.next.None? then EndsWell(m, key, e.store) && LastAnswer(s, key, p.phase, outcome) == None
            else Proper(e.next.value) && !EndsWell(m, key, e.store)
  {
    hide FetchChild, WriteChild, WriteBack, KeyAt, ClusterKey, Blocked, Conditions.PatchStatus, ReportedStatus;
    match p.phase {
      case Fetching(_, _) => FetchServed(s, key, p, outcome, now);
      case Writing(_, _, _) => WriteServed(s, key, p, outcome, now);
      case _ =>
    }
  }

  // ----- The whole reconcile -----

  lemma FirstCall(sys: System, key: CrKey, script: Script, pos: nat)
    requires Callable(sys, key)
    ensures var p, m := sys.passes[key], MomentAt(sys, key, script, pos, 0);
            var e := Serve(m.store, key, p, m.outcome, m.now);
            var sys' := OneCall(sys, key, script(pos));
            && m.phase == p.phase && m.store == Interfere(sys, script(pos).before, key).store
            && m.outcome == script(pos).outcome
            && After(sys, key, script, pos, 1) == sys' && sys'.store == e.store
            && Lookup(sys'.passes, key) == (if e.next.Some? then Some(Pass(p.number, e.next.value)) else None)
  {
    hide Serve, Interfere;
    InterferenceLeavesPass(sys, script(pos).before, key);
    assert After(OneCall(sys, key, script(pos)), key, script, pos + 1, 0) == OneCall(sys, key, script(pos));
  }

  lemma Later(sys: System, key: CrKey, script: Script, pos: nat, n: nat)
    ensures After(sys, key, script, pos, n + 1) == After(OneCall(sys, key, script(pos)), key, script, pos + 1, n)
    ensures key in After(sys, key, script, pos, n + 1).passes ==>
              MomentAt(sys, key, script, pos, n + 1)
              == MomentAt(OneCall(sys, key, script(pos)), key, script, pos + 1, n)
  {
    hide OneCall, Interfere;
  }

  lemma MakesLater(sys: System, key: CrKey, script: Script, pos: nat, last: nat)
    requires key in sys.passes && Makes(OneCall(sys, key, script(pos)), key, script, pos + 1, last)
    ensures Makes(sys, key, script, pos, last + 1)
  {
    hide OneCall;
    forall n: nat | n <= last + 1
      ensures key in After(sys, key, script, pos, n).passes
    {
      if n > 0 { Later(sys, key, script, pos, n - 1); }
    }
    Later(sys, key, script, pos, last + 1);
  }

  lemma AccountedLater(sys: System, key: CrKey, script: Script, pos: nat, last: nat, err: Option<string>)
    requires key in sys.passes && !Fails(sys, key, script, pos, 0)
    requires Makes(OneCall(sys, key, script(pos)), key, script, pos + 1, last)
    requires Accounted(OneCall(sys, key, script(pos)), key, script, pos + 1, last, err)
    ensures Makes(sys, key, script, pos, last + 1)
    ensures Accounted(sys, key, script, pos, last + 1, err)
  {
    hide OneCall, CallError, EndsWell, MomentAt, After;
    MakesLater(sys, key, script, pos, last);
    var sys' := OneCall(sys, key, script(pos));
    Later(sys, key, script, pos, last);
    Later(sys, key, script, pos, last + 1);
    forall n: nat | 0 < n <= last + 1
      ensures Fails(sys, key, script, pos, n) <==> Fails(sys', key, script, pos + 1, n - 1)
    {
      Later(sys, key, script, pos, n - 1);
    }
    if err.Some? {
      var n: nat :| FirstToFail(sys', key, script, pos + 1, last, n)
                    && ReturnsErrorOf(sys', key, script, pos + 1, last, n, err.value);
      Later(sys, key, script, pos, n);
      assert FirstToFail(sys, key, script, pos, last + 1, n + 1) by {
        forall j: nat | j < n + 1
          ensures !Fails(sys, key, script, pos, j)
        {
          if j > 0 { assert !Fails(sys', key, script, pos + 1, j - 1); }
        }
      }
      assert ReturnsErrorOf(sys, key, script, pos, last + 1, n + 1, err.value);
    } else {
      forall n: nat | n <= last + 1
        ensures !Fails(sys, key, script, pos, n)
      {
        if n > 0 { assert !Fails(sys', key, script, pos + 1, n - 1); }
      }
    }
  }

  /** A reconcile over after its first call. */
  lemma OverAtOnce(sys: System, key: CrKey, script: Script, pos: nat)
    requires Steady(sys, key) && key !in OneCall(sys, key, script(pos)).passes
    ensures Makes(sys, key, script, pos, 0) && Accounted(sys, key, script, pos, 0, Answer(sys, key, script, pos))
  {
    hide OneCall, CallError, EndsWell, Serve, LastAnswer, Interfere;
    var m := MomentAt(sys, key, script, pos, 0);
    FirstCall(sys, key, script, pos);
    Served(m.store, key, sys.passes[key], m.outcome, m.now);
    OneCallRanksDown(sys, key, script(pos));
    assert Fails(sys, key, script, pos, 0) <==> CallError(m, key).Some?;
    if CallError(m, key).Some? {
      assert FirstToFail(sys, key, script, pos, 0, 0);
      assert ReturnsErrorOf(sys, key, script, pos, 0, 0, Wrapped(m.phase, CallError(m, key).value));
    }
  }

  /** A failed step or deletion: one more call reports it. */
  lemma ReportedAfter(sys: System, key: CrKey, script: Script, pos: nat)
    requires Steady(sys, key) && key in OneCall(sys, key, script(pos)).passes
    requires Fails(sys, key, script, pos, 0)
    ensures Makes(sys, key, script, pos, 1) && Accounted(sys, key, script, pos, 1, Answer(sys, key, script, pos))
  {
    hide OneCall, CallError, Serve, Interfere;
    var m := MomentAt(sys, key, script, pos, 0);
    var sys' := OneCall(sys, key, script(pos));
    FirstCall(sys, key, script, pos);
    Served(m.store, key, sys.passes[key], m.outcome, m.now);
    OneCallRanksDown(sys, key, script(pos));
    var err := Wrapped(m.phase, CallError(m, key).value);
    assert Tells(sys'.passes[key].phase, Verdicted(m.phase, err));
    ReportIsLast(sys', key, script, pos + 1);
    Later(sys, key, script, pos, 0);
    Later(sys, key, script, pos, 1);
    assert Makes(sys, key, script, pos, 1) by {
      forall n: nat | n <= 1
        ensures key in After(sys, key, script, pos, n).passes
      {
      }
    }
    assert FirstToFail(sys, key, script, pos, 1, 0);
    assert ReturnsErrorOf(sys, key, script, pos, 1, 0, err);
  }

  lemma ReportIsLast(sys: System, key: CrKey, script: Script, pos: nat)
    requires Callable(sys, key) && sys.passes[key].phase.Reporting?
    requires !sys.passes[key].phase.verdict.Reconciled?
    ensures key !in OneCall(sys, key, script(pos)).passes
    ensures Answer(sys, key, script, pos) == Some(sys.passes[key].phase.verdict.why)
    ensures After(sys, key, script, pos, 1) == OneCall(sys, key, script(pos))
  {
    hide OneCall, Interfere;
    FirstCall(sys, key, script, pos);
    OneCallRanksDown(sys, key, script(pos));
  }

  lemma {:induction false} AnswerIsAccounted(sys: System, key: CrKey, script: Script, pos: nat) returns (last: nat)
    requires Steady(sys, key)
    ensures Makes(sys, key, script, pos, last)
    ensures Accounted(sys, key, script, pos, last, Answer(sys, key, script, pos))
    decreases RankOf(sys, key)
  {
    hide OneCall, CallError, Serve, Accounted, Makes, EndsWell, MomentAt;
    var sys' := OneCall(sys, key, script(pos));
    if key !in sys'.passes {
      last := 0;
      OverAtOnce(sys, key, script, pos);
    } else if Fails(sys, key, script, pos, 0) {
      last := 1;
      ReportedAfter(sys, key, script, pos);
    } else {
      StaysSteady(sys, key, script, pos);
      OneCallRanksDown(sys, key, script(pos));
      last := AnswerIsAccounted(sys', key, script, pos + 1);
      AccountedLater(sys, key, script, pos, last, Answer(sys', key, script, pos + 1));
      last := last + 1;
    }
  }

  lemma StaysSteady(sys: System, key: CrKey, script: Script, pos: nat)
    requires Steady(sys, key) && key in OneCall(sys, key, script(pos)).passes
    requires !Fails(sys, key, script, pos, 0)
    ensures Steady(OneCall(sys, key, script(pos)), key)
  {
    hide OneCall, CallError, Serve, Interfere, EndsWell, Proper;
    var m := MomentAt(sys, key, script, pos, 0);
    FirstCall(sys, key, script, pos);
    OneCallRanksDown(sys, key, script(pos));
    Served(m.store, key, sys.passes[key], m.outcome, m.now);
  }

  /**
   The answer of a reconcile, for every script of interference and faults: no error exactly if its last call ended
   well, which is exactly if no call failed; else the error of the first call that failed, as its caller wraps it.
   */
  lemma ReconcileReturns(sys: System, key: CrKey, script: Script)
    requires key !in sys.passes
    ensures var sys' := Next(sys, Start(key)); Returns(sys', key, script, 0, Answer(sys', key, script, 0))
  {
    hide Answer, Makes, Accounted;
    var _ := AnswerIsAccounted(Next(sys, Start(key)), key, script, 0);
  }
}
