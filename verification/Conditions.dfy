/** Status conditions and the status patch (internal/controller/status.go). */
module Conditions {
  import opened Api

  const READY := "Ready"

  /** Index of the first condition of a kind, or the length. */
  function FindCondition(cs: seq<Condition>, kind: string): (i: nat)
    ensures i <= |cs|
    ensures i < |cs| ==> cs[i].kind == kind
    ensures forall j :: 0 <= j < i ==> cs[j].kind != kind
  {
    if cs == [] || cs[0].kind == kind then 0 else 1 + FindCondition(cs[1..], kind)
  }

  /** Upsert by kind; the transition time moves only when the status does. */
  function SetStatusCondition(cs: seq<Condition>, c: Condition): seq<Condition> {
    var i := FindCondition(cs, c.kind);
    if i == |cs| then cs + [c]
    else if cs[i].status == c.status then cs[i := c.(since := cs[i].since)]
    else cs[i := c]
  }

  datatype Verdict = Reconciled | StepFailed(why: string) | DeleteFailed(why: string)

  function Reason(v: Verdict): string {
    match v
    case Reconciled => "Reconciled"
    case StepFailed(_) => "ReconcileError"
    case DeleteFailed(_) => "DeleteFailed"
  }

  function Message(v: Verdict): string {
    match v
    case Reconciled => "All components reconciled"
    case StepFailed(why) => why
    case DeleteFailed(why) => why
  }

  function ReadyCondition(v: Verdict, generation: nat, now: nat): Condition {
    Condition(READY, v.Reconciled?, Reason(v), Message(v), generation, now)
  }

  /** The status that a report intends, computed on the reconciler's copy. */
  function ReportedStatus(cr: Kubeshark, v: Verdict, now: nat): Status {
    Status(SetStatusCondition(cr.status.conditions, ReadyCondition(v, cr.generation, now)), cr.generation)
  }

  /** A merge patch carries only the members that changed; the others stay as stored. */
  function PatchStatus(stored: Status, orig: Status, changed: Status): Status {
    Status(if changed.conditions != orig.conditions then changed.conditions else stored.conditions,
           if changed.observedGeneration != orig.observedGeneration
           then changed.observedGeneration else stored.observedGeneration)
  }

  predicate UniqueKinds(cs: seq<Condition>) {
    forall i, j :: 0 <= i < j < |cs| ==> cs[i].kind != cs[j].kind
  }

  predicate ReadyAt(s: Status, generation: nat) {
    exists i :: 0 <= i < |s.conditions| && s.conditions[i].kind == READY
                && s.conditions[i].status && s.conditions[i].observedGeneration == generation
  }

  /** The first condition of a kind stands at i. */
  predicate FirstAt(cs: seq<Condition>, kind: string, i: nat) {
    i < |cs| && cs[i].kind == kind && forall j :: 0 <= j < i ==> cs[j].kind != kind
  }

  /**
   Where the kind is absent the new condition comes last, as it is. Where it is present the first of its kind is
   replaced in place: by the new condition with the old transition time if the status stays, with the new one if it
   changes. Nothing else moves.
   */
  lemma SetStatusConditionUpserts(cs: seq<Condition>, c: Condition)
    ensures (forall j :: 0 <= j < |cs| ==> cs[j].kind != c.kind) ==> SetStatusCondition(cs, c) == cs + [c]
    ensures forall i: nat :: FirstAt(cs, c.kind, i) ==>
              var r := SetStatusCondition(cs, c);
              && |r| == |cs|
              && (forall j :: 0 <= j < |cs| && j != i ==> r[j] == cs[j])
              && r[i].(since := c.since) == c
              && (cs[i].status == c.status ==> r[i].since == cs[i].since)
              && (cs[i].status != c.status ==> r[i].since == c.since)
    ensures UniqueKinds(cs) ==> UniqueKinds(SetStatusCondition(cs, c))
    ensures exists i: nat :: FirstAt(SetStatusCondition(cs, c), c.kind, i)
  {
    var r := SetStatusCondition(cs, c);
    var i := FindCondition(cs, c.kind);
    assert FirstAt(r, c.kind, i);
    forall n: nat | FirstAt(cs, c.kind, n)
      ensures n == i
    {
    }
  }

  /** Reporting the same verdict again, at any later time, changes nothing. */
  lemma SetStatusConditionIdempotent(cs: seq<Condition>, c: Condition, now: nat)
    ensures var r := SetStatusCondition(cs, c); SetStatusCondition(r, c.(since := now)) == r
  {
    var r := SetStatusCondition(cs, c);
    var i := FindCondition(cs, c.kind);
    assert r[i].kind == c.kind && FindCondition(r, c.kind) == i;
  }

  /** What a condition says of a pass: the status, the reason, the message, and the generation it is about. */
  predicate Says(c: Condition, v: Verdict, generation: nat) {
    && c.kind == "Ready" && c.observedGeneration == generation
    && match v
       case Reconciled => c.status && c.reason == "Reconciled" && c.message == "All components reconciled"
       case StepFailed(why) => !c.status && c.reason == "ReconcileError" && c.message == why
       case DeleteFailed(why) => !c.status && c.reason == "DeleteFailed" && c.message == why
  }

  /** The report keeps the transition time of a Ready condition that said the same, and else sets the clock's. */
  ghost predicate Dated(before: seq<Condition>, after: Condition, now: nat) {
    && ((forall j :: 0 <= j < |before| ==> before[j].kind != "Ready") ==> after.since == now)
    && forall i: nat :: FirstAt(before, "Ready", i) ==>
         after.since == if before[i].status == after.status then before[i].since else now
  }

  /**
   What a report shows, for every verdict: the generation of the copy, and one Ready condition that says what became
   of the pass and since when; every other condition is as it was.
   */
  lemma ReportSays(cr: Kubeshark, v: Verdict, now: nat) returns (i: nat)
    ensures var r := ReportedStatus(cr, v, now);
            && r.observedGeneration == cr.generation
            && FirstAt(r.conditions, "Ready", i) && Says(r.conditions[i], v, cr.generation)
            && Dated(cr.status.conditions, r.conditions[i], now)
            && r.conditions[..i] + r.conditions[i + 1..]
               == cr.status.conditions[..i]
                  + (if i < |cr.status.conditions| then cr.status.conditions[i + 1..] else [])
  {
    SetStatusConditionUpserts(cr.status.conditions, ReadyCondition(v, cr.generation, now));
    i := FindCondition(cr.status.conditions, "Ready");
  }

  /** After a report the status shows the verdict: Ready at a generation exactly for a reconciled pass of it. */
  lemma ReportShowsVerdict(cr: Kubeshark, v: Verdict, now: nat, g: nat)
    requires UniqueKinds(cr.status.conditions)
    ensures ReadyAt(ReportedStatus(cr, v, now), g) <==> v.Reconciled? && g == cr.generation
    ensures UniqueKinds(ReportedStatus(cr, v, now).conditions)
  {
    SetStatusConditionUpserts(cr.status.conditions, ReadyCondition(v, cr.generation, now));
    var i := ReportSays(cr, v, now);
    assert ReportedStatus(cr, v, now).conditions[i].kind == READY;
  }
}
