/** The imperative reconciler under a fault-free script: what it leaves and what it returns. */
module EndToEnd {
  import opened Wrappers
  import opened Api
  import opened Objects
  import opened Conditions
  import opened KeyedWrites
  import opened Operator
  import opened Passes
  import opened Answers
  import opened Convergence
  import opened Reconciler

  function AnswerFor(v: Verdict): Option<string> {
    if v.Reconciled? then None else Some(v.why)
  }

  lemma {:induction false} DriveAnswers(sys: System, key: CrKey, cr: Kubeshark, objs0: map<ObjKey, Object>,
          now: nat, pos: nat)
    requires Callable(sys, key) && OnTrack(sys.store, sys.passes[key].phase, key, cr, objs0)
    requires sys.passes[key].phase.Reporting? ==>
               sys.passes[key].phase.verdict == Ending(cr.ToView(), objs0)
               && sys.store.objs == KeyedWrites.Result(PlanFor(cr.ToView()), objs0)
    ensures Answer(sys, key, AllServed(now), pos) == AnswerFor(Ending(cr.ToView(), objs0))
    decreases RankOf(sys, key)
  {
    hide PlanFor, OneCall;
    var sys' := OneCall(sys, key, AllServed(now)(pos));
    OneCallRanksDown(sys, key, AllServed(now)(pos));
    if sys.passes[key].phase.Reporting? {
      ReportCall(sys, key, cr, AllServed(now), pos);
      assert Interfere(sys, AllServed(now)(pos).before, key) == sys;
    } else {
      ChildCall(sys, key, cr, objs0, AllServed(now), pos);
      DriveAnswers(sys', key, cr, objs0, now, pos + 1);
    }
  }

  /** A fault-free reconcile returns no error exactly when it reports the resource reconciled. */
  lemma FaultFreeAnswer(sys: System, key: CrKey, now: nat)
    requires Ready(sys, key) && HasFinalizer(sys.store.crs[key])
    ensures Answer(Next(sys, Start(key)), key, AllServed(now), 0)
            == AnswerFor(Ending(sys.store.crs[key].ToView(), sys.store.objs))
  {
    hide Ending, Answer, OneCall, Serve, OnTrack, PlanFor, KeyedWrites.Result, Perturb, Interfere;
    var sys0 := Next(sys, Start(key));
    ReadLive(sys, key, AllServed(now));
    OneCallRanksDown(sys0, key, AllServed(now)(0));
    DriveAnswers(OneCall(sys0, key, AllServed(now)(0)), key, sys.store.crs[key], sys.store.objs, now, 1);
    AnswerStep(sys0, key, AllServed(now), 0);
  }

  lemma AnswerStep(sys: System, key: CrKey, script: Script, pos: nat)
    requires Callable(sys, key) && key in OneCall(sys, key, script(pos)).passes
    ensures Answer(sys, key, script, pos) == Answer(OneCall(sys, key, script(pos)), key, script, pos + 1)
  {
    hide OneCall;
  }

  /**
   Running the reconciler without faults or interference stores every child up to the first blocked one, reports
   exactly that in the status, and returns an error exactly if there is one.
   */
  method ReconcileUndisturbed(cl: Cluster, ghost now: nat) returns (err: Option<string>)
    requires cl.Over() && cl.pos == 0 && cl.script == AllServed(now)
    requires Ready(cl.model, cl.key) && HasFinalizer(cl.model.store.crs[cl.key])
    modifies cl
    ensures var before := old(cl.world.store);
            var cr := before.crs[cl.key];
            && Finished(before, cl.world.store, cl.key, cr, before.objs, now)
            && err == AnswerFor(Ending(cr.ToView(), before.objs))
  {
    hide Finished, Ending, Answer, Ready;
    FaultFreeAnswer(cl.model, cl.key, now);
    FullPassEffect(cl.model, cl.key, now);
    err := Reconciler.Reconcile(cl);
  }
}
