/** When a paused saga can still be finished: exactly while it is not stranded. */
module SagaEnding {
  import opened Prelude
  import opened Saga
  import opened SagaWorkflow
  import C = CheckpointChain
  import A = Artifacts

  ghost predicate Waiting(env: Env, w: World) {
    w.chain != [] && PlanOf(env, Last(w.chain)).SavePartial?
  }

  // ----- where a stored report comes from -----

  /** What some action makes of a state. */
  predicate Ends(state: State, report: Report) {
    Retry(state) == Finish(report) || Compensate(state) == Finish(report)
  }

  lemma {:induction false} PlanSource(env: Env, chain: C.Chain, parent: Option<string>, report: Report) returns (i: nat)
    requires Lineage(env, chain) && chain != [] && PlanOf(env, Last(chain)).SavePartial?
    requires Produced(env, chain, parent, Finish(report))
    ensures i < |chain| && PlanOf(env, chain[i]).SavePartial? && Ends(PlanOf(env, chain[i]).state, report)
  {
    AtMostThreeVersions(env, chain);
    hide C.WellChained, Start, Retry, Compensate;
    assert Follows(env, chain, 0) && chain[..0] == [];
    hide Lineage, Follows;
    assert parent.Some?;
    var e := C.Find(chain, parent.value).value;
    i :| 0 <= i < |chain| && chain[i] == e;
  }

  /** The stored report was planned from one of the partial versions. */
  lemma {:induction false} ReportSource(env: Env, w: World) returns (i: nat, report: Report)
    requires Inv(env, w) && Waiting(env, w) && ReportKey(env.runId) in w.artifacts
    ensures i < |w.chain| && PlanOf(env, w.chain[i]).SavePartial? && Ends(PlanOf(env, w.chain[i]).state, report)
    ensures IsReport(env, w.artifacts[ReportKey(env.runId)], report)
  {
    hide Lineage, Produced, IsReport, PlanOf, Ends, CallOk;
    report :| Reported(env, w, report);
    var parent :| Produced(env, w.chain, parent, Finish(report));
    i := PlanSource(env, w.chain, parent, report);
  }

  lemma {:induction false} TwoVersionsAtMost(env: Env, chain: C.Chain)
    requires Lineage(env, chain) && chain != [] && PlanOf(env, Last(chain)).SavePartial?
    ensures |chain| <= 2
  {
    hide Lineage, PlanOf, RetryableOps, Total;
    AtMostThreeVersions(env, chain);
    if |chain| == 3 {
      RetriesRaise(env, chain, 2);
      RetriesRaise(env, chain, 1);
    }
  }

  /** A version that was retried into another partial one led to a report only by compensation. */
  lemma {:induction false} RetriedSource(env: Env, chain: C.Chain, report: Report)
    requires Lineage(env, chain) && |chain| == 2 && PlanOf(env, chain[1]).SavePartial?
    requires PlanOf(env, chain[0]).SavePartial? && Ends(PlanOf(env, chain[0]).state, report)
    ensures Compensate(PlanOf(env, chain[0]).state) == Finish(report)
  {
    Predecessor(env, chain, 1);
    VersionsSound(env, chain, 0);
    hide Lineage, Retry, Compensate, Accounted, PlanOf;
    CompensateReports(env.orderId, PlanOf(env, chain[0]).state);
  }

  /** A report that an earlier version led to is a compensation, and the retry after it strands. */
  lemma {:induction false} EarlierSourceStrands(env: Env, w: World, i: nat, report: Report)
    requires Inv(env, w) && Waiting(env, w) && ReportKey(env.runId) in w.artifacts
    requires i < |w.chain| - 1 && PlanOf(env, w.chain[i]).SavePartial? && Ends(PlanOf(env, w.chain[i]).state, report)
    requires IsReport(env, w.artifacts[ReportKey(env.runId)], report)
    ensures Stranded(env, w)
  {
    LineageOf(env, w);
    hide Inv, Lineage, IsReport, Ends, PlanOf, Compensate;
    TwoVersionsAtMost(env, w.chain);
    RetriedSource(env, w.chain, report);
  }

  lemma {:induction false} HeadSource(env: Env, w: World) returns (report: Report)
    requires Inv(env, w) && Waiting(env, w) && !Stranded(env, w) && ReportKey(env.runId) in w.artifacts
    ensures Ends(PlanOf(env, Last(w.chain)).state, report)
    ensures IsReport(env, w.artifacts[ReportKey(env.runId)], report)
  {
    hide Inv, Stranded, IsReport, PlanOf, Ends;
    var i;
    i, report := ReportSource(env, w);
    if i < |w.chain| - 1 { EarlierSourceStrands(env, w, i, report); }
  }

  /** Without a stored report compensating finishes; with one, whatever it came from. */
  lemma {:induction false} FinishingAction(env: Env, w: World) returns (action: string, report: Report)
    requires Inv(env, w) && Waiting(env, w) && !Stranded(env, w)
    ensures action == "retry_failed" || action == "compensate"
    ensures var state := PlanOf(env, Last(w.chain)).state;
            (if action == "retry_failed" then Retry(state) else Compensate(state)) == Finish(report)
    ensures ReportKey(env.runId) in w.artifacts ==> IsReport(env, w.artifacts[ReportKey(env.runId)], report)
  {
    hide Inv, Stranded, IsReport, Retry, Compensate, Accounted, PlanOf;
    var state := PlanOf(env, Last(w.chain)).state;
    if ReportKey(env.runId) in w.artifacts {
      report := HeadSource(env, w);
      action := if Retry(state) == Finish(report) then "retry_failed" else "compensate";
    } else {
      HeadSound(env, w);
      CompensateReports(env.orderId, state);
      action, report := "compensate", Compensate(state).report;
    }
  }

  /** A paused saga that is not stranded is finished by one of the two actions, on its own. */
  lemma {:induction false} UnstrandedFinishes(env: Env, w: World) returns (action: string)
    requires Faithful(env.codec) && Inv(env, w) && Waiting(env, w) && !Stranded(env, w)
    ensures action == "retry_failed" || action == "compensate"
    ensures Drive(env, w.artifacts, w.chain, Resuming(action)).2.Finished?
  {
    var report;
    action, report := FinishingAction(env, w);
    hide Inv, Stranded, IsReport, Retry, Compensate, Drive;
    FinishesIff(env, w, action);
    assert Continue(env, C.ChainLatest(w.chain), action) == Reporting(Some(Last(w.chain).desc.id), report);
  }

  lemma HeadSound(env: Env, w: World)
    requires Inv(env, w) && Waiting(env, w)
    ensures Accounted(env.orderId, PlanOf(env, Last(w.chain)).state)
  {
    VersionsSound(env, w.chain, |w.chain| - 1);
  }

  // ----- whatever else happens -----

  /** Some calls, interleaving and dying as they may, bring one of them to finish. */
  ghost predicate Finishable(env: Env, w: World) {
    exists steps, w', id :: Leads(env, w, steps, w') && id in w'.calls && w'.calls[id].Finished?
  }

  lemma {:induction false} LeadsKeepsInv(env: Env, w: World, steps: seq<Action>, w': World)
    requires Faithful(env.codec) && Inv(env, w) && Leads(env, w, steps, w')
    ensures Inv(env, w') && Extends(w, w')
    decreases |steps|
  {
    if steps != [] {
      hide Inv, Enabled, Perform;
      ActionKeepsInv(env, w, steps[0]);
      LeadsKeepsInv(env, Perform(env, w, steps[0]), steps[1..], w');
    }
  }

  /** A step takes no notice of the other calls, and moves its call on. */
  lemma StepAlone(env: Env, w: World, id: nat)
    requires Enabled(w, Step(id))
    ensures var (artifacts, chain, pc) := Advance(env, World(w.artifacts, w.chain, map[]), w.calls[id]);
            && Perform(env, w, Step(id)) == World(artifacts, chain, w.calls[id := pc])
            && Rank(pc) < Rank(w.calls[id])
  {}

  /** A call left alone does what its executable does. */
  lemma {:induction false} DriveLeads(env: Env, w: World, id: nat) returns (steps: seq<Action>, w': World)
    requires id in w.calls
    ensures Leads(env, w, steps, w') && id in w'.calls
    ensures w'.calls[id] == Drive(env, w.artifacts, w.chain, w.calls[id]).2
    decreases Rank(w.calls[id])
  {
    var pc := w.calls[id];
    if !Running(pc) {
      steps, w' := [], w;
    } else {
      DriveOn(env, w.artifacts, w.chain, pc);
      StepAlone(env, w, id);
      hide Advance, Drive, Perform;
      var rest;
      rest, w' := DriveLeads(env, Perform(env, w, Step(id)), id);
      steps := [Step(id)] + rest;
      assert steps[1..] == rest;
    }
  }

  lemma {:induction false} ResumeLeads(env: Env, w: World, action: string)
    requires Drive(env, w.artifacts, w.chain, Resuming(action)).2.Finished?
    ensures Finishable(env, w)
  {
    hide Drive;
    var id := Unused(w.calls.Keys);
    var arrive := Arrive(id, Resume(action));
    var steps, w' := DriveLeads(env, Perform(env, w, arrive), id);
    assert ([arrive] + steps)[1..] == steps;
    assert Leads(env, w, [arrive] + steps, w');
  }

  /** A paused saga can still be finished if and only if it is not stranded. */
  lemma {:induction false} FinishableIff(env: Env, w: World)
    requires Faithful(env.codec) && Inv(env, w) && Waiting(env, w)
    ensures Finishable(env, w) <==> !Stranded(env, w)
  {
    hide Inv, Stranded, Drive, Leads, Extends;
    if Stranded(env, w) {
      forall steps, w', id | Leads(env, w, steps, w') && id in w'.calls ensures !w'.calls[id].Finished? {
        LeadsKeepsInv(env, w, steps, w');
        StrandedNotFinished(env, w, w', id);
      }
    } else {
      var action := UnstrandedFinishes(env, w);
      ResumeLeads(env, w, action);
    }
  }

  /** Every pause of a run can still be finished if and only if the input does not plan both a
      retryable and a fatal failure. */
  lemma {:induction false} AlwaysFinishableIff(env: Env)
    requires Faithful(env.codec)
    ensures (forall w :: Reachable(env, w) && Waiting(env, w) ==> Finishable(env, w)) <==> !MixedInput(env)
  {
    hide Reachable, Finishable, MixedInput, Inv;
    StrandingIff(env);
    forall w | Reachable(env, w) && Waiting(env, w) ensures Finishable(env, w) <==> !Stranded(env, w) {
      ReachableInv(env, w);
      FinishableIff(env, w);
    }
    forall w | Stranded(env, w) ensures Waiting(env, w) {}
  }
}
