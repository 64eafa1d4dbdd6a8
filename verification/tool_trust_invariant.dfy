/**
 The invariant of the lab and the admission records, and its preservation by every call.
 */
module ToolTrustInvariant {
  import opened Common
  import opened ToolIds
  import opened ToolTrust

  /* ---------- The invariant ---------- */

  predicate InCatalog(t: Id) {
    exists i: nat :: i < 8 && CatalogTool(i) == t
  }

  ghost predicate RunsOk(runs: seq<Run>) {
    && (forall i, j :: 0 <= i < j < |runs| ==> runs[i].id != runs[j].id)
    && (forall i :: 0 <= i < |runs| ==>
          && runs[i].hash == Sha256(runs[i].result) && runs[i].quality == Classify(runs[i].result.payload)
          && InCatalog(runs[i].result.toolId))
  }

  ghost predicate Logged(runs: seq<Run>, id: Id) {
    exists i :: 0 <= i < |runs| && runs[i].id == id
  }

  ghost predicate ReviewsOk(runs: seq<Run>, reviews: seq<Review>) {
    forall i :: 0 <= i < |reviews| ==> Logged(runs, reviews[i].runId)
  }

  /** Tool t's card is the projection of its last logged run, with the latest logged review of that run. */
  predicate CardAgrees(s: System, t: Id) {
    var last := LastRun(s.runs, t);
    && (t in s.cards <==> last.Some?)
    && (last.Some? && t in s.cards ==> s.cards[t] == CardOf(last.value, LatestReview(s.reviews, last.value.id)))
  }

  /** When the review log had k entries, the baseline's run i was approved. */
  predicate AcceptedWhen(s: System, t: Id, b: Baseline, i: nat, k: nat) {
    && i < |s.runs| && k <= |s.reviews|
    && s.runs[i].id == b.runId && s.runs[i].result.toolId == t
    && b.hash == s.runs[i].hash && b.quality == s.runs[i].quality && Eligible(b.quality)
    && Approving(LatestReview(s.reviews[..k], b.runId))
  }

  ghost predicate BaselineOk(s: System, t: Id) {
    t in s.baselines ==> exists i: nat, k: nat :: AcceptedWhen(s, t, s.baselines[t], i, k)
  }

  predicate IsSuspended(state: RuntimeState) { state == Suspended || state == SuspendedTimeoutReview }

  ghost predicate ToolsOk(tools: map<Id, Tool>) {
    forall t :: t in tools ==> (tools[t].suspended <==> IsSuspended(tools[t].state))
  }

  ghost predicate Inv(s: System) {
    && RunsOk(s.runs) && ReviewsOk(s.runs, s.reviews)
    && (forall t :: CardAgrees(s, t))
    && (forall t :: BaselineOk(s, t))
    && ToolsOk(s.tools)
  }

  /* ---------- Searching the logs ---------- */

  lemma {:induction false} LastRunIsLogged(runs: seq<Run>, t: Id)
    requires LastRun(runs, t).Some?
    ensures LastRun(runs, t).value.result.toolId == t
    ensures LastRun(runs, t).value in runs
  {
    var n := |runs| - 1;
    if runs[n].result.toolId == t {
      assert runs[n] in runs;
    } else {
      LastRunIsLogged(runs[..n], t);
    }
  }

  /** The search finds a run exactly when it is among the last lines of the log. */
  lemma {:induction false} FindRunMeaning(runs: seq<Run>, id: Id, window: nat)
    ensures FindRun(runs, id, window).Some? <==> exists i :: 0 <= i < |runs| && |runs| - window <= i && runs[i].id == id
    ensures FindRun(runs, id, window).Some? ==> FindRun(runs, id, window).value in runs && FindRun(runs, id, window).value.id == id
    decreases window
  {
    if runs != [] && window > 0 {
      var n := |runs| - 1;
      var init := runs[..n];
      FindRunMeaning(init, id, window - 1);
      assert forall i :: 0 <= i < n ==> init[i] == runs[i];
      if runs[n].id == id {
        assert runs[n] in runs;
      } else if FindRun(init, id, window - 1).Some? {
        var i :| 0 <= i < |init| && |init| - (window - 1) <= i && init[i].id == id;
        assert runs[i].id == id;
        assert FindRun(init, id, window - 1).value in init;
      } else {
        assert forall i :: 0 <= i < |runs| && |runs| - window <= i ==> i == n || init[i].id != id;
      }
    }
  }

  lemma {:induction false} UnreviewedHasNoReview(runs: seq<Run>, reviews: seq<Review>, id: Id)
    requires ReviewsOk(runs, reviews) && !Logged(runs, id)
    ensures LatestReview(reviews, id) == None
  {
    if reviews != [] {
      var n := |reviews| - 1;
      assert Logged(runs, reviews[n].runId);
      assert ReviewsOk(runs, reviews[..n]);
      UnreviewedHasNoReview(runs, reviews[..n], id);
    }
  }

  /* ---------- Every call keeps it ---------- */

  /** Growing the logs keeps every baseline's evidence. */
  lemma BaselineStays(s: System, s': System, t: Id)
    requires BaselineOk(s, t)
    requires s.runs <= s'.runs && s.reviews <= s'.reviews
    requires t in s'.baselines ==> t in s.baselines && s'.baselines[t] == s.baselines[t]
    ensures BaselineOk(s', t)
  {
    if t in s'.baselines {
      var i: nat, k: nat :| AcceptedWhen(s, t, s.baselines[t], i, k);
      assert s'.reviews[..k] == s.reviews[..k];
      assert AcceptedWhen(s', t, s'.baselines[t], i, k);
    }
  }

  lemma BaselinesStay(s: System, s': System)
    requires forall t :: BaselineOk(s, t)
    requires s.runs <= s'.runs && s.reviews <= s'.reviews && s'.baselines == s.baselines
    ensures forall t :: BaselineOk(s', t)
  {
    forall t ensures BaselineOk(s', t) { BaselineStays(s, s', t); }
  }

  lemma PersistKeepsLogs(s: System, run: Run)
    requires Inv(s) && !Logged(s.runs, run.id)
    requires run.hash == Sha256(run.result) && run.quality == Classify(run.result.payload) && InCatalog(run.result.toolId)
    ensures var s' := PersistRun(s, run); RunsOk(s'.runs) && ReviewsOk(s'.runs, s'.reviews)
  {
    hide CardAgrees, BaselineOk, Classify, InCatalog;
    var runs := PersistRun(s, run).runs;
    forall i | 0 <= i < |s.reviews| ensures Logged(runs, s.reviews[i].runId) {
      assert Logged(s.runs, s.reviews[i].runId);
      var j :| 0 <= j < |s.runs| && s.runs[j].id == s.reviews[i].runId;
      assert runs[j].id == s.reviews[i].runId;
    }
  }

  lemma PersistKeepsCard(s: System, run: Run, t: Id)
    requires CardAgrees(s, t) && ReviewsOk(s.runs, s.reviews) && !Logged(s.runs, run.id)
    ensures CardAgrees(PersistRun(s, run), t)
  {
    UnreviewedHasNoReview(s.runs, s.reviews, run.id);
    assert (s.runs + [run])[..|s.runs|] == s.runs;
  }

  lemma PersistKeeps(s: System, run: Run)
    requires Inv(s) && !Logged(s.runs, run.id)
    requires run.hash == Sha256(run.result) && run.quality == Classify(run.result.payload) && InCatalog(run.result.toolId)
    ensures Inv(PersistRun(s, run))
  {
    PersistKeepsLogs(s, run);
    hide CardAgrees, BaselineOk, Classify, Logged, RunsOk, ReviewsOk;
    BaselinesStay(s, PersistRun(s, run));
    forall t ensures CardAgrees(PersistRun(s, run), t) { PersistKeepsCard(s, run, t); }
  }

  /** A change of admission records and quarantines leaves the lab's half alone. */
  lemma LabStays(s: System, s': System)
    requires Inv(s) && ToolsOk(s'.tools)
    requires s'.runs == s.runs && s'.reviews == s.reviews && s'.cards == s.cards && s'.baselines == s.baselines
    ensures Inv(s')
  {
    hide RunsOk, ReviewsOk, BaselineOk, ToolsOk;
    BaselinesStay(s, s');
    forall t ensures CardAgrees(s', t) { assert CardAgrees(s, t); }
  }

  lemma QuarantineKeeps(s: System, t: Id, reason: string, reaches: bool)
    requires Inv(s)
    ensures Inv(Quarantine(s, t, reason, reaches))
  {
    hide CardAgrees, BaselineOk, RunsOk, ReviewsOk, Admissible;
    LabStays(s, Quarantine(s, t, reason, reaches));
  }

  lemma RunSuiteKeeps(s: System, suite: nat, id: Id, payload: Option<Payload>, reaches: bool)
    requires Inv(s) && !Logged(s.runs, id)
    ensures Inv(RunSuite(s, suite, id, payload, reaches).after)
  {
    hide Inv, Logged, Classify, CatalogTool;
    if suite < 8 && payload.Some? {
      var result := SuiteResult(CatalogTool(suite), payload.value);
      var run := Run(id, result, Classify(payload.value), Sha256(result));
      PersistKeeps(s, run);
      QuarantineKeeps(PersistRun(s, run), CatalogTool(suite), AutomaticReason(), reaches);
    }
  }

  lemma IdsIdentifyRuns(runs: seq<Run>, a: Run, b: Run)
    requires RunsOk(runs) && a in runs && b in runs && a.id == b.id
    ensures a == b
  {
    hide Classify, InCatalog;
    var i :| 0 <= i < |runs| && runs[i] == a;
    var j :| 0 <= j < |runs| && runs[j] == b;
  }

  lemma ReviewAppended(reviews: seq<Review>, r: Review, id: Id)
    ensures LatestReview(reviews + [r], id) == if r.runId == id then Some(r.decision) else LatestReview(reviews, id)
  {
    assert (reviews + [r])[..|reviews|] == reviews;
  }

  /** What a review that finds its run does. */
  lemma ReviewEffect(s: System, runId: Id, decision: ReviewDecision, t: Id)
    requires FindRun(s.runs, runId, RUN_WINDOW).Some?
    ensures var s' := ReviewRun(s, runId, decision).after;
            && s' == s.(reviews := s.reviews + [Review(runId, decision)], cards := s'.cards)
            && (t in s'.cards <==> t in s.cards)
            && (t in s.cards ==>
                  if FindRun(s.runs, runId, RUN_WINDOW).value.result.toolId == t && s.cards[t].lastRunId == runId
                  then s'.cards[t] == s.cards[t].(reviewStatus := Some(decision))
                  else s'.cards[t] == s.cards[t])
  {
    hide FindRun;
  }

  lemma ReviewKeepsCard(s: System, runId: Id, decision: ReviewDecision, t: Id)
    requires RunsOk(s.runs) && CardAgrees(s, t)
    requires FindRun(s.runs, runId, RUN_WINDOW).Some?
    ensures CardAgrees(ReviewRun(s, runId, decision).after, t)
  {
    ReviewEffect(s, runId, decision, t);
    hide FindRun, LastRun, LatestReview, ReviewRun, RunsOk;
    if t in s.cards {
      var last, found := LastRun(s.runs, t).value, FindRun(s.runs, runId, RUN_WINDOW).value;
      LastRunIsLogged(s.runs, t);
      FindRunMeaning(s.runs, runId, RUN_WINDOW);
      if last.id == runId { IdsIdentifyRuns(s.runs, last, found); }
      ReviewAppended(s.reviews, Review(runId, decision), last.id);
    }
  }

  lemma ReviewKeepsLog(s: System, runId: Id, decision: ReviewDecision)
    requires ReviewsOk(s.runs, s.reviews) && FindRun(s.runs, runId, RUN_WINDOW).Some?
    ensures ReviewsOk(s.runs, s.reviews + [Review(runId, decision)])
  {
    FindRunMeaning(s.runs, runId, RUN_WINDOW);
    assert Logged(s.runs, runId);
    hide Logged, FindRun;
  }

  lemma ReviewKeeps(s: System, runId: Id, decision: ReviewDecision)
    requires Inv(s)
    ensures Inv(ReviewRun(s, runId, decision).after)
  {
    hide CardAgrees, BaselineOk, RunsOk, ReviewsOk, Logged, FindRun, ToolsOk;
    if FindRun(s.runs, runId, RUN_WINDOW).Some? {
      var s' := ReviewRun(s, runId, decision).after;
      ReviewEffect(s, runId, decision, "");
      ReviewKeepsLog(s, runId, decision);
      forall t ensures CardAgrees(s', t) { ReviewKeepsCard(s, runId, decision, t); }
      hide ReviewRun;
      BaselinesStay(s, s');
    }
  }

  lemma AcceptedIsBacked(s: System, t: Id, id: Id, limitations: seq<string>)
    requires Inv(s) && AcceptBaseline(s, t, id, limitations).error.None?
    ensures BaselineOk(AcceptBaseline(s, t, id, limitations).after, t)
  {
    hide Classify, InCatalog;
    var s' := AcceptBaseline(s, t, id, limitations).after;
    assert CardAgrees(s, t);
    LastRunIsLogged(s.runs, t);
    var i :| 0 <= i < |s.runs| && s.runs[i] == LastRun(s.runs, t).value;
    assert s.reviews[..|s.reviews|] == s.reviews;
    assert AcceptedWhen(s', t, s'.baselines[t], i, |s.reviews|);
  }

  lemma AcceptKeeps(s: System, t: Id, id: Id, limitations: seq<string>)
    requires Inv(s)
    ensures Inv(AcceptBaseline(s, t, id, limitations).after)
  {
    if AcceptBaseline(s, t, id, limitations).error.None? {
      var s' := AcceptBaseline(s, t, id, limitations).after;
      AcceptedIsBacked(s, t, id, limitations);
      hide BaselineOk, RunsOk, ReviewsOk, ToolsOk, FindRun;
      forall u ensures BaselineOk(s', u) { if u != t { BaselineStays(s, s', u); } }
      forall u ensures CardAgrees(s', u) { assert CardAgrees(s, u); }
    }
  }

  lemma ProbesNeverSuspend(t: Id)
    ensures !IsSuspended(TargetState(t)) && (DeferredState(t).Some? ==> !IsSuspended(DeferredState(t).value))
  {
  }

  lemma AdmissionKeepsTools(s: System, op: Op)
    requires ToolsOk(s.tools) && (op.OpProbe? || op.OpSuspend? || op.OpStartScan? || op.OpFinishScan?)
    ensures ToolsOk(Step(s, op).after.tools)
  {
    if op.OpProbe? { ProbesNeverSuspend(op.tool); }
    hide ScanRefusal, TargetState, DeferredState, RunSuite, ReviewRun, AcceptBaseline, QuarantineTool;
  }

  lemma AdmissionKeeps(s: System, op: Op)
    requires Inv(s) && (op.OpProbe? || op.OpSuspend? || op.OpStartScan? || op.OpFinishScan?)
    ensures Inv(Step(s, op).after)
  {
    AdmissionKeepsTools(s, op);
    AdmissionLeavesTheLab(s, op);
    hide Step, CardAgrees, BaselineOk, RunsOk, ReviewsOk, ToolsOk;
    LabStays(s, Step(s, op).after);
  }

  lemma AdmissionLeavesTheLab(s: System, op: Op)
    requires op.OpProbe? || op.OpSuspend? || op.OpStartScan? || op.OpFinishScan?
    ensures var s' := Step(s, op).after;
            s'.runs == s.runs && s'.reviews == s.reviews && s'.cards == s.cards && s'.baselines == s.baselines
  {
    hide ScanRefusal, StateAfterProbe, RunSuite, ReviewRun, AcceptBaseline, QuarantineTool;
  }

  lemma StepKeeps(s: System, op: Op)
    requires Inv(s) && Possible(s, op)
    ensures Inv(Step(s, op).after)
  {
    match op
    case OpRun(suite, id, payload, reaches) =>
      assert !Logged(s.runs, id);
      RunSuiteKeeps(s, suite, id, payload, reaches);
    case OpReview(runId, decision) => ReviewKeeps(s, runId, decision);
    case OpAccept(t, id, limitations) => AcceptKeeps(s, t, id, limitations);
    case OpQuarantine(t, reason, reaches) => QuarantineKeeps(s, t, reason, reaches);
    case _ => AdmissionKeeps(s, op);
  }

  lemma InitialInv(registry: set<Id>)
    ensures Inv(Initial(registry))
  {
    forall t | t in registry ensures !IsSuspended(Initial(registry).tools[t].state) { ProbesNeverSuspend(t); }
  }

  lemma {:induction false} AfterKeeps(s: System, ops: seq<Op>)
    requires Inv(s)
    ensures Inv(After(s, ops))
  {
    hide Inv, Step, Possible;
    if ops != [] {
      var init, op := ops[..|ops| - 1], ops[|ops| - 1];
      AfterKeeps(s, init);
      if Possible(After(s, init), op) { StepKeeps(After(s, init), op); }
    }
  }

  lemma ReachableInv(s: System)
    requires Reachable(s)
    ensures Inv(s)
  {
    hide Inv, Initial;
    var registry, ops :| s == After(Initial(registry), ops);
    InitialInv(registry);
    AfterKeeps(Initial(registry), ops);
  }
}
