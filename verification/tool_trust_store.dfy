/**
 The quality lab and the admission records as the system keeps them: logs that grow and maps that
 each call rewrites. Every method is tied to the call of the same meaning in ToolTrust.
 */
module ToolTrustStore {
  import opened Common
  import Ids = ToolIds
  import Spec = ToolTrust

  /** The run with the given id among the last window log lines, latest first. */
  method FindRun(runs: seq<Spec.Run>, id: Id, window: nat) returns (found: Option<Spec.Run>)
    ensures found == Spec.FindRun(runs, id, window)
  {
    var n, left := |runs|, window;
    assert runs[..n] == runs;
    while n > 0 && left > 0
      invariant 0 <= n <= |runs|
      invariant Spec.FindRun(runs, id, window) == Spec.FindRun(runs[..n], id, left)
      decreases n
    {
      if runs[n - 1].id == id { return Some(runs[n - 1]); }
      assert runs[..n][..n - 1] == runs[..n - 1];
      n, left := n - 1, left - 1;
    }
    return None;
  }

  /** The last decision of the review log about a run, scanning it forwards. */
  method LatestReview(reviews: seq<Spec.Review>, runId: Id) returns (latest: Option<Spec.ReviewDecision>)
    ensures latest == Spec.LatestReview(reviews, runId)
  {
    latest := None;
    for i := 0 to |reviews|
      invariant latest == Spec.LatestReview(reviews[..i], runId)
    {
      assert reviews[..i + 1][..i] == reviews[..i];
      if reviews[i].runId == runId { latest := Some(reviews[i].decision); }
    }
    assert reviews[..|reviews|] == reviews;
  }

  class TrustStore {
    var runs: seq<Spec.Run>
    var reviews: seq<Spec.Review>
    var cards: map<Id, Spec.Card>
    var baselines: map<Id, Spec.Baseline>
    var quarantines: map<Id, string>
    var tools: map<Id, Spec.Tool>
    var scans: map<Id, Id>

    ghost function System(): Spec.System
      reads this
    {
      Spec.System(runs, reviews, cards, baselines, quarantines, tools, scans)
    }

    constructor (registry: set<Id>)
      ensures System() == Spec.Initial(registry)
    {
      runs, reviews, cards, baselines, quarantines, scans := [], [], map[], map[], map[], map[];
      tools := map t | t in registry ::
        Spec.Tool(if Spec.DeferredState(t).Some? then Spec.DeferredState(t).value else Spec.AwaitingProbe, false, None, None);
    }

    method PersistRun(run: Spec.Run)
      modifies this`runs, this`cards
      ensures System() == Spec.PersistRun(old(System()), run)
    {
      runs := runs + [run];
      cards := cards[run.result.toolId := Spec.CardOf(run, None)];
    }

    /** The quarantine is stored first; a failure to reach the admission record is swallowed. */
    method QuarantineTool(t: Id, reason: string, reaches: bool)
      modifies this`quarantines, this`tools
      ensures System() == Spec.Quarantine(old(System()), t, reason, reaches)
    {
      quarantines := quarantines[t := reason];
      if Spec.Admissible(t) && t in tools && reaches {
        tools := tools[t := tools[t].(state := Spec.Suspended, suspended := true)];
      }
    }

    method RunSuite(suite: nat, id: Id, payload: Option<Spec.Payload>, reaches: bool) returns (error: Option<Spec.Error>)
      modifies this`runs, this`cards, this`quarantines, this`tools
      ensures Spec.Call(System(), error) == Spec.RunSuite(old(System()), suite, id, payload, reaches)
    {
      if suite >= 8 { return Some(Spec.UnknownSuite); }
      if payload.None? { return Some(Spec.RunnerFailed); }
      var t := Ids.CatalogTool(suite);
      var result := Spec.SuiteResult(t, payload.value);
      var quality := Spec.Classify(payload.value);
      PersistRun(Spec.Run(id, result, quality, Sha256(result)));
      if quality == Spec.Quarantined {
        QuarantineTool(t, Spec.AutomaticReason(), reaches);
      }
      return None;
    }

    method ReviewRun(runId: Id, decision: Spec.ReviewDecision) returns (error: Option<Spec.Error>)
      modifies this`reviews, this`cards
      ensures Spec.Call(System(), error) == Spec.ReviewRun(old(System()), runId, decision)
    {
      var run := FindRun(runs, runId, Spec.RUN_WINDOW);
      if run.None? { return Some(Spec.RunNotFound); }
      reviews := reviews + [Spec.Review(runId, decision)];
      var t := run.value.result.toolId;
      if t in cards && cards[t].lastRunId == runId {
        cards := cards[t := cards[t].(reviewStatus := Some(decision))];
      }
      return None;
    }

    method AcceptBaseline(t: Id, id: Id, limitations: seq<string>) returns (error: Option<Spec.Error>)
      modifies this`baselines
      ensures Spec.Call(System(), error) == Spec.AcceptBaseline(old(System()), t, id, limitations)
    {
      if t !in cards { return Some(Spec.ScorecardNotFound); }
      var card := cards[t];
      if !Spec.Eligible(card.quality) { return Some(Spec.QualityResultNotEligible); }
      var review := LatestReview(reviews, card.lastRunId);
      if !Spec.Approving(review) { return Some(Spec.HumanReviewApprovalRequired); }
      var run := FindRun(runs, card.lastRunId, Spec.RUN_WINDOW);
      if run.None? { return Some(Spec.RunNotFound); }
      baselines := baselines[t := Spec.Baseline(id, card.lastRunId, card.quality, card.score, card.hash, limitations)];
      return None;
    }

    method ApplyProbe(t: Id, probe: Spec.Probe) returns (error: Option<Spec.Error>)
      modifies this`tools
      ensures Spec.Call(System(), error) == Spec.ApplyProbe(old(System()), t, probe)
    {
      if t !in tools { return Some(Spec.UnknownTool); }
      var state := Spec.StateAfterProbe(t, probe, tools[t]);
      tools := tools[t := tools[t].(state := state, version := probe.version, binarySha256 := probe.binarySha256)];
      return None;
    }

    method Suspend(t: Id) returns (error: Option<Spec.Error>)
      modifies this`tools
      ensures Spec.Call(System(), error) == Spec.Suspend(old(System()), t)
    {
      if t !in tools { return Some(Spec.UnknownTool); }
      tools := tools[t := tools[t].(state := Spec.Suspended, suspended := true)];
      return None;
    }

    method StartScan(t: Id, invocation: Id, around: Spec.Surroundings) returns (error: Option<Spec.Error>)
      modifies this`scans
      ensures Spec.Call(System(), error) == Spec.StartScan(old(System()), t, invocation, around)
    {
      if !Spec.Scanner(t) && t != "trivy" { return Some(Spec.ScanNotSupported); }
      if t !in tools { return Some(Spec.UnknownTool); }
      var tool := tools[t];
      if tool.suspended { return Some(Spec.ToolSuspended); }
      if t == "trivy" { return Some(Spec.TrivyHold); }
      if tool.state != Spec.UserTriggeredScan { return Some(Spec.ToolNotAdmitted); }
      if !around.scopeResolves { return Some(Spec.ScopeNotFound); }
      if t == "semgrep" && !around.rulesResolve { return Some(Spec.RulesRequired); }
      if around.executable.None? { return Some(Spec.ExecutableMissing); }
      if tool.binarySha256.None? { return Some(Spec.BinaryHashNotEstablished); }
      if around.executable != tool.binarySha256 { return Some(Spec.BinaryHashChanged); }
      scans := scans[invocation := t];
      return None;
    }

    method FinishScan(invocation: Id, timedOut: bool) returns (error: Option<Spec.Error>)
      modifies this`scans, this`tools
      ensures Spec.Call(System(), error) == Spec.FinishScan(old(System()), invocation, timedOut)
    {
      if invocation !in scans || scans[invocation] !in tools { return Some(Spec.UnknownTool); }
      var t := scans[invocation];
      scans := scans - {invocation};
      if timedOut {
        tools := tools[t := tools[t].(state := Spec.SuspendedTimeoutReview, suspended := true)];
      }
      return None;
    }
  }
}
