/**
 Exactly what each call of the quality lab and of the admission does, and what a history of them leads to.
 */
module ToolTrustCalls {
  import opened Common
  import opened ToolIds
  import opened ToolTrust
  import opened ToolTrustInvariant

  /* ---------- Classification ---------- */

  predicate GatesHold(p: Payload) { forall g :: g in p.gates ==> p.gates[g] }

  /** The six results: a failed gate decides alone; without a score nothing is assessed; the best result needs a score of at
      least 90 and no limitation at all. */
  lemma ClassificationIff(p: Payload)
    ensures Classify(p) == Quarantined <==> !GatesHold(p)
    ensures Classify(p) == NotAssessed <==> GatesHold(p) && p.score.None?
    ensures Classify(p) == QualityAccepted <==> GatesHold(p) && p.score.Some? && p.score.value >= 90.0 && |p.limitations| == 0
    ensures Classify(p) == PassWithLimitations <==>
              GatesHold(p) && p.score.Some? && p.score.value >= 80.0 && (p.score.value < 90.0 || |p.limitations| > 0)
    ensures Classify(p) == HumanReviewRequired <==> GatesHold(p) && p.score.Some? && 70.0 <= p.score.value < 80.0
    ensures Classify(p) == QualityFailed <==> GatesHold(p) && p.score.Some? && p.score.value < 70.0
  {
  }

  /* ---------- The quality lab ---------- */

  /** The admission record after a quarantine of t: suspended if it is one that a quarantine reaches, and otherwise as it was. */
  ghost predicate Suspends(s: System, after: System, t: Id, reaches: bool) {
    && after.tools.Keys == s.tools.Keys
    && (forall u :: u in s.tools ==>
          after.tools[u] ==
          if u == t && reaches && t in {"tree_sitter", "opentelemetry", "semgrep", "gitleaks", "trivy"}
          then Tool(Suspended, true, s.tools[u].version, s.tools[u].binarySha256) else s.tools[u])
  }

  /** A benchmark is logged and carded exactly if its suite exists and its runner reports; a failed gate quarantines its tool
      at once, and nothing else does. */
  lemma BenchmarkedIff(s: System, suite: nat, id: Id, payload: Option<Payload>, reaches: bool)
    ensures var call := RunSuite(s, suite, id, payload, reaches);
            && (call.error == if suite >= 8 then Some(UnknownSuite) else if payload.None? then Some(RunnerFailed) else None)
            && (call.error.Some? ==> call.after == s)
            && (call.error.None? ==>
                  && var t, p := CatalogTool(suite), payload.value;
                     && call.after == s.(runs := call.after.runs, cards := call.after.cards, quarantines := call.after.quarantines,
                                         tools := call.after.tools)
                     && call.after.runs == s.runs + [Run(id, SuiteResult(t, p), Classify(p), Sha256(SuiteResult(t, p)))]
                     && call.after.cards ==
                        s.cards[t := Card(id, Classify(p), p.score, p.limitations, Sha256(SuiteResult(t, p)), None)]
                     && (GatesHold(p) ==> call.after.quarantines == s.quarantines && call.after.tools == s.tools)
                     && (!GatesHold(p) ==>
                           && call.after.quarantines == s.quarantines[t := "Automatic safety-gate quarantine from benchmark."]
                           && Suspends(s, call.after, t, reaches)))
  {
    hide CatalogTool;
    if payload.Some? { ClassificationIff(payload.value); }
    hide Classify, GatesHold;
  }

  /** The card that shows a logged run is its tool's. */
  lemma CardOfRun(s: System, run: Run, t: Id)
    requires Inv(s) && run in s.runs && t in s.cards && s.cards[t].lastRunId == run.id
    ensures t == run.result.toolId
  {
    hide BaselineOk, ReviewsOk, ToolsOk, InCatalog, Classify, LatestReview;
    assert CardAgrees(s, t);
    LastRunIsLogged(s.runs, t);
    hide LastRun;
    IdsIdentifyRuns(s.runs, LastRun(s.runs, t).value, run);
  }

  /** A run is reviewed exactly if it is among the last 500; the review is logged, and shown on the card of its tool exactly
      if it is that tool's last run. */
  lemma ReviewedIff(s: System, runId: Id, decision: ReviewDecision)
    requires Reachable(s)
    ensures var call := ReviewRun(s, runId, decision);
            && (call.error.None? <==> exists i :: 0 <= i < |s.runs| && |s.runs| - 500 <= i && s.runs[i].id == runId)
            && (call.error.Some? ==> call == Call(s, Some(RunNotFound)))
            && (call.error.None? ==>
                  && call.after == s.(reviews := s.reviews + [Review(runId, decision)], cards := call.after.cards)
                  && call.after.cards.Keys == s.cards.Keys
                  && forall t :: t in s.cards ==>
                       call.after.cards[t] ==
                       if s.cards[t].lastRunId == runId then s.cards[t].(reviewStatus := Some(decision)) else s.cards[t])
  {
    ReachableInv(s);
    FindRunMeaning(s.runs, runId, RUN_WINDOW);
    hide Reachable, Inv, FindRun, ReviewRun;
    if FindRun(s.runs, runId, RUN_WINDOW).Some? { ReviewWrites(s, runId, decision); }
    ReviewFails(s, runId, decision);
  }

  lemma ReviewFails(s: System, runId: Id, decision: ReviewDecision)
    ensures ReviewRun(s, runId, decision).error == if FindRun(s.runs, runId, RUN_WINDOW).Some? then None else Some(RunNotFound)
    ensures ReviewRun(s, runId, decision).error.Some? ==> ReviewRun(s, runId, decision).after == s
  {
    hide FindRun;
  }

  lemma ReviewWrites(s: System, runId: Id, decision: ReviewDecision)
    requires Inv(s) && FindRun(s.runs, runId, RUN_WINDOW).Some? && FindRun(s.runs, runId, RUN_WINDOW).value.id == runId
    requires FindRun(s.runs, runId, RUN_WINDOW).value in s.runs
    ensures var s' := ReviewRun(s, runId, decision).after;
            && s' == s.(reviews := s.reviews + [Review(runId, decision)], cards := s'.cards)
            && s'.cards.Keys == s.cards.Keys
            && forall t :: t in s.cards ==>
                 s'.cards[t] == if s.cards[t].lastRunId == runId then s.cards[t].(reviewStatus := Some(decision)) else s.cards[t]
  {
    hide Inv, FindRun, ReviewRun;
    var run := FindRun(s.runs, runId, RUN_WINDOW).value;
    ReviewEffect(s, runId, decision, run.result.toolId);
    forall t
      ensures t in ReviewRun(s, runId, decision).after.cards <==> t in s.cards
      ensures t in s.cards ==>
                ReviewRun(s, runId, decision).after.cards[t] ==
                if s.cards[t].lastRunId == runId then s.cards[t].(reviewStatus := Some(decision)) else s.cards[t]
    {
      ReviewEffect(s, runId, decision, t);
      if t in s.cards && s.cards[t].lastRunId == runId { CardOfRun(s, run, t); }
    }
  }

  /** An accepted baseline is that of the tool's last run, with the limitations given; nothing else changes. */
  lemma AcceptanceKeeps(s: System, t: Id, id: Id, limitations: seq<string>)
    requires Reachable(s)
    ensures var call := AcceptBaseline(s, t, id, limitations);
            && (call.error.Some? ==> call.after == s)
            && (call.error.None? ==>
                  && LastRun(s.runs, t).Some?
                  && var last := LastRun(s.runs, t).value;
                     call.after == s.(baselines := s.baselines[t :=
                       Baseline(id, last.id, last.quality, last.result.payload.score, Sha256(last.result), limitations)]))
    ensures var error := AcceptBaseline(s, t, id, limitations).error; var last := LastRun(s.runs, t);
            && (error == Some(ScorecardNotFound) <==> last.None?)
            && (error == Some(QualityResultNotEligible) <==>
                  last.Some? && last.value.quality != QualityAccepted && last.value.quality != PassWithLimitations)
            && (error == Some(HumanReviewApprovalRequired) <==>
                  && last.Some? && (last.value.quality == QualityAccepted || last.value.quality == PassWithLimitations)
                  && LatestReview(s.reviews, last.value.id) != Some(Approve)
                  && LatestReview(s.reviews, last.value.id) != Some(ApproveWithLimitations))
            && (error.Some? ==> error.value in {ScorecardNotFound, QualityResultNotEligible, HumanReviewApprovalRequired, RunNotFound})
  {
    ReachableInv(s);
    hide Reachable, BaselineOk, ReviewsOk, ToolsOk, InCatalog, Classify, LatestReview, FindRun;
    assert CardAgrees(s, t);
    if LastRun(s.runs, t).Some? { LastRunIsLogged(s.runs, t); }
    hide LastRun;
  }

  lemma QuarantinedIs(s: System, t: Id, reason: string, reaches: bool)
    ensures var call := QuarantineTool(s, t, reason, reaches);
            && call.error.None? && call.after == s.(quarantines := s.quarantines[t := reason], tools := call.after.tools)
            && Suspends(s, call.after, t, reaches)
  {
  }

  /* ---------- The admission ---------- */

  /** The tools that a probe never admits, and where they stay. */
  function Deferred(t: Id): Option<RuntimeState> {
    if t in {"temporal", "prefect"} then Some(ArchitectureDeferred)
    else if t in {"swe_agent", "aider"} then Some(BlockedCurrentPhase)
    else if t == "langfuse" then Some(PrivacyAndLicenseReview)
    else if t == "phoenix" then Some(LicenseAndPrivacyReview)
    else None
  }

  /** The state a good probe leads to. */
  predicate Target(t: Id, state: RuntimeState) {
    && (state == UserTriggeredScan <==> t in {"semgrep", "gitleaks"})
    && (state == ActiveReadOnly <==> t == "tree_sitter")
    && (state == ActiveLocalOnly <==> t == "opentelemetry")
    && (state == OfflineDbHold <==> t == "trivy")
    && (state == Registered <==> t !in {"semgrep", "gitleaks", "tree_sitter", "opentelemetry", "trivy"})
  }

  /** What a probe leaves: a suspended record stays suspended and a deferred tool deferred; otherwise a missing executable or
      a failed version probe holds the tool, and only a good probe takes it where it belongs. Version and hash are those
      reported, always. */
  lemma ProbedIs(s: System, t: Id, probe: Probe)
    ensures var call := ApplyProbe(s, t, probe);
            && (call.error == if t in s.tools then None else Some(UnknownTool))
            && (call.error.Some? ==> call.after == s)
            && (call.error.None? ==>
                  && call.after == s.(tools := s.tools[t := call.after.tools[t]])
                  && var tool := call.after.tools[t];
                     && tool.suspended == s.tools[t].suspended
                     && tool.version == probe.version && tool.binarySha256 == probe.binarySha256
                     && (s.tools[t].suspended ==> tool.state == Suspended)
                     && (!s.tools[t].suspended ==>
                           && (Deferred(t).Some? ==> tool.state == Deferred(t).value)
                           && (Deferred(t).None? ==>
                                 && (tool.state == MissingNotFailed <==> !probe.present)
                                 && (tool.state == VersionProbeHold <==> probe.present && !probe.versionOk)
                                 && (probe.present && probe.versionOk ==> Target(t, tool.state)))))
  {
  }

  lemma SuspendedIs(s: System, t: Id)
    ensures Suspend(s, t) ==
            if t !in s.tools then Call(s, Some(UnknownTool))
            else Call(s.(tools := s.tools[t := Tool(Suspended, true, s.tools[t].version, s.tools[t].binarySha256)]), None)
  {
  }

  /** A scan starts exactly for a scanner that is registered, not suspended and admitted, with its scope, its rules if it is
      semgrep, and the executable whose hash the last probe reported. */
  lemma ScanStartsIff(s: System, t: Id, invocation: Id, around: Surroundings)
    requires invocation !in s.scans
    ensures var call := StartScan(s, t, invocation, around);
            && (call.error.None? <==>
                  && t in {"semgrep", "gitleaks"} && t in s.tools && !s.tools[t].suspended && s.tools[t].state == UserTriggeredScan
                  && around.scopeResolves && (t == "semgrep" ==> around.rulesResolve)
                  && around.executable.Some? && s.tools[t].binarySha256 == around.executable)
            && call.after == if call.error.None? then s.(scans := s.scans[invocation := t]) else s
  {
  }

  /** Which of the refusals it is. */
  lemma ScanRefusalIs(s: System, t: Id, around: Surroundings)
    ensures var error := ScanRefusal(s, t, around);
            var supported := t in {"semgrep", "gitleaks", "trivy"}; var recorded := supported && t in s.tools;
            var admitted := recorded && !s.tools[t].suspended && t != "trivy" && s.tools[t].state == UserTriggeredScan;
            var ready := admitted && around.scopeResolves && (t == "semgrep" ==> around.rulesResolve);
            && (error == Some(ScanNotSupported) <==> !supported)
            && (error == Some(UnknownTool) <==> supported && t !in s.tools)
            && (error == Some(ToolSuspended) <==> recorded && s.tools[t].suspended)
            && (error == Some(TrivyHold) <==> recorded && !s.tools[t].suspended && t == "trivy")
            && (error == Some(ToolNotAdmitted) <==>
                  recorded && !s.tools[t].suspended && t != "trivy" && s.tools[t].state != UserTriggeredScan)
            && (error == Some(ScopeNotFound) <==> admitted && !around.scopeResolves)
            && (error == Some(RulesRequired) <==> admitted && around.scopeResolves && t == "semgrep" && !around.rulesResolve)
            && (error == Some(ExecutableMissing) <==> ready && around.executable.None?)
            && (error == Some(BinaryHashNotEstablished) <==> ready && around.executable.Some? && s.tools[t].binarySha256.None?)
            && (error == Some(BinaryHashChanged) <==>
                  && ready && around.executable.Some? && s.tools[t].binarySha256.Some?
                  && around.executable.value != s.tools[t].binarySha256.value)
  {
  }

  /** The end of a scan takes it off the list; only a timeout suspends, and only the scan's own tool. */
  lemma ScanFinishes(s: System, invocation: Id, timedOut: bool)
    ensures var call := FinishScan(s, invocation, timedOut);
            && (call.error.None? <==> invocation in s.scans && s.scans[invocation] in s.tools)
            && (call.error.Some? ==> call == Call(s, Some(UnknownTool)))
            && (call.error.None? ==>
                  && call.after == s.(scans := s.scans - {invocation}, tools := call.after.tools)
                  && call.after.tools.Keys == s.tools.Keys
                  && forall u :: u in s.tools ==>
                       call.after.tools[u] ==
                       if timedOut && u == s.scans[invocation]
                       then Tool(SuspendedTimeoutReview, true, s.tools[u].version, s.tools[u].binarySha256) else s.tools[u])
  {
  }

  /* ---------- The gates ---------- */

  predicate GoodBaseline(s: System, t: Id) {
    t in s.baselines && (s.baselines[t].quality == QualityAccepted || s.baselines[t].quality == PassWithLimitations)
  }

  /** The scanner gate opens exactly for an admitted scanner under no quarantine with a good baseline, and shows that baseline
      with the version and hash of the last probe. */
  lemma ScannerGateIff(s: System, t: Id)
    ensures var gate := ScannerGate(s, t);
            && (gate.Ok? <==>
                  && t in {"semgrep", "gitleaks"} && t !in s.quarantines
                  && t in s.tools && s.tools[t].state == UserTriggeredScan && GoodBaseline(s, t))
            && (gate.Ok? ==> gate.value == Gate(s.baselines[t].id, s.baselines[t].quality, s.tools[t].version, s.tools[t].binarySha256))
            && (gate == Err(UnknownTool) <==> t !in {"semgrep", "gitleaks", "trivy"})
            && (gate == Err(ScannerQuarantined) <==> t in {"semgrep", "gitleaks", "trivy"} && t in s.quarantines)
            && (gate == Err(TrivyHold) <==> t == "trivy" && t !in s.quarantines)
            && (gate == Err(AdmissionMissing) <==> t in {"semgrep", "gitleaks"} && t !in s.quarantines && t !in s.tools)
            && (gate == Err(AdmissionNotEligible) <==>
                  && t in {"semgrep", "gitleaks"} && t !in s.quarantines && t in s.tools && s.tools[t].state != UserTriggeredScan)
            && (gate == Err(BaselineRequired) <==>
                  && t in {"semgrep", "gitleaks"} && t !in s.quarantines && t in s.tools && s.tools[t].state == UserTriggeredScan
                  && t !in s.baselines)
  {
  }

  lemma NativeGateIff(s: System, key: Id)
    ensures var gate := NativeGate(s, key);
            && (gate.Ok? <==> key !in s.quarantines && GoodBaseline(s, key))
            && (gate.Ok? ==> gate.value == Gate(s.baselines[key].id, s.baselines[key].quality, None, None))
            && (gate == Err(BaselineQuarantined) <==> key in s.quarantines)
            && (gate == Err(BaselineRequired) <==> key !in s.quarantines && key !in s.baselines)
            && (gate.Err? ==> gate.error in {BaselineQuarantined, BaselineRequired, BaselineNotEligible})
  {
  }

  /* ---------- Histories ---------- */

  /** The last probe of t among these calls. */
  function LastProbe(ops: seq<Op>, t: Id): Option<Probe> {
    if ops == [] then None
    else
      var op := ops[|ops| - 1];
      if op.OpProbe? && op.tool == t then Some(op.probe) else LastProbe(ops[..|ops| - 1], t)
  }

  /** The record of t agrees with its last probe. */
  predicate AgreesWithProbe(s: System, t: Id, probe: Option<Probe>) {
    && t in s.tools
    && s.tools[t].binarySha256 == (if probe.None? then None else probe.value.binarySha256)
    && s.tools[t].version == (if probe.None? then None else probe.value.version)
    && (s.tools[t].suspended ==> s.tools[t].state != UserTriggeredScan)
    && (!s.tools[t].suspended ==>
          (s.tools[t].state == UserTriggeredScan <==>
             t in {"semgrep", "gitleaks"} && probe.Some? && probe.value.present && probe.value.versionOk))
  }

  lemma StepAgrees(s: System, op: Op, t: Id, probe: Option<Probe>)
    requires AgreesWithProbe(s, t, probe)
    ensures AgreesWithProbe(Step(s, op).after, t, if op.OpProbe? && op.tool == t then Some(op.probe) else probe)
  {
    hide RunSuite, ReviewRun, AcceptBaseline, QuarantineTool, ApplyProbe, Suspend, StartScan, FinishScan, Classify, CatalogTool;
    match op
    case OpRun(suite, id, payload, reaches) => BenchmarkedIff(s, suite, id, payload, reaches);
    case OpReview(runId, decision) => ReviewLeavesTools(s, runId, decision);
    case OpAccept(tool, id, limitations) => AcceptLeavesTools(s, tool, id, limitations);
    case OpQuarantine(tool, reason, reaches) => QuarantinedIs(s, tool, reason, reaches);
    case OpProbe(tool, p) => ProbeAgrees(s, tool, p, t, probe);
    case OpSuspend(tool) => SuspendedIs(s, tool);
    case OpStartScan(tool, invocation, around) => StartLeavesTools(s, tool, invocation, around);
    case OpFinishScan(invocation, timedOut) => ScanFinishes(s, invocation, timedOut);
  }

  lemma ProbeAgrees(s: System, tool: Id, p: Probe, t: Id, probe: Option<Probe>)
    requires AgreesWithProbe(s, t, probe)
    ensures AgreesWithProbe(ApplyProbe(s, tool, p).after, t, if tool == t then Some(p) else probe)
  {
    hide ApplyProbe;
    ProbedIs(s, tool, p);
  }

  lemma ReviewLeavesTools(s: System, runId: Id, decision: ReviewDecision)
    ensures ReviewRun(s, runId, decision).after.tools == s.tools
  {
    hide FindRun;
  }

  lemma AcceptLeavesTools(s: System, t: Id, id: Id, limitations: seq<string>)
    ensures AcceptBaseline(s, t, id, limitations).after.tools == s.tools
  {
    hide FindRun, LatestReview;
  }

  lemma StartLeavesTools(s: System, t: Id, invocation: Id, around: Surroundings)
    ensures StartScan(s, t, invocation, around).after.tools == s.tools
  {
    hide ScanRefusal;
  }

  lemma FirstRecord(registry: set<Id>, t: Id)
    requires t in registry
    ensures AgreesWithProbe(Initial(registry), t, None)
    ensures Initial(registry).tools[t].state == if Deferred(t).Some? then Deferred(t).value else AwaitingProbe
  {
  }

  lemma {:induction false} HistoryAgrees(registry: set<Id>, ops: seq<Op>, t: Id)
    requires t in registry
    ensures AgreesWithProbe(After(Initial(registry), ops), t, LastProbe(ops, t))
  {
    hide Step, Possible, Initial, AgreesWithProbe;
    if ops == [] {
      FirstRecord(registry, t);
    } else {
      var init, op := ops[..|ops| - 1], ops[|ops| - 1];
      HistoryAgrees(registry, init, t);
      var before := After(Initial(registry), init);
      StepAgrees(before, op, t, LastProbe(init, t));
      if op.OpProbe? { ProbesArePossible(before, op); }
      if !Possible(before, op) { assert LastProbe(ops, t) == LastProbe(init, t); }
    }
  }

  lemma ProbesArePossible(s: System, op: Op)
    requires op.OpProbe?
    ensures Possible(s, op)
  {
  }

  /** After any history, a registered scanner scans exactly if no call has suspended it, its last probe found an executable
      with a good version, and that executable, by hash, is the one found now, with scope and rules in place. */
  lemma ScannerRunsIff(registry: set<Id>, ops: seq<Op>, t: Id, invocation: Id, around: Surroundings)
    requires t in registry && t in {"semgrep", "gitleaks"} && invocation !in After(Initial(registry), ops).scans
    ensures var s := After(Initial(registry), ops); var probe := LastProbe(ops, t);
            t in s.tools &&
            (StartScan(s, t, invocation, around).error.None? <==>
               && !s.tools[t].suspended && probe.Some? && probe.value.present && probe.value.versionOk
               && around.scopeResolves && (t == "semgrep" ==> around.rulesResolve)
               && around.executable.Some? && around.executable == probe.value.binarySha256)
  {
    hide After, Initial, StartScan;
    HistoryAgrees(registry, ops, t);
    ScanStartsIff(After(Initial(registry), ops), t, invocation, around);
  }
}
