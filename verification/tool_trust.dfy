/**
 Which tools may be trusted: the quality lab's run and review logs with the index, baselines and
 quarantines derived from them, and the admission records that gate the scanners. A quarantine
 writes to both, so they form one state.
 */
module ToolTrust {
  import opened Common
  import opened ToolIds

  /* ---------- Quality lab ---------- */

  datatype Quality = QualityAccepted | PassWithLimitations | HumanReviewRequired | QualityFailed | Quarantined | NotAssessed

  const QUALITY_ACCEPTED_MIN := 90.0
  const PASS_WITH_LIMITATIONS_MIN := 80.0
  const HUMAN_REVIEW_MIN := 70.0

  /** The last 500 lines of the run log are searched for a run. */
  const RUN_WINDOW := 500

  /** What a suite's runner reports; detail stands for its metrics and evidence. */
  datatype Payload = Payload(score: Option<real>, gates: map<string, bool>, limitations: seq<string>, detail: string)

  function Classify(p: Payload): Quality {
    if exists g :: g in p.gates && !p.gates[g] then Quarantined
    else if p.score.None? then NotAssessed
    else if p.score.value >= QUALITY_ACCEPTED_MIN && p.limitations == [] then QualityAccepted
    else if p.score.value >= PASS_WITH_LIMITATIONS_MIN then PassWithLimitations
    else if p.score.value >= HUMAN_REVIEW_MIN then HumanReviewRequired
    else QualityFailed
  }

  /** The result that normalized_result_hash covers. */
  datatype SuiteResult = SuiteResult(toolId: Id, payload: Payload)

  datatype Run = Run(id: Id, result: SuiteResult, quality: Quality, hash: Digest<SuiteResult>)

  datatype ReviewDecision = Approve | ApproveWithLimitations | ReturnRun | RejectRun

  datatype Review = Review(runId: Id, decision: ReviewDecision)

  /** reviewStatus is None while PENDING. */
  datatype Card = Card(lastRunId: Id, quality: Quality, score: Option<real>, limitations: seq<string>,
                       hash: Digest<SuiteResult>, reviewStatus: Option<ReviewDecision>)

  datatype Baseline = Baseline(id: Id, runId: Id, quality: Quality, score: Option<real>, hash: Digest<SuiteResult>,
                               limitations: seq<string>)

  function CardOf(run: Run, status: Option<ReviewDecision>): Card {
    Card(run.id, run.quality, run.result.payload.score, run.result.payload.limitations, run.hash, status)
  }

  /** The last run of tool t in the log. */
  function LastRun(runs: seq<Run>, t: Id): Option<Run> {
    if runs == [] then None
    else if runs[|runs| - 1].result.toolId == t then Some(runs[|runs| - 1])
    else LastRun(runs[..|runs| - 1], t)
  }

  function LatestReview(reviews: seq<Review>, runId: Id): Option<ReviewDecision> {
    if reviews == [] then None
    else if reviews[|reviews| - 1].runId == runId then Some(reviews[|reviews| - 1].decision)
    else LatestReview(reviews[..|reviews| - 1], runId)
  }

  /** The run with the given id among the last window lines, latest first. */
  function FindRun(runs: seq<Run>, id: Id, window: nat): Option<Run>
    decreases window
  {
    if runs == [] || window == 0 then None
    else if runs[|runs| - 1].id == id then Some(runs[|runs| - 1])
    else FindRun(runs[..|runs| - 1], id, window - 1)
  }

  /* ---------- Admission ---------- */

  datatype RuntimeState =
    | AwaitingProbe | Registered | MissingNotFailed | VersionProbeHold
    | ActiveReadOnly | ActiveLocalOnly | UserTriggeredScan | OfflineDbHold
    | ArchitectureDeferred | PrivacyAndLicenseReview | LicenseAndPrivacyReview | BlockedCurrentPhase
    | Suspended | SuspendedTimeoutReview

  datatype Tool = Tool(state: RuntimeState, suspended: bool, version: Option<string>, binarySha256: Option<string>)

  /** What probing an executable reports; versionOk is a PASS or a version that is not probed. */
  datatype Probe = Probe(present: bool, versionOk: bool, version: Option<string>, binarySha256: Option<string>)

  /** What a scan finds around it: its scope, its rules, and the hash of the executable now. */
  datatype Surroundings = Surroundings(scopeResolves: bool, rulesResolve: bool, executable: Option<string>)

  function DeferredState(t: Id): Option<RuntimeState> {
    if t == "temporal" || t == "prefect" then Some(ArchitectureDeferred)
    else if t == "langfuse" then Some(PrivacyAndLicenseReview)
    else if t == "phoenix" then Some(LicenseAndPrivacyReview)
    else if t == "swe_agent" || t == "aider" then Some(BlockedCurrentPhase)
    else None
  }

  function TargetState(t: Id): RuntimeState {
    if t == "tree_sitter" then ActiveReadOnly
    else if t == "opentelemetry" then ActiveLocalOnly
    else if t == "semgrep" || t == "gitleaks" then UserTriggeredScan
    else if t == "trivy" then OfflineDbHold
    else Registered
  }

  predicate Admissible(t: Id) {
    t == "tree_sitter" || t == "opentelemetry" || t == "semgrep" || t == "gitleaks" || t == "trivy"
  }

  /** The scanners that can be admitted; trivy is held. */
  predicate Scanner(t: Id) { t == "semgrep" || t == "gitleaks" }

  function StateAfterProbe(t: Id, probe: Probe, previous: Tool): RuntimeState {
    if previous.suspended then Suspended
    else if DeferredState(t).Some? then DeferredState(t).value
    else if !probe.present then MissingNotFailed
    else if !probe.versionOk then VersionProbeHold
    else TargetState(t)
  }

  /* ---------- The state and its calls ---------- */

  /** quarantines gives the reason; scans are the controlled scans still running, by invocation. */
  datatype System = System(
    runs: seq<Run>, reviews: seq<Review>, cards: map<Id, Card>, baselines: map<Id, Baseline>,
    quarantines: map<Id, string>, tools: map<Id, Tool>, scans: map<Id, Id>)

  datatype Error =
    | UnknownSuite | RunnerFailed | RunNotFound | ScorecardNotFound | QualityResultNotEligible
    | HumanReviewApprovalRequired | UnknownTool | ScanNotSupported | ToolSuspended | TrivyHold | ToolNotAdmitted
    | ScopeNotFound | RulesRequired | ExecutableMissing | BinaryHashNotEstablished | BinaryHashChanged
    | ScannerQuarantined | BaselineQuarantined | AdmissionMissing | AdmissionNotEligible | BaselineRequired | BaselineNotEligible

  datatype Call = Call(after: System, error: Option<Error>)

  function Refuse(s: System, e: Error): Call { Call(s, Some(e)) }

  function Done(s: System): Call { Call(s, None) }

  predicate Eligible(q: Quality) { q == QualityAccepted || q == PassWithLimitations }

  predicate Approving(d: Option<ReviewDecision>) { d == Some(Approve) || d == Some(ApproveWithLimitations) }

  /** reaches tells whether the admission record could be written; its failure is swallowed. */
  function Quarantine(s: System, t: Id, reason: string, reaches: bool): System {
    var quarantined := s.(quarantines := s.quarantines[t := reason]);
    if Admissible(t) && t in s.tools && reaches
    then quarantined.(tools := s.tools[t := s.tools[t].(state := Suspended, suspended := true)])
    else quarantined
  }

  /** Persisting a finished benchmark: one log line, and the tool's card. */
  function PersistRun(s: System, run: Run): System {
    s.(runs := s.runs + [run], cards := s.cards[run.result.toolId := CardOf(run, None)])
  }

  /** The reason stored when a benchmark fails a safety gate. */
  function AutomaticReason(): string { "Automatic safety-gate quarantine from benchmark." }

  /** Suites are numbered in catalog order; payload is None when the runner raised. */
  function RunSuite(s: System, suite: nat, id: Id, payload: Option<Payload>, reaches: bool): Call {
    if suite >= 8 then Refuse(s, UnknownSuite)
    else if payload.None? then Refuse(s, RunnerFailed)
    else
      var t := CatalogTool(suite);
      var result := SuiteResult(t, payload.value);
      var quality := Classify(payload.value);
      var persisted := PersistRun(s, Run(id, result, quality, Sha256(result)));
      Done(if quality == Quarantined
           then Quarantine(persisted, t, AutomaticReason(), reaches) else persisted)
  }

  function ReviewRun(s: System, runId: Id, decision: ReviewDecision): Call {
    var run := FindRun(s.runs, runId, RUN_WINDOW);
    if run.None? then Refuse(s, RunNotFound)
    else
      var logged := s.(reviews := s.reviews + [Review(runId, decision)]);
      var t := run.value.result.toolId;
      Done(if t in s.cards && s.cards[t].lastRunId == runId
           then logged.(cards := s.cards[t := s.cards[t].(reviewStatus := Some(decision))]) else logged)
  }

  function AcceptBaseline(s: System, t: Id, id: Id, limitations: seq<string>): Call {
    if t !in s.cards then Refuse(s, ScorecardNotFound)
    else
      var card := s.cards[t];
      if !Eligible(card.quality) then Refuse(s, QualityResultNotEligible)
      else if !Approving(LatestReview(s.reviews, card.lastRunId)) then Refuse(s, HumanReviewApprovalRequired)
      else if FindRun(s.runs, card.lastRunId, RUN_WINDOW).None? then Refuse(s, RunNotFound)
      else Done(s.(baselines := s.baselines[t :=
             Baseline(id, card.lastRunId, card.quality, card.score, card.hash, limitations)]))
  }

  function QuarantineTool(s: System, t: Id, reason: string, reaches: bool): Call {
    Done(Quarantine(s, t, reason, reaches))
  }

  function ApplyProbe(s: System, t: Id, probe: Probe): Call {
    if t !in s.tools then Refuse(s, UnknownTool)
    else Done(s.(tools := s.tools[t := s.tools[t].(
           state := StateAfterProbe(t, probe, s.tools[t]), version := probe.version, binarySha256 := probe.binarySha256)]))
  }

  function Suspend(s: System, t: Id): Call {
    if t !in s.tools then Refuse(s, UnknownTool)
    else Done(s.(tools := s.tools[t := s.tools[t].(state := Suspended, suspended := true)]))
  }

  /** Why a controlled scan would be refused, None when it would run. */
  function ScanRefusal(s: System, t: Id, around: Surroundings): Option<Error> {
    if !Scanner(t) && t != "trivy" then Some(ScanNotSupported)
    else if t !in s.tools then Some(UnknownTool)
    else
      var tool := s.tools[t];
      if tool.suspended then Some(ToolSuspended)
      else if t == "trivy" then Some(TrivyHold)
      else if tool.state != UserTriggeredScan then Some(ToolNotAdmitted)
      else if !around.scopeResolves then Some(ScopeNotFound)
      else if t == "semgrep" && !around.rulesResolve then Some(RulesRequired)
      else if around.executable.None? then Some(ExecutableMissing)
      else if tool.binarySha256.None? then Some(BinaryHashNotEstablished)
      else if around.executable != tool.binarySha256 then Some(BinaryHashChanged)
      else None
  }

  /** A controlled scan up to the launch of the scanner. */
  function StartScan(s: System, t: Id, invocation: Id, around: Surroundings): Call {
    var refusal := ScanRefusal(s, t, around);
    if refusal.Some? then Refuse(s, refusal.value)
    else Done(s.(scans := s.scans[invocation := t]))
  }

  /** And after it: a scan that timed out suspends its tool. */
  function FinishScan(s: System, invocation: Id, timedOut: bool): Call {
    if invocation !in s.scans || s.scans[invocation] !in s.tools then Refuse(s, UnknownTool)
    else
      var t := s.scans[invocation];
      var landed := s.(scans := s.scans - {invocation});
      Done(if timedOut
           then landed.(tools := s.tools[t := s.tools[t].(state := SuspendedTimeoutReview, suspended := true)])
           else landed)
  }

  datatype Gate = Gate(baselineId: Id, quality: Quality, version: Option<string>, binarySha256: Option<string>)

  /** The gate of the project-scoped scans. */
  function ScannerGate(s: System, t: Id): Result<Gate, Error> {
    if !Scanner(t) && t != "trivy" then Err(UnknownTool)
    else if t in s.quarantines then Err(ScannerQuarantined)
    else if t == "trivy" then Err(TrivyHold)
    else if t !in s.tools then Err(AdmissionMissing)
    else if s.tools[t].state != UserTriggeredScan then Err(AdmissionNotEligible)
    else if t !in s.baselines then Err(BaselineRequired)
    else if !Eligible(s.baselines[t].quality) then Err(BaselineNotEligible)
    else
      var baseline := s.baselines[t];
      Ok(Gate(baseline.id, baseline.quality, s.tools[t].version, s.tools[t].binarySha256))
  }

  /** The gate of the native read-only operations, by the key of the baseline they rest on. */
  function NativeGate(s: System, key: Id): Result<Gate, Error> {
    if key in s.quarantines then Err(BaselineQuarantined)
    else if key !in s.baselines then Err(BaselineRequired)
    else if !Eligible(s.baselines[key].quality) then Err(BaselineNotEligible)
    else Ok(Gate(s.baselines[key].id, s.baselines[key].quality, None, None))
  }

  datatype Op =
    | OpRun(suite: nat, id: Id, payload: Option<Payload>, reaches: bool)
    | OpReview(runId: Id, decision: ReviewDecision)
    | OpAccept(tool: Id, id: Id, limitations: seq<string>)
    | OpQuarantine(tool: Id, reason: string, reaches: bool)
    | OpProbe(tool: Id, probe: Probe)
    | OpSuspend(tool: Id)
    | OpStartScan(tool: Id, invocation: Id, around: Surroundings)
    | OpFinishScan(invocation: Id, timedOut: bool)

  /** A uuid4 value is never one already in use. */
  predicate Possible(s: System, op: Op) {
    match op
    case OpRun(_, id, _, _) => forall i :: 0 <= i < |s.runs| ==> s.runs[i].id != id
    case OpStartScan(_, invocation, _) => invocation !in s.scans
    case _ => true
  }

  function Step(s: System, op: Op): Call {
    match op
    case OpRun(suite, id, payload, reaches) => RunSuite(s, suite, id, payload, reaches)
    case OpReview(runId, decision) => ReviewRun(s, runId, decision)
    case OpAccept(t, id, limitations) => AcceptBaseline(s, t, id, limitations)
    case OpQuarantine(t, reason, reaches) => QuarantineTool(s, t, reason, reaches)
    case OpProbe(t, probe) => ApplyProbe(s, t, probe)
    case OpSuspend(t) => Suspend(s, t)
    case OpStartScan(t, invocation, around) => StartScan(s, t, invocation, around)
    case OpFinishScan(invocation, timedOut) => FinishScan(s, invocation, timedOut)
  }

  /** A run of the system; steps that cannot happen are skipped. */
  function After(s: System, ops: seq<Op>): System {
    if ops == [] then s
    else
      var before := After(s, ops[..|ops| - 1]);
      var op := ops[|ops| - 1];
      if Possible(before, op) then Step(before, op).after else before
  }

  /** Nothing logged, and every tool of the registry awaiting its probe or deferred. */
  function Initial(registry: set<Id>): System {
    System([], [], map[], map[], map[],
           map t | t in registry :: Tool(if DeferredState(t).Some? then DeferredState(t).value else AwaitingProbe,
                                         false, None, None),
           map[])
  }

  /** A state that some sequence of calls leads to. */
  ghost predicate Reachable(s: System) {
    exists registry, ops :: s == After(Initial(registry), ops)
  }
}
