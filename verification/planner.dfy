/**
 The goal planner's view of the quality evidence: a decision per canonical tool, and the choice of
 a tool for every step of a plan. Rows are the stored records in file order.
 */
module Planner {
  import opened Common
  import opened ToolIds
  import opened ToolTrust

  datatype QualityState =
    | Accepted | Limited | AwaitsHumanReview | Unassessed | Failed | Forbidden | RevalidationRequired

  /** A record's normalized_result_hash or, without one, the versions it names. */
  datatype Fingerprint = OfResult(hash: Digest<SuiteResult>) | OfVersions(parts: seq<Option<string>>)

  datatype ScoreRow = ScoreRow(state: QualityState, score: Option<real>, fingerprint: Option<Fingerprint>)

  datatype BaselineRow = BaselineRow(id: Id, fingerprint: Option<Fingerprint>)

  datatype QuarantineRow = QuarantineRow(active: bool)

  datatype Row<T> = Row(toolId: Id, entry: T)

  /** The last row of each normalised tool id; rows without an id are dropped. */
  function LatestByTool<T>(rows: seq<Row<T>>): map<Id, T> {
    if rows == [] then map[]
    else
      var before := LatestByTool(rows[..|rows| - 1]);
      var last := rows[|rows| - 1];
      if Normalize(last.toolId) == "" then before else before[Normalize(last.toolId) := last.entry]
  }

  datatype Reason =
    | ActiveQuarantineWins | BaselineMissing | FingerprintMissing | FingerprintChanged | NoScorecard | QualityNotAssessed
    | NotInSnapshot

  datatype ToolDecision = ToolDecision(toolId: Id, state: QualityState, score: Option<real>, reasons: seq<Reason>,
                               baselinePresent: bool, revalidation: bool, baselineId: Option<Id>)

  /** Why an accepted or limited result must be revalidated, if it must. */
  function Revalidation(card: Option<ScoreRow>, baseline: Option<BaselineRow>): Option<Reason> {
    if baseline.None? then Some(BaselineMissing)
    else if card.None? || card.value.fingerprint.None? || baseline.value.fingerprint.None? then Some(FingerprintMissing)
    else if card.value.fingerprint != baseline.value.fingerprint then Some(FingerprintChanged)
    else None
  }

  function Decide(t: Id, card: Option<ScoreRow>, baseline: Option<BaselineRow>, quarantine: Option<QuarantineRow>): ToolDecision {
    var quarantined := quarantine.Some? && quarantine.value.active;
    var assessed := if quarantined then Forbidden else if card.Some? then card.value.state else Unassessed;
    var why := if assessed == Accepted || assessed == Limited then Revalidation(card, baseline) else None;
    var state := if why.Some? then RevalidationRequired else assessed;
    ToolDecision(t, state, if card.Some? then card.value.score else None,
             (if quarantined then [ActiveQuarantineWins] else []) + (if why.Some? then [why.value] else [])
             + (if card.None? then [NoScorecard] else []) + (if state == Unassessed then [QualityNotAssessed] else []),
             baseline.Some?, why.Some?, if baseline.Some? then Some(baseline.value.id) else None)
  }

  function Find<T>(m: map<Id, T>, t: Id): Option<T> {
    if t in m then Some(m[t]) else None
  }

  datatype Evidence = Evidence(cards: seq<Row<ScoreRow>>, baselines: seq<Row<BaselineRow>>, quarantines: seq<Row<QuarantineRow>>)

  function DecisionFor(e: Evidence, t: Id): ToolDecision {
    Decide(t, Find(LatestByTool(e.cards), t), Find(LatestByTool(e.baselines), t), Find(LatestByTool(e.quarantines), t))
  }

  /** The canonical tools in the snapshot's order. */
  function CanonicalTools(): seq<Id> {
    ["gitleaks", "local-telemetry", "native-code-index", "opentelemetry", "semgrep", "temporal", "tree-sitter", "trivy"]
  }

  function Capabilities(t: Id): set<string> {
    if t == "tree-sitter" then {"code_parse", "code_index", "symbols", "dependencies", "syntax_tree"}
    else if t == "opentelemetry" then {"local_telemetry", "tracing", "metrics", "observability"}
    else if t == "semgrep" then {"static_analysis", "security_scan", "code_quality", "pattern_scan"}
    else if t == "gitleaks" then {"secret_scan", "credential_detection", "security_scan"}
    else if t == "trivy" then {"dependency_vulnerability_scan", "container_scan", "security_scan"}
    else if t == "temporal" then {"workflow_orchestration", "durable_workflow"}
    else if t == "native-code-index" then {"code_index", "symbols", "dependencies"}
    else if t == "local-telemetry" then {"local_telemetry", "tracing", "metrics"}
    else {}
  }

  type Snapshot = map<Id, ToolDecision>

  function SnapshotOf(e: Evidence): Snapshot {
    map t | t in CanonicalTools() :: DecisionFor(e, t)
  }

  /* ---------- Plans ---------- */

  /** required is the set of trimmed, lower-case capability names that are not empty. */
  datatype PlanStep = PlanStep(id: Id, required: set<string>, candidates: seq<Id>)

  /** The distinct normalised ids, first occurrence first. */
  function Explicit(ids: seq<Id>): seq<Id> {
    if ids == [] then []
    else
      var before := Explicit(ids[..|ids| - 1]);
      var t := Normalize(ids[|ids| - 1]);
      if t == "" || t in before then before else before + [t]
  }

  function Matching(tools: seq<Id>, required: set<string>): seq<Id> {
    if tools == [] then []
    else
      var before := Matching(tools[..|tools| - 1], required);
      var t := tools[|tools| - 1];
      if required <= Capabilities(t) then before + [t] else before
  }

  function Candidates(step: PlanStep): seq<Id> {
    if Explicit(step.candidates) != [] then Explicit(step.candidates)
    else if step.required == {} then []
    else Matching(CanonicalTools(), step.required)
  }

  function RowFor(snapshot: Snapshot, t: Id): ToolDecision {
    if t in snapshot then snapshot[t] else ToolDecision(t, Unassessed, None, [NotInSnapshot], false, false, None)
  }

  function RowsFor(snapshot: Snapshot, step: PlanStep): seq<ToolDecision> {
    var candidates := Candidates(step);
    seq(|candidates|, i requires 0 <= i < |candidates| => RowFor(snapshot, candidates[i]))
  }

  function WithState(rows: seq<ToolDecision>, state: QualityState): seq<ToolDecision> {
    if rows == [] then []
    else
      var before := WithState(rows[..|rows| - 1], state);
      if rows[|rows| - 1].state == state then before + [rows[|rows| - 1]] else before
  }

  /** The sort key: a missing score sorts last, and a score of zero is replaced by minus one. */
  function KeyScore(d: ToolDecision): real {
    if d.score.None? || d.score.value == 0.0 then -1.0 else d.score.value
  }

  predicate KeyAtLeast(a: ToolDecision, b: ToolDecision) {
    if a.score.Some? != b.score.Some? then a.score.Some? else KeyScore(a) >= KeyScore(b)
  }

  /** Where a stable descending sort puts x among rows already sorted: after every row at least as good. */
  function Position(rows: seq<ToolDecision>, x: ToolDecision): (p: nat)
    ensures p <= |rows|
  {
    if rows == [] || KeyAtLeast(rows[|rows| - 1], x) then |rows| else Position(rows[..|rows| - 1], x)
  }

  function Sorted(rows: seq<ToolDecision>): (sorted: seq<ToolDecision>)
    ensures |sorted| == |rows|
  {
    if rows == [] then []
    else
      var before, x := Sorted(rows[..|rows| - 1]), rows[|rows| - 1];
      var p := Position(before, x);
      before[..p] + [x] + before[p..]
  }

  datatype Basis = AcceptedHighestScore | LimitedWithApproval

  datatype Choice = Chosen(tool: ToolDecision, basis: Basis) | NoEligibleTool

  function Choose(rows: seq<ToolDecision>, limitedApproval: bool): Choice {
    if WithState(rows, Accepted) != [] then Chosen(Sorted(WithState(rows, Accepted))[0], AcceptedHighestScore)
    else if WithState(rows, Limited) != [] && limitedApproval
    then Chosen(Sorted(WithState(rows, Limited))[0], LimitedWithApproval)
    else NoEligibleTool
  }

  /** Limited tools may be chosen when that is allowed and a person's approval is referenced. */
  predicate LimitedApproval(allowLimited: bool, reference: Option<string>) {
    allowLimited && reference.Some? && reference.value != ""
  }

  datatype Plan = Plan(ready: bool, choices: seq<Choice>)

  function Choices(snapshot: Snapshot, steps: seq<PlanStep>, limitedApproval: bool): (choices: seq<Choice>)
    ensures |choices| == |steps|
  {
    seq(|steps|, i requires 0 <= i < |steps| => Choose(RowsFor(snapshot, steps[i]), limitedApproval))
  }

  function EvaluatePlan(snapshot: Snapshot, steps: seq<PlanStep>, allowLimited: bool, reference: Option<string>): Plan {
    var choices := Choices(snapshot, steps, LimitedApproval(allowLimited, reference));
    Plan(NoEligibleTool !in choices, choices)
  }
}
