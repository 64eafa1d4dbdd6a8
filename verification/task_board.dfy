/**
 The task, manifest, run and review machine shared by the native operations (wave 1) and
 the external scanners (wave 2). The two differ in the states where a manifest may be
 prepared, in whether creation passes the gate, and in what is re-verified before a run.
 */
module TaskBoard {
  import opened Common

  datatype Status =
    | Draft | ReadyForReview | ApprovedForRun | Running | HumanResultReview
    | AcceptedResult | ReturnedForReview | RejectedResult | Failed

  datatype ManifestStatus = Prepared | Approved

  datatype Decision = Accept | Return | Reject

  /** What distinguishes the two machines. */
  datatype Config = Config(prepareFrom: set<Status>, gateOnCreate: bool, rechecks: Rechecks)

  /** What is compared before a run, besides the baseline: the request, or the scanner and its rules. */
  datatype Rechecks = TheRequest | TheScanner

  const NATIVE_OPERATIONS := Config({Draft, ReadyForReview}, false, TheRequest)
  const EXTERNAL_SCANNERS := Config({Draft, ReadyForReview, ReturnedForReview}, true, TheScanner)

  /** What the operator asks for; rules is the path of local rules, when one is given. */
  datatype Request = Request(title: string, goal: string, toolId: Id, scope: string, rules: Option<string>)

  /** The request as recorded; rulesSha256 is the hash of the local rules, when there are any. */
  datatype Input = Input(title: string, goal: string, toolId: Id, scope: string, rulesSha256: Option<string>)

  /** The hash of the request, kept apart from the other digests. */
  datatype InputHash = InputSha256(input: Input)

  /** What the gate reports of an eligible tool: everything a manifest pins. */
  datatype Pins = Pins(baselineId: Id, qualityResult: string, version: Option<string>, binarySha256: Option<string>)

  /** What a call finds outside the board: the gate's answer, whether the scope resolves, and the rules' hash. */
  datatype World = World(gate: Option<Pins>, scopeResolves: bool, rulesSha256: Option<string>)

  datatype Task = Task(input: Input, status: Status, manifestId: Option<Id>, runId: Option<Id>, approvedBy: Option<string>)

  datatype ManifestCore = ManifestCore(taskId: Id, pins: Pins, inputHash: InputHash, rulesSha256: Option<string>)

  datatype Manifest = Manifest(core: ManifestCore, sha256: Digest<ManifestCore>, status: ManifestStatus)

  datatype Run = Run(taskId: Id, manifestId: Id, manifestSha256: Digest<ManifestCore>, status: Status, resultSha256: Digest<string>)

  /** A run that has started and not finished: the manifest it read when it started. */
  datatype Flight = Flight(taskId: Id, manifestId: Id, manifestSha256: Digest<ManifestCore>)

  datatype Checkpoint = Checkpoint(
    taskId: Id, runId: Id, resultSha256: Digest<string>, manifestSha256: Digest<ManifestCore>)

  /** started is the evidence of started runs: the manifest each one ran under. */
  datatype Board = Board(
    tasks: map<Id, Task>, manifests: map<Id, Manifest>, runs: map<Id, Run>,
    flights: map<Id, Flight>, checkpoints: map<Id, Checkpoint>, started: map<Id, Id>)

  const EMPTY := Board(map[], map[], map[], map[], map[], map[])

  datatype Error =
    | UnknownTool | ToolHeld | RulesRequired | RulesNotAllowed
    | GateClosed | ScopeInvalid | TaskNotFound | InvalidTaskTransition | TaskNotReadyForManifest | LocalRulesChanged
    | TaskNotReadyForApproval | ManifestRequired | ManifestNotFound | ManifestNotPrepared
    | UnapprovedTask | UnapprovedManifest | StaleBaseline | StaleVersion | StaleBinary | StaleInput | StaleRules
    | RunNotFound | RunNotReadyForReview | ToolFailed

  datatype Call = Call(after: Board, error: Option<Error>)

  function Refuse(b: Board, e: Error): Call { Call(b, Some(e)) }

  function Done(b: Board): Call { Call(b, None) }

  function SetStatus(b: Board, taskId: Id, status: Status): Board
    requires taskId in b.tasks
  {
    b.(tasks := b.tasks[taskId := b.tasks[taskId].(status := status)])
  }

  /* What each call writes once its guards pass. */

  function WithManifest(b: Board, taskId: Id, id: Id, core: ManifestCore): Board
    requires taskId in b.tasks
  {
    b.(manifests := b.manifests[id := Manifest(core, Sha256(core), Prepared)],
       tasks := b.tasks[taskId := b.tasks[taskId].(manifestId := Some(id))])
  }

  function WithApproval(b: Board, taskId: Id, manifestId: Id, approver: string): Board
    requires taskId in b.tasks && manifestId in b.manifests
  {
    b.(tasks := b.tasks[taskId := b.tasks[taskId].(status := ApprovedForRun, approvedBy := Some(approver))],
       manifests := b.manifests[manifestId := b.manifests[manifestId].(status := Approved)])
  }

  function WithStart(b: Board, taskId: Id, manifestId: Id, runId: Id): Board
    requires taskId in b.tasks && manifestId in b.manifests
  {
    b.(tasks := b.tasks[taskId := b.tasks[taskId].(status := Running, runId := Some(runId))],
       flights := b.flights[runId := Flight(taskId, manifestId, b.manifests[manifestId].sha256)],
       started := b.started[runId := manifestId])
  }

  /** result is None when the run failed, which leaves no run record. */
  function WithLanding(b: Board, runId: Id, result: Option<string>): Board
    requires runId in b.flights && b.flights[runId].taskId in b.tasks
  {
    var f := b.flights[runId];
    var landed := b.(flights := b.flights - {runId});
    if result.None? then SetStatus(landed, f.taskId, Failed)
    else
      var run := Run(f.taskId, f.manifestId, f.manifestSha256, HumanResultReview, Sha256(result.value));
      SetStatus(landed.(runs := landed.runs[runId := run]), f.taskId, HumanResultReview)
  }

  function WithVerdict(b: Board, runId: Id, status: Status): Board
    requires runId in b.runs && b.runs[runId].taskId in b.tasks
  {
    SetStatus(b.(runs := b.runs[runId := b.runs[runId].(status := status)]), b.runs[runId].taskId, status)
  }

  function WithCheckpoint(b: Board, runId: Id, id: Id): Board
    requires runId in b.runs
  {
    var run := b.runs[runId];
    b.(checkpoints := b.checkpoints[id := Checkpoint(run.taskId, runId, run.resultSha256, run.manifestSha256)])
  }

  /* The calls. */

  /** The tools of each machine. */
  predicate Known(cfg: Config, t: Id) {
    if cfg.rechecks == TheScanner then t == "semgrep" || t == "gitleaks" || t == "trivy"
    else t in {"project_summary", "route_index", "component_index", "symbol_index", "docs_index", "file_metadata",
               "project_reader", "route_reader"}
  }

  predicate Held(cfg: Config, t: Id) { cfg.rechecks == TheScanner && t == "trivy" }

  predicate NeedsRules(cfg: Config, t: Id) { cfg.rechecks == TheScanner && t == "semgrep" }

  predicate GivesRules(request: Request) { request.rules.Some? && request.rules.value != "" }

  /** Why a task is not created; a native request has no rules to give. */
  function CreateRefusal(cfg: Config, request: Request, world: World): Option<Error> {
    if !Known(cfg, request.toolId) then Some(UnknownTool)
    else if Held(cfg, request.toolId) then Some(ToolHeld)
    else if cfg.gateOnCreate && world.gate.None? then Some(GateClosed)
    else if !world.scopeResolves then Some(ScopeInvalid)
    else if NeedsRules(cfg, request.toolId) then
      if !GivesRules(request) then Some(RulesRequired) else if world.rulesSha256.None? then Some(ScopeInvalid) else None
    else if cfg.rechecks == TheScanner && GivesRules(request) then Some(RulesNotAllowed)
    else None
  }

  /** The request with the hash of its rules, if it needs any. */
  function Recorded(cfg: Config, request: Request, world: World): Input {
    Input(request.title, request.goal, request.toolId, request.scope,
          if NeedsRules(cfg, request.toolId) then world.rulesSha256 else None)
  }

  function Create(cfg: Config, b: Board, id: Id, request: Request, world: World): Call {
    var refusal := CreateRefusal(cfg, request, world);
    if refusal.Some? then Refuse(b, refusal.value)
    else Done(b.(tasks := b.tasks[id := Task(Recorded(cfg, request, world), Draft, None, None, None)]))
  }

  function Submit(b: Board, taskId: Id): Call {
    if taskId !in b.tasks then Refuse(b, TaskNotFound)
    else if b.tasks[taskId].status !in {Draft, ReturnedForReview} then Refuse(b, InvalidTaskTransition)
    else Done(SetStatus(b, taskId, ReadyForReview))
  }

  function Prepare(cfg: Config, b: Board, taskId: Id, id: Id, world: World): Call {
    if taskId !in b.tasks then Refuse(b, TaskNotFound)
    else
      var task := b.tasks[taskId];
      if task.status !in cfg.prepareFrom then Refuse(b, TaskNotReadyForManifest)
      else if world.gate.None? then Refuse(b, GateClosed)
      else if !world.scopeResolves then Refuse(b, ScopeInvalid)
      else if task.input.rulesSha256.Some? && world.rulesSha256 != task.input.rulesSha256 then Refuse(b, LocalRulesChanged)
      else
        var core := ManifestCore(taskId, world.gate.value, InputSha256(task.input), task.input.rulesSha256);
        Done(WithManifest(b, taskId, id, core))
  }

  function Approve(b: Board, taskId: Id, approver: string): Call {
    if taskId !in b.tasks then Refuse(b, TaskNotFound)
    else
      var task := b.tasks[taskId];
      if task.status != ReadyForReview then Refuse(b, TaskNotReadyForApproval)
      else if task.manifestId.None? then Refuse(b, ManifestRequired)
      else if task.manifestId.value !in b.manifests then Refuse(b, ManifestNotFound)
      else
        var m := task.manifestId.value;
        if b.manifests[m].status != Prepared then Refuse(b, ManifestNotPrepared)
        else Done(WithApproval(b, taskId, m, approver))
  }

  /** Re-verification before a run; None when the manifest still describes the world. */
  function Verify(cfg: Config, task: Task, core: ManifestCore, world: World): Option<Error> {
    if world.gate.None? then Some(GateClosed)
    else if world.gate.value.baselineId != core.pins.baselineId then Some(StaleBaseline)
    else if cfg.rechecks == TheRequest then
      if InputSha256(task.input) != core.inputHash then Some(StaleInput) else None
    else if world.gate.value.version != core.pins.version then Some(StaleVersion)
    else if world.gate.value.binarySha256 != core.pins.binarySha256 then Some(StaleBinary)
    else if task.input.rulesSha256.Some? && world.rulesSha256 != core.rulesSha256 then Some(StaleRules)
    else None
  }

  /** The first half of a run: the task turns RUNNING under the run id. */
  function Start(cfg: Config, b: Board, taskId: Id, runId: Id, world: World): Call {
    if taskId !in b.tasks then Refuse(b, TaskNotFound)
    else
      var task := b.tasks[taskId];
      if task.status != ApprovedForRun then Refuse(b, UnapprovedTask)
      else if task.manifestId.None? || task.manifestId.value !in b.manifests then Refuse(b, ManifestNotFound)
      else
        var m := task.manifestId.value;
        if b.manifests[m].status != Approved then Refuse(b, UnapprovedManifest)
        else
          var stale := Verify(cfg, task, b.manifests[m].core, world);
          if stale.Some? then Refuse(b, stale.value)
          else Done(WithStart(b, taskId, m, runId))
  }

  /** The second half: result is None when the tool raised. */
  function Finish(b: Board, runId: Id, result: Option<string>): Call {
    if runId !in b.flights || b.flights[runId].taskId !in b.tasks then Refuse(b, RunNotFound)
    else Call(WithLanding(b, runId, result), if result.None? then Some(ToolFailed) else None)
  }

  function StatusAfter(decision: Decision): Status {
    match decision
    case Accept => AcceptedResult
    case Return => ReturnedForReview
    case Reject => RejectedResult
  }

  function Review(b: Board, runId: Id, decision: Decision, checkpointId: Id): Call {
    if runId !in b.runs then Refuse(b, RunNotFound)
    else
      var run := b.runs[runId];
      if run.status != HumanResultReview then Refuse(b, RunNotReadyForReview)
      else if run.taskId !in b.tasks then Refuse(b, TaskNotFound)
      else
        var reviewed := WithVerdict(b, runId, StatusAfter(decision));
        Done(if decision == Accept then WithCheckpoint(reviewed, runId, checkpointId) else reviewed)
  }

  datatype Op =
    | OpCreate(id: Id, request: Request, world: World)
    | OpSubmit(taskId: Id)
    | OpPrepare(taskId: Id, id: Id, world: World)
    | OpApprove(taskId: Id, approver: string)
    | OpStart(taskId: Id, runId: Id, world: World)
    | OpFinish(runId: Id, result: Option<string>)
    | OpReview(runId: Id, decision: Decision, checkpointId: Id)

  /** A uuid4 value is never one already in use. */
  predicate Possible(b: Board, op: Op) {
    match op
    case OpCreate(id, _, _) => id !in b.tasks
    case OpPrepare(_, id, _) => id !in b.manifests
    case OpStart(_, runId, _) => runId !in b.started
    case OpReview(_, _, checkpointId) => checkpointId !in b.checkpoints
    case _ => true
  }

  function Step(cfg: Config, b: Board, op: Op): Call {
    match op
    case OpCreate(id, request, world) => Create(cfg, b, id, request, world)
    case OpSubmit(taskId) => Submit(b, taskId)
    case OpPrepare(taskId, id, world) => Prepare(cfg, b, taskId, id, world)
    case OpApprove(taskId, approver) => Approve(b, taskId, approver)
    case OpStart(taskId, runId, world) => Start(cfg, b, taskId, runId, world)
    case OpFinish(runId, result) => Finish(b, runId, result)
    case OpReview(runId, decision, checkpointId) => Review(b, runId, decision, checkpointId)
  }

  /** A run of the machine; steps that cannot happen are skipped. */
  function After(cfg: Config, b: Board, ops: seq<Op>): Board {
    if ops == [] then b
    else
      var before := After(cfg, b, ops[..|ops| - 1]);
      var op := ops[|ops| - 1];
      if Possible(before, op) then Step(cfg, before, op).after else before
  }

  /** A board that some run of the machine leads to. */
  ghost predicate Reachable(cfg: Config, b: Board) {
    exists ops :: b == After(cfg, EMPTY, ops)
  }
}
