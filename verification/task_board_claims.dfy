/**
 What the task machine guarantees over every run of it, whatever the interleaving of tasks.
 A run of the machine starts from the empty board; cfg is either of the two deployed machines.
 */
module TaskBoardClaims {
  import opened Common
  import opened TaskBoard
  import opened TaskBoardInvariant

  lemma EmptyInv()
    ensures Inv(EMPTY)
  {
    assert forall t :: RecordsOk(EMPTY, t);
  }

  lemma ReachableInv(cfg: Config, b: Board)
    requires Deployed(cfg) && Reachable(cfg, b)
    ensures Inv(b)
  {
    hide Inv;
    var ops :| b == After(cfg, EMPTY, ops);
    EmptyInv();
    AfterKeeps(cfg, EMPTY, ops);
  }

  /* ---------- Every task follows the diagram ---------- */

  /** The documented transitions; each needs its own call. */
  predicate Follows(op: Op, before: Status, after: Status) {
    || (op.OpSubmit? && (before == Draft || before == ReturnedForReview) && after == ReadyForReview)
    || (op.OpApprove? && before == ReadyForReview && after == ApprovedForRun)
    || (op.OpStart? && before == ApprovedForRun && after == Running)
    || (op.OpFinish? && before == Running && (after == HumanResultReview || after == Failed))
    || (op.OpReview? && before == HumanResultReview && after == StatusAfter(op.decision))
  }

  /** The task a call is about; calls on unknown runs are about none. */
  function Subject(b: Board, op: Op): Option<Id> {
    match op
    case OpCreate(id, _, _) => Some(id)
    case OpFinish(runId, _) => if runId in b.flights then Some(b.flights[runId].taskId) else None
    case OpReview(runId, _, _) => if runId in b.runs then Some(b.runs[runId].taskId) else None
    case _ => Some(op.taskId)
  }

  /** What a call does to task t: only its subject moves, along the diagram, exactly when the call goes through. */
  predicate Moved(b: Board, op: Op, call: Call, t: Id)
    requires t in b.tasks
  {
    && t in call.after.tasks && call.after.tasks[t].input == b.tasks[t].input
    && var before, after := b.tasks[t].status, call.after.tasks[t].status;
       if Subject(b, op) != Some(t) || op.OpPrepare? || (call.error.Some? && call.error != Some(ToolFailed))
       then after == before
       else Follows(op, before, after)
  }

  lemma CreateMoves(cfg: Config, b: Board, id: Id, request: Request, world: World, t: Id)
    requires t in b.tasks && id !in b.tasks
    ensures Moved(b, OpCreate(id, request, world), Create(cfg, b, id, request, world), t)
  {
    hide CreateRefusal, Recorded;
  }

  lemma SubmitMoves(b: Board, s: Id, t: Id)
    requires t in b.tasks
    ensures Moved(b, OpSubmit(s), Submit(b, s), t)
  {
  }

  lemma PrepareMoves(cfg: Config, b: Board, s: Id, id: Id, world: World, t: Id)
    requires t in b.tasks
    ensures Moved(b, OpPrepare(s, id, world), Prepare(cfg, b, s, id, world), t)
  {
  }

  lemma ApproveMoves(b: Board, s: Id, approver: string, t: Id)
    requires t in b.tasks
    ensures Moved(b, OpApprove(s, approver), Approve(b, s, approver), t)
  {
  }

  lemma StartMoves(cfg: Config, b: Board, s: Id, runId: Id, world: World, t: Id)
    requires t in b.tasks
    ensures Moved(b, OpStart(s, runId, world), Start(cfg, b, s, runId, world), t)
  {
  }

  lemma FinishMoves(b: Board, runId: Id, result: Option<string>, t: Id)
    requires t in b.tasks && (runId in b.flights ==> RecordsOk(b, b.flights[runId].taskId))
    ensures Moved(b, OpFinish(runId, result), Finish(b, runId, result), t)
  {
    if runId in b.flights {
      assert FlightOk(b, runId);
      hide RecordsOk, FlightOk;
    }
  }

  lemma ReviewMoves(b: Board, runId: Id, decision: Decision, checkpointId: Id, t: Id)
    requires t in b.tasks && (runId in b.runs ==> RecordsOk(b, b.runs[runId].taskId))
    ensures Moved(b, OpReview(runId, decision, checkpointId), Review(b, runId, decision, checkpointId), t)
  {
    if runId in b.runs {
      assert RunOk(b, runId);
      hide RecordsOk, RunOk;
    }
  }

  /** Every task moves along the diagram, and only by the call that the diagram names. */
  lemma StepMoves(cfg: Config, b: Board, op: Op, t: Id)
    requires Inv(b) && Possible(b, op) && t in b.tasks
    ensures Moved(b, op, Step(cfg, b, op), t)
  {
    hide Moved, RecordsOk, StartedOk, CheckpointsOk;
    match op
    case OpCreate(id, request, world) => CreateMoves(cfg, b, id, request, world, t);
    case OpSubmit(taskId) => SubmitMoves(b, taskId, t);
    case OpPrepare(taskId, id, world) => PrepareMoves(cfg, b, taskId, id, world, t);
    case OpApprove(taskId, approver) => ApproveMoves(b, taskId, approver, t);
    case OpStart(taskId, runId, world) => StartMoves(cfg, b, taskId, runId, world, t);
    case OpFinish(runId, result) => FinishMoves(b, runId, result, t);
    case OpReview(runId, decision, checkpointId) => ReviewMoves(b, runId, decision, checkpointId, t);
  }

  predicate Terminal(status: Status) {
    status == AcceptedResult || status == RejectedResult || status == Failed
  }

  /** An accepted, rejected or failed task keeps its status, and its request, for ever. */
  lemma {:induction false} TerminalIsForever(cfg: Config, b: Board, more: seq<Op>, t: Id)
    requires Deployed(cfg) && Reachable(cfg, b) && t in b.tasks && Terminal(b.tasks[t].status)
    ensures var later := After(cfg, b, more);
            t in later.tasks && later.tasks[t].status == b.tasks[t].status && later.tasks[t].input == b.tasks[t].input
  {
    hide Inv, Possible, Step, Reachable;
    if more != [] {
      var init, op := more[..|more| - 1], more[|more| - 1];
      TerminalIsForever(cfg, b, init, t);
      ReachableInv(cfg, b);
      AfterKeeps(cfg, b, init);
      if Possible(After(cfg, b, init), op) { StepMoves(cfg, After(cfg, b, init), op, t); }
    }
  }

  /* ---------- One approval buys at most one run ---------- */

  /** No two runs share a manifest, every manifest run was approved, and an approved task's manifest is still unused. */
  lemma ApprovedManifestRunsOnce(cfg: Config, b: Board)
    requires Deployed(cfg) && Reachable(cfg, b)
    ensures
            && (forall r, r' :: r in b.started && r' in b.started && b.started[r] == b.started[r'] ==> r == r')
            && (forall r :: r in b.started ==> b.started[r] in b.manifests && b.manifests[b.started[r]].status == Approved)
            && (forall r :: r in b.runs ==> r in b.started && b.started[r] == b.runs[r].manifestId)
            && (forall t :: t in b.tasks && b.tasks[t].status == ApprovedForRun ==>
                  b.tasks[t].manifestId.Some? && Unused(b.started, b.tasks[t].manifestId.value))
  {
    ReachableInv(cfg, b);
    hide After, Unused;
    forall r | r in b.runs ensures r in b.started && b.started[r] == b.runs[r].manifestId {
      assert RecordsOk(b, b.runs[r].taskId);
    }
    forall t | t in b.tasks && b.tasks[t].status == ApprovedForRun
      ensures b.tasks[t].manifestId.Some? && Unused(b.started, b.tasks[t].manifestId.value)
    {
      assert RecordsOk(b, t);
    }
  }

  /** The op is an approval (or a start) that goes through. */
  predicate Approves(cfg: Config, b: Board, op: Op) {
    Possible(b, op) && op.OpApprove? && Step(cfg, b, op).error.None?
  }

  predicate Starts(cfg: Config, b: Board, op: Op) {
    Possible(b, op) && op.OpStart? && Step(cfg, b, op).error.None?
  }

  function Approvals(cfg: Config, b: Board, ops: seq<Op>): nat {
    if ops == [] then 0
    else
      var init := ops[..|ops| - 1];
      Approvals(cfg, b, init) + if Approves(cfg, After(cfg, b, init), ops[|ops| - 1]) then 1 else 0
  }

  function StartedRuns(cfg: Config, b: Board, ops: seq<Op>): nat {
    if ops == [] then 0
    else
      var init := ops[..|ops| - 1];
      StartedRuns(cfg, b, init) + if Starts(cfg, After(cfg, b, init), ops[|ops| - 1]) then 1 else 0
  }

  /** The tasks approved and not yet run. */
  function Waiting(b: Board): set<Id> {
    set t | t in b.tasks && b.tasks[t].status == ApprovedForRun
  }

  /** Approve puts its task among the waiting, start takes its task out, and nothing else does either. */
  lemma WaitsAfter(cfg: Config, b: Board, op: Op, t: Id)
    requires Inv(b) && Possible(b, op)
    ensures t in Waiting(Step(cfg, b, op).after) <==>
            if (Approves(cfg, b, op) || Starts(cfg, b, op)) && op.taskId == t then op.OpApprove? else t in Waiting(b)
    ensures (Approves(cfg, b, op) ==> op.taskId !in Waiting(b)) && (Starts(cfg, b, op) ==> op.taskId in Waiting(b))
  {
    KnownTask(cfg, b, op);
    if op.OpApprove? || op.OpStart? {
      if op.taskId in b.tasks { StepMoves(cfg, b, op, op.taskId); }
    }
    if t in b.tasks {
      StepMoves(cfg, b, op, t);
    } else if t in Step(cfg, b, op).after.tasks {
      NewTasksAreDrafts(cfg, b, op, t);
    }
    hide Inv, Step, Possible;
  }

  lemma StepWaiting(cfg: Config, b: Board, op: Op)
    requires Inv(b) && Possible(b, op)
    ensures var b' := Step(cfg, b, op).after;
            && (Approves(cfg, b, op) ==> op.taskId !in Waiting(b) && Waiting(b') == Waiting(b) + {op.taskId})
            && (Starts(cfg, b, op) ==> op.taskId in Waiting(b) && Waiting(b') == Waiting(b) - {op.taskId})
            && (!Approves(cfg, b, op) && !Starts(cfg, b, op) ==> Waiting(b') == Waiting(b))
  {
    ApproveOrStart(cfg, b, op);
    hide Inv, Step, Possible, Waiting, Approves, Starts;
    forall t
      ensures t in Waiting(Step(cfg, b, op).after) <==>
              if (Approves(cfg, b, op) || Starts(cfg, b, op)) && op.taskId == t then op.OpApprove? else t in Waiting(b)
      ensures (Approves(cfg, b, op) ==> op.taskId !in Waiting(b)) && (Starts(cfg, b, op) ==> op.taskId in Waiting(b))
    {
      WaitsAfter(cfg, b, op, t);
    }
  }

  lemma NewTasksAreDrafts(cfg: Config, b: Board, op: Op, t: Id)
    requires t !in b.tasks && t in Step(cfg, b, op).after.tasks
    ensures Step(cfg, b, op).after.tasks[t].status == Draft
  {
  }

  lemma KnownTask(cfg: Config, b: Board, op: Op)
    ensures Approves(cfg, b, op) || Starts(cfg, b, op) ==> op.taskId in b.tasks
    ensures op.OpApprove? || op.OpStart? ==> Step(cfg, b, op).error != Some(ToolFailed)
  {
    hide Possible;
  }

  /** Approvals are conserved: each has bought one run or is still waiting to. */
  lemma {:induction false} ApprovalsAreConserved(cfg: Config, ops: seq<Op>)
    requires Deployed(cfg)
    ensures Approvals(cfg, EMPTY, ops) == StartedRuns(cfg, EMPTY, ops) + |Waiting(After(cfg, EMPTY, ops))|
  {
    hide Inv, Step, Possible, Approves, Starts;
    if ops == [] {
      hide Waiting;
      NobodyWaits();
    } else {
      hide Waiting;
      var init, op := ops[..|ops| - 1], ops[|ops| - 1];
      var b := After(cfg, EMPTY, init);
      ApprovalsAreConserved(cfg, init);
      EmptyInv();
      AfterKeeps(cfg, EMPTY, init);
      ApproveOrStart(cfg, b, op);
      if Possible(b, op) { StepWaiting(cfg, b, op); }
    }
  }

  lemma NobodyWaits()
    ensures Waiting(EMPTY) == {}
  {
  }

  lemma ApproveOrStart(cfg: Config, b: Board, op: Op)
    ensures !(Approves(cfg, b, op) && Starts(cfg, b, op))
    ensures Approves(cfg, b, op) ==> op.OpApprove? && Possible(b, op)
    ensures Starts(cfg, b, op) ==> op.OpStart? && Possible(b, op)
  {
  }

  /* ---------- A returned task needs a fresh manifest ---------- */

  /** Task t sits on a manifest that has already been approved. */
  predicate Spent(b: Board, t: Id) {
    && t in b.tasks && (b.tasks[t].status == ReturnedForReview || b.tasks[t].status == ReadyForReview)
    && b.tasks[t].manifestId.Some? && b.tasks[t].manifestId.value in b.manifests
    && b.manifests[b.tasks[t].manifestId.value].status == Approved
  }

  predicate Prepares(op: Op, t: Id) {
    op.OpPrepare? && op.taskId == t
  }

  lemma CurrentManifestStays(cfg: Config, b: Board, op: Op, t: Id)
    requires Possible(b, op) && t in b.tasks && !Prepares(op, t)
    ensures t in Step(cfg, b, op).after.tasks && Step(cfg, b, op).after.tasks[t].manifestId == b.tasks[t].manifestId
  {
  }

  lemma ApprovedStays(cfg: Config, b: Board, op: Op, m: Id)
    requires Possible(b, op) && m in b.manifests && b.manifests[m].status == Approved
    ensures m in Step(cfg, b, op).after.manifests && Step(cfg, b, op).after.manifests[m].status == Approved
  {
  }

  lemma SpentRefusesApproval(cfg: Config, b: Board, op: Op, t: Id)
    requires Spent(b, t) && op.OpApprove? && op.taskId == t
    ensures Step(cfg, b, op).error.Some? && Step(cfg, b, op).after == b
  {
  }

  lemma StepKeepsSpent(cfg: Config, b: Board, op: Op, t: Id)
    requires Inv(b) && Possible(b, op) && Spent(b, t) && !Prepares(op, t)
    ensures Spent(Step(cfg, b, op).after, t)
  {
    StepMoves(cfg, b, op, t);
    CurrentManifestStays(cfg, b, op, t);
    ApprovedStays(cfg, b, op, b.tasks[t].manifestId.value);
    if op.OpApprove? && op.taskId == t { SpentRefusesApproval(cfg, b, op, t); }
    hide Inv, Step, Possible;
  }

  lemma {:induction false} SpentUntilPrepared(cfg: Config, b: Board, ops: seq<Op>, t: Id)
    requires Deployed(cfg) && Inv(b) && Spent(b, t)
    requires forall i :: 0 <= i < |ops| ==> !Prepares(ops[i], t)
    ensures Spent(After(cfg, b, ops), t)
  {
    hide Inv, Step, Possible, Spent, Prepares;
    if ops != [] {
      var init, op := ops[..|ops| - 1], ops[|ops| - 1];
      SpentUntilPrepared(cfg, b, init, t);
      AfterKeeps(cfg, b, init);
      assert !Prepares(op, t);
      if Possible(After(cfg, b, init), op) { StepKeepsSpent(cfg, After(cfg, b, init), op, t); }
    }
  }

  lemma ReturnSpends(b: Board, runId: Id, checkpointId: Id)
    requires Inv(b) && Review(b, runId, Return, checkpointId).error.None?
    ensures runId in b.runs && Spent(Review(b, runId, Return, checkpointId).after, b.runs[runId].taskId)
  {
    hide CheckpointsOk, Unused;
    assert RecordsOk(b, b.runs[runId].taskId);
    assert RunOk(b, runId) && TaskOk(b, b.runs[runId].taskId);
    hide RecordsOk, RunOk, TaskOk;
  }

  /** After its result was returned, a task cannot be approved until a manifest is prepared for it, whatever else happens. */
  lemma ReturnedNeedsFreshManifest(
      cfg: Config, b: Board, runId: Id, checkpointId: Id, more: seq<Op>, approver: string)
    requires Deployed(cfg) && Reachable(cfg, b)
    requires Review(b, runId, Return, checkpointId).error.None?
    requires checkpointId !in b.checkpoints
    requires forall i :: 0 <= i < |more| ==> !Prepares(more[i], b.runs[runId].taskId)
    ensures var returned := Review(b, runId, Return, checkpointId).after;
            Approve(After(cfg, returned, more), returned.runs[runId].taskId, approver).error.Some?
  {
    ReachableInv(cfg, b);
    ReturnSpends(b, runId, checkpointId);
    ReviewKeeps(b, runId, Return, checkpointId);
    var returned := Review(b, runId, Return, checkpointId).after;
    var t := b.runs[runId].taskId;
    hide Inv, Prepares, After;
    SpentUntilPrepared(cfg, returned, more, t);
    SpentRefusesApproval(cfg, After(cfg, returned, more), OpApprove(t, approver), t);
  }

  /* ---------- Records stay in agreement ---------- */

  /** A result awaiting review is its task's current one and the task awaits it too; so a review overwrites nothing later. */
  lemma AwaitedResultIsCurrent(cfg: Config, b: Board, r: Id)
    requires Deployed(cfg) && Reachable(cfg, b) && r in b.runs
    requires b.runs[r].status == HumanResultReview
    ensures var t := b.runs[r].taskId;
            && t in b.tasks && b.tasks[t].status == HumanResultReview && b.tasks[t].runId == Some(r)
            && b.tasks[t].manifestId == Some(b.runs[r].manifestId)
            && (forall r' :: r' in b.runs && b.runs[r'].taskId == t && b.runs[r'].status == HumanResultReview ==> r' == r)
  {
    ReachableInv(cfg, b);
    hide After, CheckpointsOk, StartedOk, Unused;
    assert RecordsOk(b, b.runs[r].taskId);
    assert RunOk(b, r) && TaskOk(b, b.runs[r].taskId);
    forall r' | r' in b.runs && b.runs[r'].taskId == b.runs[r].taskId && b.runs[r'].status == HumanResultReview
      ensures r' == r
    {
      assert RunOk(b, r');
    }
  }

  /** Checkpoints and accepted results correspond one to one, and a checkpoint's hashes are those of the run and its manifest. */
  lemma CheckpointsMatchAcceptedRuns(cfg: Config, b: Board)
    requires Deployed(cfg) && Reachable(cfg, b)
    ensures
            && (forall c :: c in b.checkpoints ==>
                  && Records(b.runs, b.checkpoints, c, b.checkpoints[c].runId)
                  && b.runs[b.checkpoints[c].runId].status == AcceptedResult
                  && b.runs[b.checkpoints[c].runId].manifestId in b.manifests
                  && b.checkpoints[c].manifestSha256 == Sha256(b.manifests[b.runs[b.checkpoints[c].runId].manifestId].core))
            && (forall c, c' ::
                  c in b.checkpoints && c' in b.checkpoints && b.checkpoints[c].runId == b.checkpoints[c'].runId ==> c == c')
            && (forall r :: r in b.runs && b.runs[r].status == AcceptedResult ==>
                  exists c :: Records(b.runs, b.checkpoints, c, r))
  {
    ReachableInv(cfg, b);
    hide After, StartedOk, Unused, TaskOk, FlightOk;
    forall c | c in b.checkpoints
      ensures && b.checkpoints[c].runId in b.runs && b.runs[b.checkpoints[c].runId].manifestId in b.manifests
              && b.checkpoints[c].manifestSha256 == Sha256(b.manifests[b.runs[b.checkpoints[c].runId].manifestId].core)
    {
      var r := b.checkpoints[c].runId;
      assert Records(b.runs, b.checkpoints, c, r);
      assert RecordsOk(b, b.runs[r].taskId);
      assert RunOk(b, r) && ManifestOk(b, b.runs[r].manifestId);
    }
  }

  /* ---------- Checks that never fire ---------- */

  /** A task's request never changes, so no start finds it stale; nor is a task's manifest ever missing or unapproved. */
  lemma StartNeverFindsTheRequestChanged(cfg: Config, b: Board, t: Id, runId: Id, world: World)
    requires Deployed(cfg) && Reachable(cfg, b)
    ensures var error := Start(cfg, b, t, runId, world).error;
            error != Some(StaleInput) && error != Some(ManifestNotFound) && error != Some(UnapprovedManifest)
  {
    ReachableInv(cfg, b);
    hide After, CheckpointsOk, StartedOk, Unused;
    assert RecordsOk(b, t);
    if t in b.tasks && b.tasks[t].manifestId.Some? {
      assert TaskOk(b, t) && ManifestOk(b, b.tasks[t].manifestId.value);
    }
  }

  /** A started run can always finish, and a result awaiting review can always be reviewed. */
  lemma StartedRunsCanLand(cfg: Config, b: Board, runId: Id, result: Option<string>, decision: Decision, id: Id)
    requires Deployed(cfg) && Reachable(cfg, b)
    ensures && (runId in b.flights <==> Finish(b, runId, result).error != Some(RunNotFound))
            && (runId in b.flights ==> (Finish(b, runId, result).error.None? <==> result.Some?))
            && (runId in b.runs && b.runs[runId].status == HumanResultReview <==> Review(b, runId, decision, id).error.None?)
  {
    ReachableInv(cfg, b);
    hide After, CheckpointsOk, StartedOk, Unused, WithLanding, WithVerdict, WithCheckpoint;
    if runId in b.flights { assert RecordsOk(b, b.flights[runId].taskId); }
    if runId in b.runs { assert RecordsOk(b, b.runs[runId].taskId); }
  }

  /* ---------- What runs is what was prepared ---------- */

  lemma StepKeepsCore(cfg: Config, b: Board, op: Op, m: Id)
    requires Possible(b, op) && m in b.manifests
    ensures m in Step(cfg, b, op).after.manifests && Step(cfg, b, op).after.manifests[m].core == b.manifests[m].core
  {
  }

  /** A manifest's contents never change once it is prepared, nor does a task's request. */
  lemma {:induction false} CoreAndRequestStay(cfg: Config, b: Board, ops: seq<Op>, m: Id, t: Id)
    requires Deployed(cfg) && Inv(b) && m in b.manifests && t in b.tasks
    ensures var later := After(cfg, b, ops);
            && m in later.manifests && later.manifests[m].core == b.manifests[m].core
            && t in later.tasks && later.tasks[t].input == b.tasks[t].input
  {
    hide Step, Possible, Inv;
    if ops != [] {
      var init, op := ops[..|ops| - 1], ops[|ops| - 1];
      CoreAndRequestStay(cfg, b, init, m, t);
      AfterKeeps(cfg, b, init);
      if Possible(After(cfg, b, init), op) {
        StepKeepsCore(cfg, After(cfg, b, init), op, m);
        StepMoves(cfg, After(cfg, b, init), op, t);
      }
    }
  }

  lemma PreparedPins(cfg: Config, b: Board, t: Id, m: Id, world: World)
    requires Prepare(cfg, b, t, m, world).error.None?
    ensures var after := Prepare(cfg, b, t, m, world).after;
            && t in after.tasks && m in after.manifests && world.gate == Some(after.manifests[m].core.pins)
            && (after.tasks[t].input.rulesSha256.Some? ==> after.manifests[m].core.rulesSha256 == world.rulesSha256)
  {
  }

  lemma StartChecksPins(cfg: Config, b: Board, t: Id, m: Id, r: Id, world: World)
    requires Start(cfg, b, t, r, world).error.None? && b.tasks[t].manifestId == Some(m)
    ensures t in b.tasks && m in b.manifests && world.gate.Some?
    ensures var pins := b.manifests[m].core.pins;
            && world.gate.value.baselineId == pins.baselineId
            && (cfg.rechecks == TheScanner ==>
                  && world.gate.value.version == pins.version && world.gate.value.binarySha256 == pins.binarySha256
                  && (b.tasks[t].input.rulesSha256.Some? ==> world.rulesSha256 == b.manifests[m].core.rulesSha256))
  {
  }

  /** A task starts only if the world agrees with the one its manifest was prepared in: the same baseline and, for scanners,
      the same version, the same binary and the same local rules, whatever happened in between. */
  lemma StartRunsWhatWasPrepared(
      cfg: Config, b: Board, t: Id, m: Id, prepared: World, more: seq<Op>, r: Id, now: World)
    requires Deployed(cfg) && Reachable(cfg, b) && m !in b.manifests
    requires Prepare(cfg, b, t, m, prepared).error.None?
    requires var later := After(cfg, Prepare(cfg, b, t, m, prepared).after, more);
             Start(cfg, later, t, r, now).error.None? && later.tasks[t].manifestId == Some(m)
    ensures prepared.gate.Some? && now.gate.Some? && now.gate.value.baselineId == prepared.gate.value.baselineId
    ensures cfg == EXTERNAL_SCANNERS ==>
              && now.gate.value.version == prepared.gate.value.version
              && now.gate.value.binarySha256 == prepared.gate.value.binarySha256
              && (t in b.tasks && b.tasks[t].input.rulesSha256.Some? ==>
                    now.rulesSha256 == prepared.rulesSha256)
  {
    var b' := Prepare(cfg, b, t, m, prepared).after;
    ReachableInv(cfg, b);
    PrepareKeeps(cfg, b, t, m, prepared);
    PreparedPins(cfg, b, t, m, prepared);
    PrepareMoves(cfg, b, t, m, prepared, t);
    hide After, Prepare, Start, Inv;
    CoreAndRequestStay(cfg, b', more, m, t);
    StartChecksPins(cfg, After(cfg, b', more), t, m, r, now);
  }

  lemma StepKeepsResult(cfg: Config, b: Board, op: Op, r: Id)
    requires r in b.runs && r !in b.flights && r in b.started && Possible(b, op)
    ensures var after := Step(cfg, b, op).after;
            && r in after.runs && after.runs[r].resultSha256 == b.runs[r].resultSha256 && r !in after.flights
  {
  }

  lemma LandedRunsHaveLeft(b: Board, r: Id)
    requires Inv(b) && r in b.runs
    ensures r !in b.flights && r in b.started
  {
    assert RecordsOk(b, b.runs[r].taskId);
    assert r in b.flights ==> RecordsOk(b, b.flights[r].taskId);
  }

  lemma {:induction false} ResultStays(cfg: Config, b: Board, ops: seq<Op>, r: Id)
    requires Deployed(cfg) && Inv(b) && r in b.runs
    ensures var later := After(cfg, b, ops); r in later.runs && later.runs[r].resultSha256 == b.runs[r].resultSha256
  {
    hide Step, Possible, Inv;
    if ops != [] {
      var init, op := ops[..|ops| - 1], ops[|ops| - 1];
      ResultStays(cfg, b, init, r);
      AfterKeeps(cfg, b, init);
      LandedRunsHaveLeft(After(cfg, b, init), r);
      if Possible(After(cfg, b, init), op) { StepKeepsResult(cfg, After(cfg, b, init), op, r); }
    }
  }

  /** A checkpoint carries the hash of the very result its run returned, however long ago. */
  lemma CheckpointRecordsTheResult(cfg: Config, b: Board, r: Id, result: string, more: seq<Op>, c: Id)
    requires Deployed(cfg) && Reachable(cfg, b) && Finish(b, r, Some(result)).error.None?
    requires var later := After(cfg, Finish(b, r, Some(result)).after, more);
             c in later.checkpoints && later.checkpoints[c].runId == r
    ensures After(cfg, Finish(b, r, Some(result)).after, more).checkpoints[c].resultSha256 == Sha256(result)
  {
    var landed := Finish(b, r, Some(result)).after;
    ReachableInv(cfg, b);
    FinishKeeps(b, r, Some(result));
    assert r in landed.runs && landed.runs[r].resultSha256 == Sha256(result);
    hide Finish;
    AfterKeeps(cfg, landed, more);
    ResultStays(cfg, landed, more, r);
    hide After, StartedOk, RecordsOk;
    var later := After(cfg, landed, more);
    assert Records(later.runs, later.checkpoints, c, later.checkpoints[c].runId);
  }

  /* ---------- What a task may ask for ---------- */

  /** A tool of this machine that is not held back; the hash of local rules if and only if the tool needs them. */
  predicate Proper(cfg: Config, input: Input) {
    && Known(cfg, input.toolId) && !Held(cfg, input.toolId)
    && (input.rulesSha256.Some? <==> NeedsRules(cfg, input.toolId))
  }

  /** Only a creation adds a task. */
  lemma TasksComeFromCreation(cfg: Config, b: Board, op: Op, t: Id)
    requires Possible(b, op) && t in Step(cfg, b, op).after.tasks && t !in b.tasks
    ensures op.OpCreate? && op.id == t && CreateRefusal(cfg, op.request, op.world).None?
    ensures Step(cfg, b, op).after.tasks[t].input == Recorded(cfg, op.request, op.world)
  {
    hide CreateRefusal, Recorded, Verify;
  }

  lemma RecordedIsProper(cfg: Config, request: Request, world: World)
    requires CreateRefusal(cfg, request, world).None?
    ensures Proper(cfg, Recorded(cfg, request, world))
  {
    hide Known, Held, NeedsRules, GivesRules;
  }

  /** Whatever is called, every task on the board is for a tool that may run, with its rules pinned exactly if it needs them. */
  lemma {:induction false} TasksAreProper(cfg: Config, ops: seq<Op>, t: Id)
    requires Deployed(cfg) && t in After(cfg, EMPTY, ops).tasks
    ensures Proper(cfg, After(cfg, EMPTY, ops).tasks[t].input)
  {
    hide Step, Possible, Proper, CreateRefusal, Recorded, Moved;
    assert Inv(EMPTY);
    hide Inv;
    if ops != [] {
      var init, op := ops[..|ops| - 1], ops[|ops| - 1];
      var b := After(cfg, EMPTY, init);
      if t in b.tasks {
        TasksAreProper(cfg, init, t);
        if Possible(b, op) {
          AfterKeeps(cfg, EMPTY, init);
          StepMoves(cfg, b, op, t);
          InputStays(cfg, b, op, t);
        }
      } else if Possible(b, op) {
        TasksComeFromCreation(cfg, b, op, t);
        RecordedIsProper(cfg, op.request, op.world);
      }
    }
  }

  lemma InputStays(cfg: Config, b: Board, op: Op, t: Id)
    requires t in b.tasks && Moved(b, op, Step(cfg, b, op), t)
    ensures t in Step(cfg, b, op).after.tasks && Step(cfg, b, op).after.tasks[t].input == b.tasks[t].input
  {
    hide Step, Follows;
  }
}
