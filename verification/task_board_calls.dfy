/**
 Exactly when each call of the task machine goes through and exactly what it leaves, on every board a run of the machine
 leads to; and that a task whose surroundings stay the same can be carried through to an accepted result.
 */
module TaskBoardCalls {
  import opened Common
  import opened TaskBoard
  import opened TaskBoardInvariant
  import opened TaskBoardClaims

  /* ---------- Creation ---------- */

  predicate IsNative(t: Id) {
    || t == "project_summary" || t == "route_index" || t == "component_index" || t == "symbol_index" || t == "docs_index"
    || t == "file_metadata" || t == "project_reader" || t == "route_reader"
  }

  /** A native operation needs its scope; a scanner its open gate too, and local rules if and only if it is semgrep. */
  predicate MayBeCreated(cfg: Config, request: Request, world: World) {
    && world.scopeResolves
    && (cfg == NATIVE_OPERATIONS ==> IsNative(request.toolId))
    && (cfg == EXTERNAL_SCANNERS ==>
          && world.gate.Some?
          && if request.toolId == "semgrep"
             then request.rules.Some? && |request.rules.value| > 0 && world.rulesSha256.Some?
             else request.toolId == "gitleaks" && (request.rules.None? || |request.rules.value| == 0))
  }

  /** A task is created exactly then, as a draft that records the request, with the hash of its rules for semgrep alone. */
  lemma CreatedIff(cfg: Config, b: Board, id: Id, request: Request, world: World)
    requires Deployed(cfg) && id !in b.tasks
    ensures var call := Create(cfg, b, id, request, world);
            && (call.error.None? <==> MayBeCreated(cfg, request, world))
            && (call.error.Some? ==> call.after == b)
            && (call.error.None? ==>
                  && call.after == b.(tasks := call.after.tasks)
                  && call.after.tasks.Keys == b.tasks.Keys + {id} && (forall t :: t in b.tasks ==> call.after.tasks[t] == b.tasks[t])
                  && var task := call.after.tasks[id];
                     && task.status == Draft && task.manifestId.None? && task.runId.None? && task.approvedBy.None?
                     && task.input.title == request.title && task.input.goal == request.goal
                     && task.input.toolId == request.toolId && task.input.scope == request.scope
                     && task.input.rulesSha256 ==
                        if cfg == EXTERNAL_SCANNERS && request.toolId == "semgrep" then world.rulesSha256 else None)
  {
  }

  /** Which of the refusals it is. */
  lemma CreationRefusal(cfg: Config, b: Board, id: Id, request: Request, world: World)
    requires Deployed(cfg)
    ensures var error := Create(cfg, b, id, request, world).error; var scanner := cfg == EXTERNAL_SCANNERS;
            var isKnown := if scanner then request.toolId in {"semgrep", "gitleaks", "trivy"} else IsNative(request.toolId);
            var open := isKnown && (scanner ==> request.toolId != "trivy" && world.gate.Some?);
            var rulesGiven := request.rules.Some? && |request.rules.value| > 0;
            && (error == Some(UnknownTool) <==> !isKnown)
            && (error == Some(ToolHeld) <==> scanner && request.toolId == "trivy")
            && (error == Some(GateClosed) <==> scanner && isKnown && request.toolId != "trivy" && world.gate.None?)
            && (error == Some(RulesRequired) <==> scanner && open && world.scopeResolves && request.toolId == "semgrep" && !rulesGiven)
            && (error == Some(RulesNotAllowed) <==> scanner && open && world.scopeResolves && request.toolId == "gitleaks" && rulesGiven)
            && (error == Some(ScopeInvalid) <==>
                  && open
                  && (!world.scopeResolves || (scanner && request.toolId == "semgrep" && rulesGiven && world.rulesSha256.None?)))
  {
  }

  /* ---------- From the draft to the approval ---------- */

  /** Only the named task differs, by the given record. */
  ghost predicate OnlyTaskIs(b: Board, b': Board, t: Id, task: Task) {
    t in b.tasks && b'.tasks == b.tasks[t := task]
  }

  lemma SubmittedIff(b: Board, t: Id)
    ensures var call := Submit(b, t);
            && (call.error.None? <==> t in b.tasks && (b.tasks[t].status == Draft || b.tasks[t].status == ReturnedForReview))
            && (call.error == Some(TaskNotFound) <==> t !in b.tasks)
            && (call.error.Some? ==> call.error.value in {TaskNotFound, InvalidTaskTransition} && call.after == b)
            && (call.error.None? ==>
                  && call.after == b.(tasks := call.after.tasks)
                  && OnlyTaskIs(b, call.after, t, b.tasks[t].(status := ReadyForReview)))
  {
  }

  /** The states a manifest may be prepared in; a returned scan may be prepared again at once, a native operation only after
      it is submitted again. */
  predicate MayPrepare(cfg: Config, status: Status) {
    status == Draft || status == ReadyForReview || (cfg == EXTERNAL_SCANNERS && status == ReturnedForReview)
  }

  /** A manifest is prepared exactly for such a task whose gate is open, whose scope resolves and whose local rules, if it
      has any, are those it was created with; it pins the task, what the gate reports, the request and the rules. */
  lemma PreparedIff(cfg: Config, b: Board, t: Id, id: Id, world: World)
    requires Deployed(cfg) && id !in b.manifests
    ensures var call := Prepare(cfg, b, t, id, world);
            && (call.error.None? <==>
                  && t in b.tasks && MayPrepare(cfg, b.tasks[t].status) && world.gate.Some? && world.scopeResolves
                  && (b.tasks[t].input.rulesSha256.Some? ==> world.rulesSha256 == b.tasks[t].input.rulesSha256))
            && (call.error.Some? ==> call.after == b)
            && (call.error.None? ==>
                  && call.after == b.(tasks := call.after.tasks, manifests := call.after.manifests)
                  && OnlyTaskIs(b, call.after, t, b.tasks[t].(manifestId := Some(id)))
                  && call.after.manifests.Keys == b.manifests.Keys + {id}
                  && (forall m :: m in b.manifests ==> call.after.manifests[m] == b.manifests[m])
                  && var m := call.after.manifests[id];
                     && m.status == Prepared && m.sha256 == Sha256(m.core)
                     && m.core.taskId == t && m.core.pins == world.gate.value
                     && m.core.inputHash.input == b.tasks[t].input && m.core.rulesSha256 == b.tasks[t].input.rulesSha256)
  {
  }

  lemma PreparationRefusal(cfg: Config, b: Board, t: Id, id: Id, world: World)
    requires Deployed(cfg)
    ensures var error := Prepare(cfg, b, t, id, world).error;
            && (error == Some(TaskNotFound) <==> t !in b.tasks)
            && (error == Some(TaskNotReadyForManifest) <==> t in b.tasks && !MayPrepare(cfg, b.tasks[t].status))
            && (error == Some(GateClosed) <==> t in b.tasks && MayPrepare(cfg, b.tasks[t].status) && world.gate.None?)
            && (error == Some(ScopeInvalid) <==>
                  t in b.tasks && MayPrepare(cfg, b.tasks[t].status) && world.gate.Some? && !world.scopeResolves)
            && (error.Some? ==>
                  error.value in {TaskNotFound, TaskNotReadyForManifest, GateClosed, ScopeInvalid, LocalRulesChanged})
  {
  }

  /** A task is approved exactly if it awaits review with a manifest that was not approved before. */
  lemma ApprovedIff(cfg: Config, b: Board, t: Id, approver: string)
    requires Deployed(cfg) && Reachable(cfg, b)
    ensures var call := Approve(b, t, approver);
            && (call.error.None? <==>
                  && t in b.tasks && b.tasks[t].status == ReadyForReview
                  && b.tasks[t].manifestId.Some? && b.tasks[t].manifestId.value in b.manifests
                  && b.manifests[b.tasks[t].manifestId.value].status == Prepared)
            && (call.error.Some? ==> call.after == b)
            && (call.error.None? ==>
                  var m := b.tasks[t].manifestId.value;
                  && call.after == b.(tasks := call.after.tasks, manifests := call.after.manifests)
                  && OnlyTaskIs(b, call.after, t, b.tasks[t].(status := ApprovedForRun, approvedBy := Some(approver)))
                  && call.after.manifests == b.manifests[m := b.manifests[m].(status := Approved)])
            && (call.error == Some(TaskNotFound) <==> t !in b.tasks)
            && (call.error == Some(TaskNotReadyForApproval) <==> t in b.tasks && b.tasks[t].status != ReadyForReview)
            && (call.error == Some(ManifestRequired) <==>
                  t in b.tasks && b.tasks[t].status == ReadyForReview && b.tasks[t].manifestId.None?)
            && (call.error.Some? ==>
                  call.error.value in {TaskNotFound, TaskNotReadyForApproval, ManifestRequired, ManifestNotPrepared})
  {
    ReachableInv(cfg, b);
    hide StartedOk, CheckpointsOk, Unused;
    assert RecordsOk(b, t);
    if t in b.tasks { assert TaskOk(b, t); }
  }

  /* ---------- The run ---------- */

  /** What was pinned is what is there now. */
  predicate StillCurrent(cfg: Config, task: Task, core: ManifestCore, world: World) {
    && world.gate.Some? && world.gate.value.baselineId == core.pins.baselineId
    && (cfg == EXTERNAL_SCANNERS ==>
          && world.gate.value.version == core.pins.version
          && world.gate.value.binarySha256 == core.pins.binarySha256
          && (task.input.rulesSha256.Some? ==> world.rulesSha256 == core.rulesSha256))
  }

  /** A run starts exactly for an approved task whose manifest still describes the world. */
  lemma StartedIff(cfg: Config, b: Board, t: Id, r: Id, world: World)
    requires Deployed(cfg) && Reachable(cfg, b) && r !in b.started
    ensures var call := Start(cfg, b, t, r, world);
            && (call.error.None? <==>
                  && t in b.tasks && b.tasks[t].status == ApprovedForRun
                  && b.tasks[t].manifestId.Some? && b.tasks[t].manifestId.value in b.manifests
                  && StillCurrent(cfg, b.tasks[t], b.manifests[b.tasks[t].manifestId.value].core, world))
            && (call.error.Some? ==> call.after == b)
            && (call.error.None? ==>
                  var m := b.tasks[t].manifestId.value;
                  && call.after == b.(tasks := call.after.tasks, flights := call.after.flights, started := call.after.started)
                  && OnlyTaskIs(b, call.after, t, b.tasks[t].(status := Running, runId := Some(r)))
                  && call.after.flights == b.flights[r := Flight(t, m, Sha256(b.manifests[m].core))]
                  && call.after.started == b.started[r := m])
  {
    ReachableInv(cfg, b);
    hide StartedOk, CheckpointsOk, Unused;
    assert RecordsOk(b, t);
    if t in b.tasks && b.tasks[t].manifestId.Some? {
      assert TaskOk(b, t) && ManifestOk(b, b.tasks[t].manifestId.value);
    }
  }

  /** Which of the refusals it is: the first, in the order baseline, version, binary, rules, that is not what was pinned. */
  lemma StartRefusal(cfg: Config, b: Board, t: Id, r: Id, world: World)
    requires Deployed(cfg) && Reachable(cfg, b)
    ensures var error := Start(cfg, b, t, r, world).error;
            && (error == Some(TaskNotFound) <==> t !in b.tasks)
            && (error == Some(UnapprovedTask) <==> t in b.tasks && b.tasks[t].status != ApprovedForRun)
            && (t in b.tasks && b.tasks[t].status == ApprovedForRun ==>
                  && b.tasks[t].manifestId.Some? && b.tasks[t].manifestId.value in b.manifests
                  && var pins, gate := b.manifests[b.tasks[t].manifestId.value].core.pins, world.gate;
                     && (error == Some(GateClosed) <==> gate.None?)
                     && (error == Some(StaleBaseline) <==> gate.Some? && gate.value.baselineId != pins.baselineId)
                     && (error == Some(StaleVersion) <==>
                           && cfg == EXTERNAL_SCANNERS && gate.Some? && gate.value.baselineId == pins.baselineId
                           && gate.value.version != pins.version)
                     && (error == Some(StaleBinary) <==>
                           && cfg == EXTERNAL_SCANNERS && gate.Some? && gate.value.baselineId == pins.baselineId
                           && gate.value.version == pins.version && gate.value.binarySha256 != pins.binarySha256)
                     && (error.Some? ==> error.value in {GateClosed, StaleBaseline, StaleVersion, StaleBinary, StaleRules}))
  {
    ReachableInv(cfg, b);
    hide StartedOk, CheckpointsOk, Unused;
    assert RecordsOk(b, t);
    if t in b.tasks && b.tasks[t].manifestId.Some? {
      assert TaskOk(b, t) && ManifestOk(b, b.tasks[t].manifestId.value);
    }
  }

  /** A run that has started ends, with a record of its result that awaits review, or with a failed task and none. */
  lemma FinishedIff(cfg: Config, b: Board, r: Id, result: Option<string>)
    requires Deployed(cfg) && Reachable(cfg, b)
    ensures var call := Finish(b, r, result);
            && (r !in b.flights ==> call == Call(b, Some(RunNotFound)))
            && (r in b.flights ==>
                  && var f := b.flights[r];
                     && f.taskId in b.tasks
                     && call.error == (if result.None? then Some(ToolFailed) else None)
                     && call.after == b.(tasks := call.after.tasks, flights := b.flights - {r}, runs := call.after.runs)
                     && OnlyTaskIs(b, call.after, f.taskId,
                                   b.tasks[f.taskId].(status := if result.None? then Failed else HumanResultReview))
                     && (result.None? ==> call.after.runs == b.runs)
                     && (result.Some? ==>
                           && call.after.runs.Keys == b.runs.Keys + {r}
                           && (forall x :: x in b.runs ==> call.after.runs[x] == b.runs[x])
                           && var run := call.after.runs[r];
                              && run.taskId == f.taskId && run.manifestId == f.manifestId && run.manifestSha256 == f.manifestSha256
                              && run.status == HumanResultReview && run.resultSha256 == Sha256(result.value)))
  {
    ReachableInv(cfg, b);
    hide StartedOk, CheckpointsOk, Unused, TaskOk, ManifestOk, RunOk;
    if r in b.flights {
      assert RecordsOk(b, b.flights[r].taskId);
      assert FlightOk(b, r);
    }
  }

  /** A result that awaits review is reviewed once: run and task get the same verdict, and acceptance a checkpoint. */
  lemma ReviewedIff(cfg: Config, b: Board, r: Id, decision: Decision, id: Id)
    requires Deployed(cfg) && Reachable(cfg, b) && id !in b.checkpoints
    ensures var call := Review(b, r, decision, id);
            var verdict := if decision == Accept then AcceptedResult else if decision == Return then ReturnedForReview
                           else RejectedResult;
            && (call.error.None? <==> r in b.runs && b.runs[r].status == HumanResultReview)
            && (call.error == Some(RunNotFound) <==> r !in b.runs)
            && (call.error.Some? ==> call.error.value in {RunNotFound, RunNotReadyForReview} && call.after == b)
            && (call.error.None? ==>
                  && call.after == b.(tasks := call.after.tasks, runs := call.after.runs, checkpoints := call.after.checkpoints)
                  && b.runs[r].taskId in b.tasks
                  && OnlyTaskIs(b, call.after, b.runs[r].taskId, b.tasks[b.runs[r].taskId].(status := verdict))
                  && call.after.runs == b.runs[r := b.runs[r].(status := verdict)]
                  && (decision != Accept ==> call.after.checkpoints == b.checkpoints)
                  && (decision == Accept ==>
                        && call.after.checkpoints.Keys == b.checkpoints.Keys + {id}
                        && (forall c :: c in b.checkpoints ==> call.after.checkpoints[c] == b.checkpoints[c])
                        && var c := call.after.checkpoints[id];
                           && c.taskId == b.runs[r].taskId && c.runId == r
                           && c.resultSha256 == b.runs[r].resultSha256 && c.manifestSha256 == b.runs[r].manifestSha256))
  {
    ReachableInv(cfg, b);
    hide StartedOk, CheckpointsOk, Unused, TaskOk, ManifestOk, FlightOk;
    if r in b.runs {
      assert RecordsOk(b, b.runs[r].taskId);
      assert RunOk(b, r);
    }
  }

  /* ---------- A task can be carried through ---------- */

  lemma ReachableOn(cfg: Config, b: Board, op: Op)
    requires Reachable(cfg, b) && Possible(b, op)
    ensures Reachable(cfg, Step(cfg, b, op).after)
  {
    hide Step, Possible;
    var ops :| b == After(cfg, EMPTY, ops);
    assert (ops + [op])[..|ops + [op]| - 1] == ops;
    assert Step(cfg, b, op).after == After(cfg, EMPTY, ops + [op]);
  }

  /** The five calls that take a draft to its result, with the surroundings of world throughout. */
  function Submitted(cfg: Config, b: Board, t: Id, m: Id, world: World): Board {
    Submit(Prepare(cfg, b, t, m, world).after, t).after
  }

  function StartedBoard(cfg: Config, b: Board, t: Id, m: Id, r: Id, approver: string, world: World): Board {
    Start(cfg, Approve(Submitted(cfg, b, t, m, world), t, approver).after, t, r, world).after
  }

  lemma DraftIsSubmitted(cfg: Config, b: Board, t: Id, m: Id, world: World)
    requires Deployed(cfg) && Reachable(cfg, b) && t in b.tasks && b.tasks[t].status == Draft && m !in b.manifests
    requires world.gate.Some? && world.scopeResolves
    requires b.tasks[t].input.rulesSha256.Some? ==> world.rulesSha256 == b.tasks[t].input.rulesSha256
    ensures var b' := Submitted(cfg, b, t, m, world);
            && Reachable(cfg, b') && t in b'.tasks && m in b'.manifests
            && b'.tasks[t] == b.tasks[t].(status := ReadyForReview, manifestId := Some(m))
            && b'.manifests[m].status == Prepared && b'.manifests[m].core.pins == world.gate.value
            && b'.manifests[m].core.rulesSha256 == b.tasks[t].input.rulesSha256
            && b'.started == b.started && b'.checkpoints == b.checkpoints
  {
    hide Reachable, Prepare, Submit;
    PreparedIff(cfg, b, t, m, world);
    ReachableOn(cfg, b, OpPrepare(t, m, world));
    var b1 := Prepare(cfg, b, t, m, world).after;
    SubmittedIff(b1, t);
    ReachableOn(cfg, b1, OpSubmit(t));
  }

  lemma SubmittedIsStarted(cfg: Config, b: Board, t: Id, m: Id, r: Id, approver: string, world: World)
    requires Deployed(cfg) && Reachable(cfg, b) && t in b.tasks && m in b.manifests && r !in b.started
    requires b.tasks[t].status == ReadyForReview && b.tasks[t].manifestId == Some(m) && b.manifests[m].status == Prepared
    requires world.gate == Some(b.manifests[m].core.pins)
    requires b.tasks[t].input.rulesSha256.Some? ==> world.rulesSha256 == b.manifests[m].core.rulesSha256
    ensures var b' := Start(cfg, Approve(b, t, approver).after, t, r, world).after;
            && Reachable(cfg, b') && r in b'.flights && b'.checkpoints == b.checkpoints
            && b'.flights[r] == Flight(t, m, Sha256(b.manifests[m].core))
  {
    hide Reachable, Approve, Start;
    ApprovedIff(cfg, b, t, approver);
    ReachableOn(cfg, b, OpApprove(t, approver));
    var b1 := Approve(b, t, approver).after;
    StartedIff(cfg, b1, t, r, world);
    ReachableOn(cfg, b1, OpStart(t, r, world));
  }

  lemma StartedIsAccepted(cfg: Config, b: Board, r: Id, result: string, c: Id)
    requires Deployed(cfg) && Reachable(cfg, b) && r in b.flights && c !in b.checkpoints
    ensures var call := Review(Finish(b, r, Some(result)).after, r, Accept, c);
            && call.error.None? && b.flights[r].taskId in call.after.tasks && c in call.after.checkpoints
            && call.after.tasks[b.flights[r].taskId].status == AcceptedResult
            && call.after.checkpoints[c] == Checkpoint(b.flights[r].taskId, r, Sha256(result), b.flights[r].manifestSha256)
  {
    hide Reachable, Finish, Review;
    FinishedIff(cfg, b, r, Some(result));
    ReachableOn(cfg, b, OpFinish(r, Some(result)));
    ReviewedIff(cfg, Finish(b, r, Some(result)).after, r, Accept, c);
  }

  /** From any board, a draft whose gate stays open and whose scope and rules stay as they are can be prepared, submitted,
      approved, run and accepted; its checkpoint then holds the hash of the result and that of a manifest with what the gate
      reported. */
  lemma DraftsCanBeAccepted(
      cfg: Config, b: Board, t: Id, world: World, m: Id, r: Id, c: Id, approver: string, result: string)
    requires Deployed(cfg) && Reachable(cfg, b) && t in b.tasks && b.tasks[t].status == Draft
    requires m !in b.manifests && r !in b.started && c !in b.checkpoints
    requires world.gate.Some? && world.scopeResolves
    requires b.tasks[t].input.rulesSha256.Some? ==> world.rulesSha256 == b.tasks[t].input.rulesSha256
    ensures var ran := Finish(StartedBoard(cfg, b, t, m, r, approver, world), r, Some(result)).after;
            var call := Review(ran, r, Accept, c);
            && call.error.None? && t in call.after.tasks && call.after.tasks[t].status == AcceptedResult
            && c in call.after.checkpoints && call.after.checkpoints[c].resultSha256 == Sha256(result)
            && call.after.checkpoints[c].manifestSha256.preimage.pins == world.gate.value
  {
    hide Reachable, Approve, Start, Submitted, Finish, Review;
    DraftIsSubmitted(cfg, b, t, m, world);
    var b' := Submitted(cfg, b, t, m, world);
    SubmittedIsStarted(cfg, b', t, m, r, approver, world);
    StartedIsAccepted(cfg, StartedBoard(cfg, b, t, m, r, approver, world), r, result, c);
  }
}
