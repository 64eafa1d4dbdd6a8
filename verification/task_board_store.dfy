/**
 The task machine as the system keeps it: stored maps that each call reads and rewrites.
 Every method is tied to the call of the same meaning in TaskBoard.
 */
module TaskBoardStore {
  import opened Common
  import Spec = TaskBoard

  class TaskStore {
    const cfg: Spec.Config
    var tasks: map<Id, Spec.Task>
    var manifests: map<Id, Spec.Manifest>
    var runs: map<Id, Spec.Run>
    var flights: map<Id, Spec.Flight>
    var checkpoints: map<Id, Spec.Checkpoint>
    var started: map<Id, Id>

    ghost function Board(): Spec.Board
      reads this
    {
      Spec.Board(tasks, manifests, runs, flights, checkpoints, started)
    }

    constructor (cfg: Spec.Config)
      ensures this.cfg == cfg && Board() == Spec.EMPTY
    {
      this.cfg := cfg;
      tasks, manifests, runs, flights, checkpoints, started := map[], map[], map[], map[], map[], map[];
    }

    method CreateTask(id: Id, request: Spec.Request, world: Spec.World) returns (error: Option<Spec.Error>)
      modifies this`tasks
      ensures Spec.Call(Board(), error) == Spec.Create(cfg, old(Board()), id, request, world)
    {
      hide Spec.Known, Spec.Held, Spec.NeedsRules, Spec.GivesRules;
      if !Spec.Known(cfg, request.toolId) { return Some(Spec.UnknownTool); }
      if Spec.Held(cfg, request.toolId) { return Some(Spec.ToolHeld); }
      if cfg.gateOnCreate && world.gate.None? { return Some(Spec.GateClosed); }
      if !world.scopeResolves { return Some(Spec.ScopeInvalid); }
      var rulesSha256: Option<string> := None;
      if Spec.NeedsRules(cfg, request.toolId) {
        if !Spec.GivesRules(request) { return Some(Spec.RulesRequired); }
        if world.rulesSha256.None? { return Some(Spec.ScopeInvalid); }
        rulesSha256 := world.rulesSha256;
      } else if cfg.rechecks == Spec.TheScanner && Spec.GivesRules(request) {
        return Some(Spec.RulesNotAllowed);
      }
      var input := Spec.Input(request.title, request.goal, request.toolId, request.scope, rulesSha256);
      tasks := tasks[id := Spec.Task(input, Spec.Draft, None, None, None)];
      return None;
    }

    method SetTaskStatus(taskId: Id, status: Spec.Status)
      requires taskId in tasks
      modifies this`tasks
      ensures Board() == Spec.SetStatus(old(Board()), taskId, status)
    {
      var task := tasks[taskId];
      tasks := tasks[taskId := task.(status := status)];
    }

    method SubmitTask(taskId: Id) returns (error: Option<Spec.Error>)
      modifies this`tasks
      ensures Spec.Call(Board(), error) == Spec.Submit(old(Board()), taskId)
    {
      if taskId !in tasks { return Some(Spec.TaskNotFound); }
      if tasks[taskId].status !in {Spec.Draft, Spec.ReturnedForReview} { return Some(Spec.InvalidTaskTransition); }
      SetTaskStatus(taskId, Spec.ReadyForReview);
      return None;
    }

    method PrepareManifest(taskId: Id, id: Id, world: Spec.World) returns (error: Option<Spec.Error>)
      modifies this`tasks, this`manifests
      ensures Spec.Call(Board(), error) == Spec.Prepare(cfg, old(Board()), taskId, id, world)
    {
      if taskId !in tasks { return Some(Spec.TaskNotFound); }
      var task := tasks[taskId];
      if task.status !in cfg.prepareFrom { return Some(Spec.TaskNotReadyForManifest); }
      if world.gate.None? { return Some(Spec.GateClosed); }
      if !world.scopeResolves { return Some(Spec.ScopeInvalid); }
      if task.input.rulesSha256.Some? && world.rulesSha256 != task.input.rulesSha256 {
        return Some(Spec.LocalRulesChanged);
      }
      var core := Spec.ManifestCore(taskId, world.gate.value, Spec.InputSha256(task.input), task.input.rulesSha256);
      manifests := manifests[id := Spec.Manifest(core, Sha256(core), Spec.Prepared)];
      tasks := tasks[taskId := task.(manifestId := Some(id))];
      return None;
    }

    method ApproveTask(taskId: Id, approver: string) returns (error: Option<Spec.Error>)
      modifies this`tasks, this`manifests
      ensures Spec.Call(Board(), error) == Spec.Approve(old(Board()), taskId, approver)
    {
      if taskId !in tasks { return Some(Spec.TaskNotFound); }
      var task := tasks[taskId];
      if task.status != Spec.ReadyForReview { return Some(Spec.TaskNotReadyForApproval); }
      if task.manifestId.None? { return Some(Spec.ManifestRequired); }
      var manifestId := task.manifestId.value;
      if manifestId !in manifests { return Some(Spec.ManifestNotFound); }
      var manifest := manifests[manifestId];
      if manifest.status != Spec.Prepared { return Some(Spec.ManifestNotPrepared); }
      tasks := tasks[taskId := task.(status := Spec.ApprovedForRun, approvedBy := Some(approver))];
      manifests := manifests[manifestId := manifest.(status := Spec.Approved)];
      return None;
    }

    /** The first half of a run, up to the write of RUNNING. */
    method StartRun(taskId: Id, runId: Id, world: Spec.World) returns (error: Option<Spec.Error>)
      modifies this`tasks, this`flights, this`started
      ensures Spec.Call(Board(), error) == Spec.Start(cfg, old(Board()), taskId, runId, world)
    {
      if taskId !in tasks { return Some(Spec.TaskNotFound); }
      var task := tasks[taskId];
      if task.status != Spec.ApprovedForRun { return Some(Spec.UnapprovedTask); }
      if task.manifestId.None? || task.manifestId.value !in manifests { return Some(Spec.ManifestNotFound); }
      var manifest := manifests[task.manifestId.value];
      if manifest.status != Spec.Approved { return Some(Spec.UnapprovedManifest); }
      error := Spec.Verify(cfg, task, manifest.core, world);
      if error.Some? { return; }
      tasks := tasks[taskId := task.(status := Spec.Running, runId := Some(runId))];
      flights := flights[runId := Spec.Flight(taskId, task.manifestId.value, manifest.sha256)];
      started := started[runId := task.manifestId.value];
    }

    /** The second half: the run record and the task's new status, or FAILED when the tool raised. */
    method FinishRun(runId: Id, result: Option<string>) returns (error: Option<Spec.Error>)
      modifies this`tasks, this`flights, this`runs
      ensures Spec.Call(Board(), error) == Spec.Finish(old(Board()), runId, result)
    {
      if runId !in flights || flights[runId].taskId !in tasks { return Some(Spec.RunNotFound); }
      var flight := flights[runId];
      flights := flights - {runId};
      if result.None? {
        SetTaskStatus(flight.taskId, Spec.Failed);
        return Some(Spec.ToolFailed);
      }
      runs := runs[runId := Spec.Run(flight.taskId, flight.manifestId, flight.manifestSha256,
                                     Spec.HumanResultReview, Sha256(result.value))];
      SetTaskStatus(flight.taskId, Spec.HumanResultReview);
      return None;
    }

    method ReviewResult(runId: Id, decision: Spec.Decision, checkpointId: Id) returns (error: Option<Spec.Error>)
      modifies this`tasks, this`runs, this`checkpoints
      ensures Spec.Call(Board(), error) == Spec.Review(old(Board()), runId, decision, checkpointId)
    {
      if runId !in runs { return Some(Spec.RunNotFound); }
      var run := runs[runId];
      if run.status != Spec.HumanResultReview { return Some(Spec.RunNotReadyForReview); }
      if run.taskId !in tasks { return Some(Spec.TaskNotFound); }
      var status := Spec.StatusAfter(decision);
      runs := runs[runId := run.(status := status)];
      SetTaskStatus(run.taskId, status);
      if decision == Spec.Accept {
        checkpoints := checkpoints[checkpointId :=
          Spec.Checkpoint(run.taskId, runId, run.resultSha256, run.manifestSha256)];
      }
      return None;
    }
  }
}
