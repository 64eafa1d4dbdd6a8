/**
 Safety of the task machine over every interleaving of tasks and runs, for either configuration.
 */
module TaskBoardInvariant {
  import opened Common
  import opened TaskBoard

  /* ---------- The invariant ---------- */

  ghost predicate Unused(started: map<Id, Id>, manifestId: Id) {
    forall r :: r in started ==> started[r] != manifestId
  }

  /** A task's current manifest is its own; approval, running and review each rest on a record. */
  ghost predicate TaskOk(b: Board, t: Id)
    requires t in b.tasks
  {
    var task := b.tasks[t];
    && (task.manifestId.Some? ==>
          task.manifestId.value in b.manifests && b.manifests[task.manifestId.value].core.taskId == t)
    && (task.status == ApprovedForRun ==>
          && task.manifestId.Some? && b.manifests[task.manifestId.value].status == Approved
          && Unused(b.started, task.manifestId.value))
    && (task.status == Running || task.status == HumanResultReview ==>
          && task.manifestId.Some? && task.runId.Some? && task.runId.value in b.started
          && b.started[task.runId.value] == task.manifestId.value)
    && (task.status == Running ==> task.runId.value in b.flights && b.flights[task.runId.value].taskId == t)
    && (task.status == HumanResultReview ==>
          && task.runId.value in b.runs && b.runs[task.runId.value].taskId == t
          && b.runs[task.runId.value].status == HumanResultReview)
  }

  ghost predicate ManifestOk(b: Board, m: Id)
    requires m in b.manifests
  {
    var manifest := b.manifests[m];
    && manifest.core.taskId in b.tasks
    && manifest.core.inputHash == InputSha256(b.tasks[manifest.core.taskId].input)
    && manifest.sha256 == Sha256(manifest.core)
    && (manifest.status == Prepared ==> Unused(b.started, m))
  }

  /** Run id r ran under manifest m, of task t. */
  ghost predicate RanUnder(b: Board, r: Id, m: Id, hash: Digest<ManifestCore>, t: Id) {
    && r in b.started && b.started[r] == m
    && m in b.manifests && hash == b.manifests[m].sha256 && b.manifests[m].core.taskId == t
    && t in b.tasks
  }

  ghost predicate FlightOk(b: Board, r: Id)
    requires r in b.flights
  {
    var f := b.flights[r];
    && r !in b.runs && RanUnder(b, r, f.manifestId, f.manifestSha256, f.taskId)
    && b.tasks[f.taskId].status == Running && b.tasks[f.taskId].runId == Some(r)
  }

  ghost predicate RunOk(b: Board, r: Id)
    requires r in b.runs
  {
    var run := b.runs[r];
    && RanUnder(b, r, run.manifestId, run.manifestSha256, run.taskId)
    && (run.status == HumanResultReview ==>
          b.tasks[run.taskId].status == HumanResultReview && b.tasks[run.taskId].runId == Some(r))
  }

  /** Every record of task t is in order. */
  ghost predicate RecordsOk(b: Board, t: Id) {
    && (t in b.tasks ==> TaskOk(b, t))
    && (forall m :: m in b.manifests && b.manifests[m].core.taskId == t ==> ManifestOk(b, m))
    && (forall r :: r in b.flights && b.flights[r].taskId == t ==> FlightOk(b, r))
    && (forall r :: r in b.runs && b.runs[r].taskId == t ==> RunOk(b, r))
  }

  /** No manifest has been run twice, and none without approval. */
  ghost predicate StartedOk(manifests: map<Id, Manifest>, started: map<Id, Id>) {
    && (forall r :: r in started ==> started[r] in manifests && manifests[started[r]].status == Approved)
    && (forall r, r' :: r in started && r' in started && started[r] == started[r'] ==> r == r')
  }

  /** Checkpoint c records run r. */
  ghost predicate Records(runs: map<Id, Run>, checkpoints: map<Id, Checkpoint>, c: Id, r: Id) {
    && c in checkpoints && r in runs
    && checkpoints[c] == Checkpoint(runs[r].taskId, r, runs[r].resultSha256, runs[r].manifestSha256)
  }

  /** Checkpoints and accepted runs correspond one to one. */
  ghost predicate CheckpointsOk(runs: map<Id, Run>, checkpoints: map<Id, Checkpoint>) {
    && (forall c :: c in checkpoints ==>
          Records(runs, checkpoints, c, checkpoints[c].runId) && runs[checkpoints[c].runId].status == AcceptedResult)
    && (forall c, c' :: c in checkpoints && c' in checkpoints && checkpoints[c].runId == checkpoints[c'].runId ==> c == c')
    && (forall r :: r in runs && runs[r].status == AcceptedResult ==> exists c :: Records(runs, checkpoints, c, r))
  }

  ghost predicate Inv(b: Board) {
    && (forall t :: RecordsOk(b, t))
    && StartedOk(b.manifests, b.started)
    && CheckpointsOk(b.runs, b.checkpoints)
  }

  /* ---------- Every call keeps it ---------- */

  /** From b to b' only records of task t were added, changed or removed. */
  ghost predicate OnlyTask(b: Board, b': Board, t: Id) {
    && (forall x :: x != t ==> (x in b.tasks <==> x in b'.tasks) && (x in b.tasks ==> b'.tasks[x] == b.tasks[x]))
    && (forall m :: m in b.manifests ==> m in b'.manifests && b'.manifests[m].core == b.manifests[m].core)
    && (forall m :: m in b'.manifests && b'.manifests[m].core.taskId != t ==>
          m in b.manifests && b'.manifests[m] == b.manifests[m])
    && (forall r :: r in b.flights && b.flights[r].taskId != t ==> r in b'.flights && b'.flights[r] == b.flights[r])
    && (forall r :: r in b'.flights && b'.flights[r].taskId != t ==> r in b.flights && b'.flights[r] == b.flights[r])
    && (forall r :: r in b.runs && b.runs[r].taskId != t ==> r in b'.runs && b'.runs[r] == b.runs[r])
    && (forall r :: r in b'.runs && b'.runs[r].taskId != t ==> r in b.runs && b'.runs[r] == b.runs[r])
    && (forall r :: r in b'.runs && r !in b.runs ==> r in b.flights && b.flights[r].taskId == t)
    && (forall r :: r in b.started ==> r in b'.started && b'.started[r] == b.started[r])
    && (forall r :: r in b'.started && r !in b.started ==>
          b'.started[r] in b'.manifests && b'.manifests[b'.started[r]].core.taskId == t)
  }

  lemma OthersStay(b: Board, b': Board, t: Id, x: Id)
    requires OnlyTask(b, b', t) && x != t && RecordsOk(b, x)
    ensures RecordsOk(b', x)
  {
    assert x in b'.tasks ==> TaskOk(b', x);
    forall m | m in b'.manifests && b'.manifests[m].core.taskId == x ensures ManifestOk(b', m) {
      assert ManifestOk(b, m);
    }
    forall r | r in b'.flights && b'.flights[r].taskId == x ensures FlightOk(b', r) {
      assert FlightOk(b, r);
    }
    forall r | r in b'.runs && b'.runs[r].taskId == x ensures RunOk(b', r) {
      assert RunOk(b, r);
    }
  }

  lemma AllStay(b: Board, b': Board, t: Id)
    requires forall x :: RecordsOk(b, x)
    requires OnlyTask(b, b', t) && RecordsOk(b', t)
    ensures forall x :: RecordsOk(b', x)
  {
    hide RecordsOk, OnlyTask;
    forall x ensures RecordsOk(b', x) {
      if x != t { OthersStay(b, b', t, x); }
    }
  }

  lemma CreateKeeps(cfg: Config, b: Board, id: Id, request: Request, world: World)
    requires Inv(b) && id !in b.tasks
    ensures Inv(Create(cfg, b, id, request, world).after)
  {
    hide CheckpointsOk, StartedOk, RecordsOk, OnlyTask, CreateRefusal, Recorded;
    var input := Recorded(cfg, request, world);
    if Create(cfg, b, id, request, world).error.None? {
      WithTaskRecords(b, id, Task(input, Draft, None, None, None));
      AllStay(b, b.(tasks := b.tasks[id := Task(input, Draft, None, None, None)]), id);
    }
  }

  lemma WithTaskRecords(b: Board, t: Id, task: Task)
    requires RecordsOk(b, t) && t !in b.tasks && task.status == Draft && task.manifestId.None?
    ensures var b' := b.(tasks := b.tasks[t := task]); RecordsOk(b', t) && OnlyTask(b, b', t)
  {
    hide Unused;
    var b' := b.(tasks := b.tasks[t := task]);
    assert forall m :: m in b.manifests && b.manifests[m].core.taskId == t ==> ManifestOk(b, m);
    assert forall r :: r in b.flights && b.flights[r].taskId == t ==> FlightOk(b, r);
    assert forall r :: r in b.runs && b.runs[r].taskId == t ==> RunOk(b, r);
    assert TaskOk(b', t);
  }

  lemma SetStatusRecords(b: Board, t: Id, status: Status)
    requires RecordsOk(b, t) && t in b.tasks
    requires b.tasks[t].status != Running && b.tasks[t].status != HumanResultReview
    requires status != ApprovedForRun && status != Running && status != HumanResultReview
    ensures RecordsOk(SetStatus(b, t, status), t)
  {
    hide Unused;
    var b' := SetStatus(b, t, status);
    assert TaskOk(b', t);
    assert forall m :: m in b.manifests && b.manifests[m].core.taskId == t ==> ManifestOk(b', m);
    assert forall r :: r in b'.flights && b'.flights[r].taskId == t ==> FlightOk(b', r);
    assert forall r :: r in b.runs && b.runs[r].taskId == t ==> RunOk(b', r);
  }

  lemma SubmitKeeps(b: Board, t: Id)
    requires Inv(b)
    ensures Inv(Submit(b, t).after)
  {
    hide CheckpointsOk, StartedOk, RecordsOk;
    if Submit(b, t).error.None? {
      SetStatusRecords(b, t, ReadyForReview);
      AllStay(b, SetStatus(b, t, ReadyForReview), t);
    }
  }

  /** The two machines of the system. */
  predicate Deployed(cfg: Config) {
    cfg == NATIVE_OPERATIONS || cfg == EXTERNAL_SCANNERS
  }

  lemma WithManifestRecords(b: Board, t: Id, id: Id, core: ManifestCore)
    requires RecordsOk(b, t) && t in b.tasks && id !in b.manifests && Unused(b.started, id)
    requires b.tasks[t].status !in {ApprovedForRun, Running, HumanResultReview}
    requires core.taskId == t && core.inputHash == InputSha256(b.tasks[t].input)
    ensures RecordsOk(WithManifest(b, t, id, core), t)
  {
    hide Unused;
    var b' := WithManifest(b, t, id, core);
    assert TaskOk(b', t);
    assert forall m :: m in b.manifests && b.manifests[m].core.taskId == t ==> ManifestOk(b', m);
    assert forall r :: r in b'.flights && b'.flights[r].taskId == t ==> FlightOk(b', r);
    assert forall r :: r in b.runs && b.runs[r].taskId == t ==> RunOk(b', r);
  }

  lemma WithManifestTouches(b: Board, t: Id, id: Id, core: ManifestCore)
    requires t in b.tasks && id !in b.manifests && core.taskId == t && StartedOk(b.manifests, b.started)
    ensures var b' := WithManifest(b, t, id, core);
            OnlyTask(b, b', t) && StartedOk(b'.manifests, b'.started) && Unused(b.started, id)
  {
  }

  lemma PrepareKeeps(cfg: Config, b: Board, t: Id, id: Id, world: World)
    requires Inv(b) && id !in b.manifests && Deployed(cfg)
    ensures Inv(Prepare(cfg, b, t, id, world).after)
  {
    hide CheckpointsOk, StartedOk, RecordsOk, OnlyTask;
    var call := Prepare(cfg, b, t, id, world);
    if call.error.None? {
      var core := ManifestCore(t, world.gate.value, InputSha256(b.tasks[t].input), b.tasks[t].input.rulesSha256);
      WithManifestTouches(b, t, id, core);
      WithManifestRecords(b, t, id, core);
      AllStay(b, call.after, t);
    }
  }

  lemma WithApprovalRecords(b: Board, t: Id, m: Id, approver: string)
    requires RecordsOk(b, t) && t in b.tasks && b.tasks[t].status == ReadyForReview && b.tasks[t].manifestId == Some(m)
    requires m in b.manifests && b.manifests[m].status == Prepared
    ensures RecordsOk(WithApproval(b, t, m, approver), t)
  {
    hide Unused;
    var b' := WithApproval(b, t, m, approver);
    assert ManifestOk(b, m);
    assert TaskOk(b', t);
    assert forall m :: m in b.manifests && b.manifests[m].core.taskId == t ==> ManifestOk(b', m);
    assert forall r :: r in b'.flights && b'.flights[r].taskId == t ==> FlightOk(b', r);
    assert forall r :: r in b.runs && b.runs[r].taskId == t ==> RunOk(b', r);
  }

  lemma WithApprovalTouches(b: Board, t: Id, m: Id, approver: string)
    requires t in b.tasks && m in b.manifests && b.manifests[m].core.taskId == t && StartedOk(b.manifests, b.started)
    ensures var b' := WithApproval(b, t, m, approver);
            OnlyTask(b, b', t) && StartedOk(b'.manifests, b'.started)
  {
  }

  lemma ApproveKeeps(b: Board, t: Id, approver: string)
    requires Inv(b)
    ensures Inv(Approve(b, t, approver).after)
  {
    hide CheckpointsOk, RecordsOk, OnlyTask, StartedOk;
    if Approve(b, t, approver).error.None? {
      var m := b.tasks[t].manifestId.value;
      CurrentManifest(b, t);
      WithApprovalTouches(b, t, m, approver);
      WithApprovalRecords(b, t, m, approver);
      AllStay(b, WithApproval(b, t, m, approver), t);
    }
  }

  lemma CurrentManifest(b: Board, t: Id)
    requires RecordsOk(b, t) && t in b.tasks && b.tasks[t].manifestId.Some?
    ensures b.tasks[t].manifestId.value in b.manifests && b.manifests[b.tasks[t].manifestId.value].core.taskId == t
    ensures b.tasks[t].status == ApprovedForRun ==> Unused(b.started, b.tasks[t].manifestId.value)
  {
  }

  lemma WithStartRecords(b: Board, t: Id, m: Id, runId: Id)
    requires RecordsOk(b, t) && t in b.tasks && b.tasks[t].status == ApprovedForRun && b.tasks[t].manifestId == Some(m)
    requires m in b.manifests && b.manifests[m].status == Approved && b.manifests[m].core.taskId == t
    requires runId !in b.started && runId !in b.runs
    ensures RecordsOk(WithStart(b, t, m, runId), t)
  {
    var b' := WithStart(b, t, m, runId);
    WithStartManifests(b, t, m, runId);
    hide Unused, ManifestOk;
    assert TaskOk(b', t);
    assert forall r :: r in b'.flights && b'.flights[r].taskId == t ==> FlightOk(b', r);
    assert forall r :: r in b.runs && b.runs[r].taskId == t ==> RunOk(b', r);
  }

  /** Starting under an approved manifest uses up no manifest that is still only prepared. */
  lemma WithStartManifests(b: Board, t: Id, m: Id, runId: Id)
    requires RecordsOk(b, t) && t in b.tasks && m in b.manifests && b.manifests[m].status == Approved
    ensures var b' := WithStart(b, t, m, runId);
            forall n :: n in b.manifests && b.manifests[n].core.taskId == t ==> ManifestOk(b', n)
  {
    hide TaskOk, FlightOk, RunOk;
    forall n | n in b.manifests && b.manifests[n].core.taskId == t ensures ManifestOk(WithStart(b, t, m, runId), n) {
      assert ManifestOk(b, n);
    }
  }

  lemma WithStartTouches(b: Board, t: Id, m: Id, runId: Id)
    requires t in b.tasks && m in b.manifests && b.manifests[m].core.taskId == t && b.manifests[m].status == Approved
    requires runId !in b.started && runId !in b.flights && StartedOk(b.manifests, b.started) && Unused(b.started, m)
    ensures var b' := WithStart(b, t, m, runId);
            OnlyTask(b, b', t) && StartedOk(b'.manifests, b'.started)
  {
  }

  /** A run id that has not started is in no record. */
  lemma FreshRun(b: Board, runId: Id)
    requires Inv(b) && runId !in b.started
    ensures runId !in b.flights && runId !in b.runs
  {
    assert runId in b.flights ==> RecordsOk(b, b.flights[runId].taskId);
    assert runId in b.runs ==> RecordsOk(b, b.runs[runId].taskId);
  }

  lemma StartKeeps(cfg: Config, b: Board, t: Id, runId: Id, world: World)
    requires Inv(b) && runId !in b.started
    ensures Inv(Start(cfg, b, t, runId, world).after)
  {
    hide CheckpointsOk, RecordsOk, OnlyTask, StartedOk, Verify, Unused;
    if Start(cfg, b, t, runId, world).error.None? {
      var m := b.tasks[t].manifestId.value;
      FreshRun(b, runId);
      CurrentManifest(b, t);
      WithStartTouches(b, t, m, runId);
      WithStartRecords(b, t, m, runId);
      AllStay(b, WithStart(b, t, m, runId), t);
    }
  }

  lemma WithLandingRecords(b: Board, runId: Id, result: Option<string>)
    requires runId in b.flights && RecordsOk(b, b.flights[runId].taskId) && b.flights[runId].taskId in b.tasks
    ensures RecordsOk(WithLanding(b, runId, result), b.flights[runId].taskId)
  {
    hide Unused;
    var t := b.flights[runId].taskId;
    var b' := WithLanding(b, runId, result);
    assert FlightOk(b, runId);
    assert TaskOk(b', t);
    assert forall m :: m in b.manifests && b.manifests[m].core.taskId == t ==> ManifestOk(b', m);
    assert forall r :: r in b'.flights && b'.flights[r].taskId == t ==> FlightOk(b', r);
    assert forall r :: r in b.runs && b.runs[r].taskId == t ==> RunOk(b', r);
  }

  lemma WithLandingTouches(b: Board, runId: Id, result: Option<string>)
    requires runId in b.flights && b.flights[runId].taskId in b.tasks && runId !in b.runs
    ensures OnlyTask(b, WithLanding(b, runId, result), b.flights[runId].taskId)
  {
  }

  lemma WithLandingCheckpoints(b: Board, runId: Id, result: Option<string>)
    requires runId in b.flights && b.flights[runId].taskId in b.tasks && runId !in b.runs
    requires CheckpointsOk(b.runs, b.checkpoints)
    ensures CheckpointsOk(WithLanding(b, runId, result).runs, b.checkpoints)
  {
    var runs := WithLanding(b, runId, result).runs;
    forall r | r in runs && runs[r].status == AcceptedResult ensures exists c :: Records(runs, b.checkpoints, c, r) {
      var c :| Records(b.runs, b.checkpoints, c, r);
      assert Records(runs, b.checkpoints, c, r);
    }
  }

  lemma FinishKeeps(b: Board, runId: Id, result: Option<string>)
    requires Inv(b)
    ensures Inv(Finish(b, runId, result).after)
  {
    if runId in b.flights {
      assert RecordsOk(b, b.flights[runId].taskId);
      hide CheckpointsOk, RecordsOk, OnlyTask, StartedOk, Unused;
      WithLandingTouches(b, runId, result);
      WithLandingRecords(b, runId, result);
      WithLandingCheckpoints(b, runId, result);
      AllStay(b, WithLanding(b, runId, result), b.flights[runId].taskId);
    }
  }

  lemma WithVerdictRecords(b: Board, runId: Id, status: Status)
    requires runId in b.runs && RecordsOk(b, b.runs[runId].taskId) && b.runs[runId].taskId in b.tasks
    requires b.runs[runId].status == HumanResultReview
    requires status == AcceptedResult || status == ReturnedForReview || status == RejectedResult
    ensures RecordsOk(WithVerdict(b, runId, status), b.runs[runId].taskId)
  {
    hide Unused;
    var t := b.runs[runId].taskId;
    var b' := WithVerdict(b, runId, status);
    assert RunOk(b, runId);
    assert TaskOk(b', t);
    assert forall m :: m in b.manifests && b.manifests[m].core.taskId == t ==> ManifestOk(b', m);
    assert forall r :: r in b'.flights && b'.flights[r].taskId == t ==> FlightOk(b', r);
    assert forall r :: r in b.runs && b.runs[r].taskId == t ==> RunOk(b', r);
  }

  lemma WithVerdictTouches(b: Board, runId: Id, status: Status)
    requires runId in b.runs && b.runs[runId].taskId in b.tasks
    ensures OnlyTask(b, WithVerdict(b, runId, status), b.runs[runId].taskId)
  {
  }

  /** Returning or rejecting a run leaves the checkpoints in step. */
  lemma WithVerdictCheckpoints(b: Board, runId: Id, status: Status)
    requires runId in b.runs && b.runs[runId].taskId in b.tasks && b.runs[runId].status == HumanResultReview
    requires CheckpointsOk(b.runs, b.checkpoints) && status != AcceptedResult
    ensures CheckpointsOk(WithVerdict(b, runId, status).runs, b.checkpoints)
  {
    var runs := WithVerdict(b, runId, status).runs;
    forall r | r in runs && runs[r].status == AcceptedResult ensures exists c :: Records(runs, b.checkpoints, c, r) {
      var c :| Records(b.runs, b.checkpoints, c, r);
      assert Records(runs, b.checkpoints, c, r);
    }
  }

  /** Accepting it adds its one checkpoint. */
  lemma AcceptedCheckpoints(
      runs: map<Id, Run>, checkpoints: map<Id, Checkpoint>, runId: Id, id: Id,
      runs': map<Id, Run>, checkpoints': map<Id, Checkpoint>)
    requires runId in runs && runs[runId].status == HumanResultReview && id !in checkpoints
    requires CheckpointsOk(runs, checkpoints)
    requires runs' == runs[runId := runs[runId].(status := AcceptedResult)]
    requires checkpoints' == checkpoints[id :=
               Checkpoint(runs[runId].taskId, runId, runs[runId].resultSha256, runs[runId].manifestSha256)]
    ensures CheckpointsOk(runs', checkpoints')
  {
    assert Records(runs', checkpoints', id, runId);
    forall c, r | r != runId && Records(runs, checkpoints, c, r) ensures Records(runs', checkpoints', c, r) {}
  }

  /** Records and checkpoints are kept apart: a checkpoint changes nothing else. */
  lemma WithCheckpointRecords(b: Board, runId: Id, id: Id, t: Id)
    requires runId in b.runs && RecordsOk(b, t)
    ensures RecordsOk(WithCheckpoint(b, runId, id), t)
  {
    hide Unused;
    var b' := WithCheckpoint(b, runId, id);
    assert t in b.tasks ==> TaskOk(b', t);
    assert forall m :: m in b.manifests && b.manifests[m].core.taskId == t ==> ManifestOk(b', m);
    assert forall r :: r in b'.flights && b'.flights[r].taskId == t ==> FlightOk(b', r);
    assert forall r :: r in b.runs && b.runs[r].taskId == t ==> RunOk(b', r);
  }

  lemma ReviewKeeps(b: Board, runId: Id, decision: Decision, checkpointId: Id)
    requires Inv(b) && checkpointId !in b.checkpoints
    ensures Inv(Review(b, runId, decision, checkpointId).after)
  {
    hide CheckpointsOk, RecordsOk, OnlyTask, StartedOk, Unused;
    if Review(b, runId, decision, checkpointId).error.None? {
      var reviewed := WithVerdict(b, runId, StatusAfter(decision));
      WithVerdictTouches(b, runId, StatusAfter(decision));
      WithVerdictRecords(b, runId, StatusAfter(decision));
      AllStay(b, reviewed, b.runs[runId].taskId);
      if decision != Accept {
        WithVerdictCheckpoints(b, runId, StatusAfter(decision));
      } else {
        var after := WithCheckpoint(reviewed, runId, checkpointId);
        AcceptedCheckpoints(b.runs, b.checkpoints, runId, checkpointId, after.runs, after.checkpoints);
        forall t ensures RecordsOk(WithCheckpoint(reviewed, runId, checkpointId), t) {
          WithCheckpointRecords(reviewed, runId, checkpointId, t);
        }
      }
    }
  }

  lemma StepKeeps(cfg: Config, b: Board, op: Op)
    requires Inv(b) && Possible(b, op) && Deployed(cfg)
    ensures Inv(Step(cfg, b, op).after)
  {
    hide Inv;
    match op
    case OpCreate(id, request, world) => CreateKeeps(cfg, b, id, request, world);
    case OpSubmit(taskId) => SubmitKeeps(b, taskId);
    case OpPrepare(taskId, id, world) => PrepareKeeps(cfg, b, taskId, id, world);
    case OpApprove(taskId, approver) => ApproveKeeps(b, taskId, approver);
    case OpStart(taskId, runId, world) => StartKeeps(cfg, b, taskId, runId, world);
    case OpFinish(runId, result) => FinishKeeps(b, runId, result);
    case OpReview(runId, decision, checkpointId) => ReviewKeeps(b, runId, decision, checkpointId);
  }

  lemma {:induction false} AfterKeeps(cfg: Config, b: Board, ops: seq<Op>)
    requires Deployed(cfg) && Inv(b)
    ensures Inv(After(cfg, b, ops))
  {
    hide Step, Possible, Inv;
    if ops != [] {
      var init, op := ops[..|ops| - 1], ops[|ops| - 1];
      AfterKeeps(cfg, b, init);
      if Possible(After(cfg, b, init), op) { StepKeeps(cfg, After(cfg, b, init), op); }
    }
  }
}
