/**
 The governed change pipeline: models are approved, plans and proposals reviewed, and an
 approved implementation rewrites source files and may later be rolled back.

 Every call is a function from the stored state to the next one; a call that raises
 reports its error and the state it leaves behind.
 */
module Waves {
  import opened Common
  import opened SourceTree

  const MAX_PROPOSAL_BYTES := 700_000
  const MAX_TARGET_FILES := 5

  datatype ReviewStatus = HumanReview | Accepted | Returned | Rejected

  datatype Decision = Accept | Return | Reject

  function StatusAfter(decision: Decision): ReviewStatus {
    match decision
    case Accept => Accepted
    case Return => Returned
    case Reject => Rejected
  }

  datatype ModelState = Registered | Available | PlanningApproved

  datatype Model = Model(state: ModelState, digest: Option<string>, approvedDigest: Option<string>)

  datatype Plan = Plan(status: ReviewStatus, body: string, modelId: Id, modelDigest: string)

  datatype Change = Change(path: Path, preimage: Digest<Content>, newContent: Content, postimage: Digest<Content>)

  /** What proposal_sha256 covers: every hash of every change, but no content. */
  datatype ProposalCore = ProposalCore(
    planId: Id, changes: seq<(Path, Digest<Content>, Digest<Content>)>, modelDigest: string)

  datatype Proposal = Proposal(
    planId: Id, status: ReviewStatus, changes: seq<Change>, modelId: Id, modelDigest: string,
    sha256: Digest<ProposalCore>, applied: bool)

  datatype ImplementationStatus = ApprovedForApply | AppliedAwaitingReview | RolledBack | AcceptedImplementation

  datatype Implementation = Implementation(
    proposalId: Id, status: ImplementationStatus, approvedBy: string,
    tokenSha256: Digest<string>, token: Option<string>, proposalSha256: Digest<ProposalCore>)

  /** The entries of the evidence log that later claims refer to. */
  datatype Event =
    | ModelApproved(modelId: Id, digest: string, approver: string)
    | ImplementationApplied(id: Id)
    | ImplementationReviewed(id: Id, decision: ImplementationDecision)

  datatype State = State(
    tree: Tree, models: map<Id, Model>, plans: map<Id, Plan>, proposals: map<Id, Proposal>,
    implementations: map<Id, Implementation>, evidence: seq<Event>)

  datatype Error =
    | UnknownModelId | ModelNotAvailableForApproval | ModelNotPlanningApproved
    | ModelDigestRevalidationRequired | ModelOutputInvalid
    | EntityNotFound | EntityNotReadyForReview
    | PlanNotFound | AcceptedPlanRequired | Target(why: TargetError) | DuplicateTargetFile
    | ProposalChangesRequired | ProposalPathNotAuthorized | ProposalDuplicatePath | ProposalTooLarge
    | ProposalNotFound | AcceptedProposalRequired | ProposalAlreadyApplied | ProposalPreimageStale
    | ImplementationNotFound | ImplementationNotReadyForApply | ApplyTokenMismatch
    | ImplementationProposalHashMismatch | ImplementationPreimageStale
    | WriteFailed | PostimageHashMismatch
    | ImplementationNotReadyForReview | RollbackPostimageChanged | RollbackBackupMissing
    | RollbackPreimageHashMismatch

  /** The state a call leaves behind, and the error it raised, if any. */
  datatype Call = Call(after: State, error: Option<Error>) {
    predicate Succeeds() { error.None? }
  }

  function Refuse(s: State, e: Error): Call { Call(s, Some(e)) }

  function Done(s: State): Call { Call(s, None) }

  /* ---------- Models ---------- */

  predicate Truthy(digest: Option<string>) { digest.Some? && digest.value != "" }

  /** One registry record after a probe; found is the record the provider lists, if any. */
  function Probed(m: Model, found: Option<Option<string>>): Model {
    if found.None? then m.(state := Registered, digest := None)
    else if m.approvedDigest == found.value && Truthy(found.value)
    then m.(state := PlanningApproved, digest := found.value)
    else m.(state := Available, digest := found.value)
  }

  function Lookup<T>(m: map<Id, T>, id: Id): Option<T> {
    if id in m then Some(m[id]) else None
  }

  function ProbeModels(s: State, listed: map<Id, Option<string>>): Call {
    Done(s.(models := map id | id in s.models :: Probed(s.models[id], Lookup(listed, id))))
  }

  function ApproveModel(s: State, id: Id, approver: string): Call {
    if id !in s.models then Refuse(s, UnknownModelId)
    else
      var m := s.models[id];
      if m.state != Available || !Truthy(m.digest) then Refuse(s, ModelNotAvailableForApproval)
      else Done(s.(models := s.models[id := m.(state := PlanningApproved, approvedDigest := m.digest)],
                   evidence := s.evidence + [ModelApproved(id, m.digest.value, approver)]))
  }

  /** The digest under which a model may generate. */
  function ApprovedModel(s: State, id: Id): Result<string, Error> {
    if id !in s.models then Err(UnknownModelId)
    else
      var m := s.models[id];
      if m.state != PlanningApproved then Err(ModelNotPlanningApproved)
      else if !Truthy(m.digest) || m.digest != m.approvedDigest then Err(ModelDigestRevalidationRequired)
      else Ok(m.digest.value)
  }

  /* ---------- Plans and proposals ---------- */

  /** body is None when the model's output fails validation. */
  function GeneratePlan(s: State, id: Id, modelId: Id, body: Option<string>): Call
    requires id !in s.plans
  {
    var model := ApprovedModel(s, modelId);
    if model.Err? then Refuse(s, model.error)
    else if body.None? then Refuse(s, ModelOutputInvalid)
    else Done(s.(plans := s.plans[id := Plan(HumanReview, body.value, modelId, model.value)]))
  }

  function ReviewPlan(s: State, id: Id, decision: Decision): Call {
    if id !in s.plans then Refuse(s, EntityNotFound)
    else if s.plans[id].status != HumanReview then Refuse(s, EntityNotReadyForReview)
    else Done(s.(plans := s.plans[id := s.plans[id].(status := StatusAfter(decision))]))
  }

  function ReviewProposal(s: State, id: Id, decision: Decision): Call {
    if id !in s.proposals then Refuse(s, EntityNotFound)
    else if s.proposals[id].status != HumanReview then Refuse(s, EntityNotReadyForReview)
    else Done(s.(proposals := s.proposals[id := s.proposals[id].(status := StatusAfter(decision))]))
  }

  /** The requested targets with their current hashes. */
  function ReadTargets(tree: Tree, paths: seq<Path>): (r: Result<map<Path, Digest<Content>>, Error>) {
    if paths == [] then Ok(map[])
    else
      var init, p := paths[..|paths| - 1], paths[|paths| - 1];
      var before := ReadTargets(tree, init);
      if before.Err? then before
      else
        var safe := SafeTarget(tree, p);
        if safe.Err? then Err(Target(safe.error))
        else if p in before.value then Err(DuplicateTargetFile)
        else Ok(before.value[p := Sha256(safe.value)])
  }

  datatype Edit = Edit(path: Path, newContent: Content)

  function Bytes(edits: seq<Edit>): nat {
    if edits == [] then 0 else Bytes(edits[..|edits| - 1]) + |edits[|edits| - 1].newContent|
  }

  predicate Touches(edits: seq<Edit>, p: Path) {
    exists i :: 0 <= i < |edits| && edits[i].path == p
  }

  /** Validation of the model's edits one at a time, stopping at the first violation. */
  function NormalizeEdits(targets: map<Path, Digest<Content>>, edits: seq<Edit>): (r: Result<seq<Change>, Error>) {
    if edits == [] then Ok([])
    else
      var init, e := edits[..|edits| - 1], edits[|edits| - 1];
      var before := NormalizeEdits(targets, init);
      if before.Err? then before
      else if e.path !in targets then Err(ProposalPathNotAuthorized)
      else if Touches(init, e.path) then Err(ProposalDuplicatePath)
      else if Bytes(edits) > MAX_PROPOSAL_BYTES then Err(ProposalTooLarge)
      else Ok(before.value + [Change(e.path, targets[e.path], e.newContent, Sha256(e.newContent))])
  }

  function ValidateProposal(targets: map<Path, Digest<Content>>, edits: seq<Edit>): Result<seq<Change>, Error> {
    if edits == [] then Err(ProposalChangesRequired) else NormalizeEdits(targets, edits)
  }

  function HashedChanges(changes: seq<Change>): seq<(Path, Digest<Content>, Digest<Content>)> {
    seq(|changes|, i requires 0 <= i < |changes| => (changes[i].path, changes[i].preimage, changes[i].postimage))
  }

  function GenerateProposal(s: State, id: Id, planId: Id, modelId: Id, paths: seq<Path>, edits: seq<Edit>): Call
    requires id !in s.proposals
    requires 1 <= |paths| <= MAX_TARGET_FILES
  {
    if planId !in s.plans then Refuse(s, PlanNotFound)
    else if s.plans[planId].status != Accepted then Refuse(s, AcceptedPlanRequired)
    else
      var targets := ReadTargets(s.tree, paths);
      if targets.Err? then Refuse(s, targets.error)
      else
        var model := ApprovedModel(s, modelId);
        if model.Err? then Refuse(s, model.error)
        else
          var changes := ValidateProposal(targets.value, edits);
          if changes.Err? then Refuse(s, changes.error)
          else
            var core := ProposalCore(planId, HashedChanges(changes.value), model.value);
            Done(s.(proposals := s.proposals[id :=
              Proposal(planId, HumanReview, changes.value, modelId, model.value, Sha256(core), false)]))
  }

  /* ---------- Implementations ---------- */

  /** p may be a target and its content has the given digest. */
  predicate Holds(tree: Tree, p: Path, digest: Digest<Content>) {
    var safe := SafeTarget(tree, p);
    safe.Ok? && Sha256(safe.value) == digest
  }

  function Wanted(c: Change, post: bool): Digest<Content> {
    if post then c.postimage else c.preimage
  }

  /** First failing target check over the changes, in order; None when every file holds its wanted hash. */
  function CheckTargets(tree: Tree, changes: seq<Change>, post: bool, stale: Error): Option<Error> {
    if changes == [] then None
    else
      var init, c := changes[..|changes| - 1], changes[|changes| - 1];
      var before := CheckTargets(tree, init, post, stale);
      if before.Some? then before
      else
        if Holds(tree, c.path, Wanted(c, post)) then None
        else
          var safe := SafeTarget(tree, c.path);
          Some(if safe.Err? then Target(safe.error) else stale)
  }

  lemma {:induction false} CheckTargetsMeaning(tree: Tree, changes: seq<Change>, post: bool, stale: Error)
    ensures CheckTargets(tree, changes, post, stale) == None <==>
            forall i :: 0 <= i < |changes| ==> Holds(tree, changes[i].path, Wanted(changes[i], post))
  {
    hide Holds;
    if changes != [] {
      var init := changes[..|changes| - 1];
      CheckTargetsMeaning(tree, init, post, stale);
      assert forall i :: 0 <= i < |changes| - 1 ==> init[i] == changes[i];
    }
  }

  function PrepareImplementation(s: State, id: Id, proposalId: Id, approver: string, token: string): Call
    requires id !in s.implementations
  {
    if proposalId !in s.proposals then Refuse(s, ProposalNotFound)
    else
      var p := s.proposals[proposalId];
      if p.status != Accepted then Refuse(s, AcceptedProposalRequired)
      else if p.applied then Refuse(s, ProposalAlreadyApplied)
      else
        var stale := CheckTargets(s.tree, p.changes, false, ProposalPreimageStale);
        if stale.Some? then Refuse(s, stale.value)
        else Done(s.(implementations := s.implementations[id :=
          Implementation(proposalId, ApprovedForApply, approver, Sha256(token), Some(token), p.sha256)]))
  }

  /** A change together with the place its preimage is kept. */
  datatype Slot = Slot(change: Change, backup: Path)

  function Slots(id: Id, changes: seq<Change>): (slots: seq<Slot>)
    ensures |slots| == |changes|
    ensures forall i :: 0 <= i < |changes| ==> slots[i] == Slot(changes[i], BackupPath(id, changes[i].path))
  {
    seq(|changes|, i requires 0 <= i < |changes| => Slot(changes[i], BackupPath(id, changes[i].path)))
  }

  ghost predicate Present(tree: Tree, slots: seq<Slot>) {
    forall i :: 0 <= i < |slots| ==> slots[i].change.path in tree
  }

  /** What the disk does with the write of one target. */
  datatype Io =
    | Lands(onDisk: Content)                       // the replacement completes and reads back as onDisk
    | RaisesBefore(backup: Option<Content>)        // nothing replaced; the backup may be written, in part
    | RaisesAfter(onDisk: Content)                 // replaced by onDisk, then an operation raises

  /** An undo write that raises leaves its file torn; the ones after it never happen. */
  datatype UndoStop = UndoStop(completed: nat, torn: Content)

  /** The disk's behaviour during one apply. Writes not listed land as written. */
  datatype Disk = Disk(writes: seq<Io>, undo: Option<UndoStop>)

  const WORKING_DISK := Disk([], None)

  function IoAt(disk: Disk, slots: seq<Slot>, i: nat): Io
    requires i < |slots|
  {
    if i < |disk.writes| then disk.writes[i] else Lands(slots[i].change.newContent)
  }

  /** failed is the index of the change whose write raised, or the number of changes. */
  datatype Written = Written(tree: Tree, failed: nat, error: Error)

  function BackUpAndReplace(tree: Tree, slot: Slot, onDisk: Content): Tree
    requires slot.change.path in tree
  {
    tree[slot.backup := tree[slot.change.path]][slot.change.path := onDisk]
  }

  /** The write loop from change i on: back up, replace, read back. */
  function WriteFrom(tree: Tree, slots: seq<Slot>, disk: Disk, i: nat): (w: Written)
    requires i <= |slots| && Present(tree, slots)
    ensures i <= w.failed <= |slots|
    decreases |slots| - i
  {
    if i == |slots| then Written(tree, i, WriteFailed)
    else
      match IoAt(disk, slots, i)
      case RaisesBefore(None) => Written(tree, i, WriteFailed)
      case RaisesBefore(Some(partial)) => Written(tree[slots[i].backup := partial], i, WriteFailed)
      case RaisesAfter(onDisk) => Written(BackUpAndReplace(tree, slots[i], onDisk), i, WriteFailed)
      case Lands(onDisk) =>
        var written := BackUpAndReplace(tree, slots[i], onDisk);
        if Sha256(onDisk) != slots[i].change.postimage then Written(written, i, PostimageHashMismatch)
        else WriteFrom(written, slots, disk, i + 1)
  }

  /** Restores the first n changes from their backups, last one first. */
  function Undo(tree: Tree, slots: seq<Slot>, n: nat, stop: Option<UndoStop>): Tree
    requires n <= |slots|
    decreases n
  {
    if n == 0 then tree
    else
      var slot := slots[n - 1];
      if slot.backup !in tree then Undo(tree, slots, n - 1, stop)
      else
        match stop
        case None => Undo(tree[slot.change.path := tree[slot.backup]], slots, n - 1, None)
        case Some(UndoStop(0, torn)) => tree[slot.change.path := torn]
        case Some(UndoStop(k, torn)) =>
          Undo(tree[slot.change.path := tree[slot.backup]], slots, n - 1, Some(UndoStop(k - 1, torn)))
  }

  /** The checks before any write: the proposal that may be applied. */
  function ReadyToApply(s: State, id: Id, token: string): (r: Result<Proposal, Error>)
    ensures r.Ok? ==>
              && id in s.implementations && s.implementations[id].status == ApprovedForApply
              && s.implementations[id].tokenSha256 == Sha256(token)
              && s.implementations[id].proposalId in s.proposals && r.value == s.proposals[s.implementations[id].proposalId]
              && r.value.status == Accepted && r.value.sha256 == s.implementations[id].proposalSha256
    ensures r.Ok? ==> forall i :: 0 <= i < |r.value.changes| ==>
              Holds(s.tree, r.value.changes[i].path, r.value.changes[i].preimage)
  {
    if id !in s.implementations then Err(ImplementationNotFound)
    else
      var impl := s.implementations[id];
      if impl.status != ApprovedForApply then Err(ImplementationNotReadyForApply)
      else if Sha256(token) != impl.tokenSha256 then Err(ApplyTokenMismatch)
      else if impl.proposalId !in s.proposals || s.proposals[impl.proposalId].status != Accepted
      then Err(AcceptedProposalRequired)
      else
        var p := s.proposals[impl.proposalId];
        if p.sha256 != impl.proposalSha256 then Err(ImplementationProposalHashMismatch)
        else
          CheckTargetsMeaning(s.tree, p.changes, false, ImplementationPreimageStale);
          var stale := CheckTargets(s.tree, p.changes, false, ImplementationPreimageStale);
          if stale.Some? then Err(stale.value) else Ok(p)
  }

  function ApplyImplementation(s: State, id: Id, token: string, disk: Disk): Call {
    var ready := ReadyToApply(s, id, token);
    if ready.Err? then Refuse(s, ready.error)
    else
      var p := ready.value;
      var slots := Slots(id, p.changes);
      var w := WriteFrom(s.tree, slots, disk, 0);
      if w.failed < |p.changes|
      then Refuse(s.(tree := Undo(w.tree, slots, w.failed, disk.undo)), w.error)
      else
        var impl := s.implementations[id];
        Done(s.(tree := w.tree,
                implementations := s.implementations[id := impl.(status := AppliedAwaitingReview, token := None)],
                proposals := s.proposals[impl.proposalId := p.(applied := true)],
                evidence := s.evidence + [ImplementationApplied(id)]))
  }

  datatype ImplementationDecision = AcceptIt | RollBack

  /** What the disk does with the restore write of one target. */
  datatype RestoreIo =
    | Restores(onDisk: Content)   // the write completes and reads back as onDisk
    | RaisesUnwritten             // raises with the target as it was
    | RaisesTorn(onDisk: Content) // raises with onDisk in the target, all or part of the backup

  /** The outcomes of the first restore writes; those after them land as written. */
  type Restorer = seq<RestoreIo>

  function RestoreIoAt(disk: Restorer, i: nat, backup: Content): RestoreIo {
    if i < |disk| then disk[i] else Restores(backup)
  }

  /** One turn of the restore loop: the tree after it, and the error it raised, if any. */
  function RestoreOne(tree: Tree, slot: Slot, disk: Restorer, i: nat): (Tree, Option<Error>) {
    var c := slot.change;
    var safe := SafeTarget(tree, c.path);
    if safe.Err? then (tree, Some(Target(safe.error)))
    else if slot.backup !in tree then (tree, Some(RollbackBackupMissing))
    else
      match RestoreIoAt(disk, i, tree[slot.backup])
      case RaisesUnwritten => (tree, Some(WriteFailed))
      case RaisesTorn(onDisk) => (tree[c.path := onDisk], Some(WriteFailed))
      case Restores(onDisk) =>
        (tree[c.path := onDisk], if Sha256(onDisk) != c.preimage then Some(RollbackPreimageHashMismatch) else None)
  }

  /** The restore loop from change i on, with the error that stops it. Nothing undoes what it did. */
  function RestoreFrom(tree: Tree, slots: seq<Slot>, disk: Restorer, i: nat): (Tree, Option<Error>)
    requires i <= |slots|
    decreases |slots| - i
  {
    if i == |slots| then (tree, None)
    else
      var (turned, error) := RestoreOne(tree, slots[i], disk, i);
      if error.Some? then (turned, error) else RestoreFrom(turned, slots, disk, i + 1)
  }

  function ReviewImplementation(s: State, id: Id, decision: ImplementationDecision, disk: Restorer): Call {
    if id !in s.implementations then Refuse(s, ImplementationNotFound)
    else
      var impl := s.implementations[id];
      if impl.status != AppliedAwaitingReview then Refuse(s, ImplementationNotReadyForReview)
      else if impl.proposalId !in s.proposals then Refuse(s, ProposalNotFound)
      else
        var p := s.proposals[impl.proposalId];
        match decision
        case AcceptIt =>
          Done(s.(implementations := s.implementations[id := impl.(status := AcceptedImplementation)],
                  evidence := s.evidence + [ImplementationReviewed(id, decision)]))
        case RollBack =>
          var changed := CheckTargets(s.tree, p.changes, true, RollbackPostimageChanged);
          if changed.Some? then Refuse(s, changed.value)
          else
            var (tree, error) := RestoreFrom(s.tree, Slots(id, p.changes), disk, 0);
            if error.Some? then Refuse(s.(tree := tree), error.value)
            else Done(s.(tree := tree,
                         implementations := s.implementations[id := impl.(status := RolledBack)],
                         proposals := s.proposals[impl.proposalId := p.(applied := false)],
                         evidence := s.evidence + [ImplementationReviewed(id, decision)]))
  }

  /* ---------- Whole runs ---------- */

  /** A call to the pipeline, or an edit of a source file by somebody else. */
  datatype Op =
    | OpProbe(listed: map<Id, Option<string>>)
    | OpApproveModel(modelId: Id, approver: string)
    | OpPlan(id: Id, modelId: Id, body: Option<string>)
    | OpReviewPlan(id: Id, decision: Decision)
    | OpProposal(id: Id, planId: Id, modelId: Id, paths: seq<Path>, edits: seq<Edit>)
    | OpReviewProposal(id: Id, decision: Decision)
    | OpPrepare(id: Id, proposalId: Id, approver: string, token: string)
    | OpApply(id: Id, token: string, disk: Disk)
    | OpReviewImplementation(id: Id, verdict: ImplementationDecision, restorer: Restorer)
    | OpEditSource(path: Path, content: Option<Content>)

  /** A uuid4 value is never one already in use, and requests are well-formed. */
  predicate Possible(s: State, op: Op) {
    match op
    case OpPlan(id, _, _) => id !in s.plans
    case OpProposal(id, _, _, paths, _) => id !in s.proposals && 1 <= |paths| <= MAX_TARGET_FILES
    case OpPrepare(id, _, _, _) => id !in s.implementations
    case OpEditSource(path, _) => !UnderBackups(path)
    case _ => true
  }

  function Step(s: State, op: Op): Call
    requires Possible(s, op)
  {
    match op
    case OpProbe(listed) => ProbeModels(s, listed)
    case OpApproveModel(id, approver) => ApproveModel(s, id, approver)
    case OpPlan(id, modelId, body) => GeneratePlan(s, id, modelId, body)
    case OpReviewPlan(id, decision) => ReviewPlan(s, id, decision)
    case OpProposal(id, planId, modelId, paths, edits) => GenerateProposal(s, id, planId, modelId, paths, edits)
    case OpReviewProposal(id, decision) => ReviewProposal(s, id, decision)
    case OpPrepare(id, proposalId, approver, token) => PrepareImplementation(s, id, proposalId, approver, token)
    case OpApply(id, token, disk) => ApplyImplementation(s, id, token, disk)
    case OpReviewImplementation(id, verdict, restorer) => ReviewImplementation(s, id, verdict, restorer)
    case OpEditSource(path, content) =>
      Done(s.(tree := if content.Some? then s.tree[path := content.value] else s.tree - {path}))
  }

  /** The registry as first written, over any tree. */
  predicate Initial(s: State) {
    && (forall id :: id in s.models ==> s.models[id] == Model(Registered, None, None))
    && s.plans == map[] && s.proposals == map[] && s.implementations == map[] && s.evidence == []
  }

  /** The states after each call of a run; impossible calls do not occur. */
  ghost predicate Run(s: State, ops: seq<Op>, s': State)
    decreases |ops|
  {
    if ops == [] then s' == s
    else Possible(s, ops[0]) && Run(Step(s, ops[0]).after, ops[1..], s')
  }

  ghost predicate Reachable(s: State) {
    exists s0, ops :: Initial(s0) && Run(s0, ops, s)
  }
}
