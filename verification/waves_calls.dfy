/**
 Exactly when each call of the pipeline goes through and what it records, and whose token lets an implementation be applied.
 */
module WavesCalls {
  import opened Common
  import opened SourceTree
  import opened Waves
  import opened WavesApply
  import opened WavesRuns
  import opened WavesClaims

  /* ---------- Models ---------- */

  /** A probe never touches an approval: a model that is not listed is registered only; a listed one is approved for planning
      exactly if the digest listed is not empty and the approved one, and available otherwise. */
  lemma ProbedIs(s: State, listed: map<Id, Option<string>>)
    ensures var call := ProbeModels(s, listed);
            && call.Succeeds() && call.after == s.(models := call.after.models) && call.after.models.Keys == s.models.Keys
            && forall id :: id in s.models ==>
                 var m, m' := s.models[id], call.after.models[id];
                 && m'.approvedDigest == m.approvedDigest
                 && m'.digest == (if id in listed then listed[id] else None)
                 && (m'.state == Registered <==> id !in listed)
                 && (m'.state == PlanningApproved <==>
                       id in listed && listed[id].Some? && |listed[id].value| > 0 && m.approvedDigest == listed[id])
  {
  }

  /** A model is approved exactly if it is available with a digest, which is then the approved one. */
  lemma ModelApprovedIff(s: State, id: Id, approver: string)
    ensures var call := ApproveModel(s, id, approver);
            && (call.Succeeds() <==>
                  id in s.models && s.models[id].state == Available && s.models[id].digest.Some? && |s.models[id].digest.value| > 0)
            && (call.error == Some(UnknownModelId) <==> id !in s.models)
            && (!call.Succeeds() ==> call.after == s && call.error.value in {UnknownModelId, ModelNotAvailableForApproval})
            && (call.Succeeds() ==>
                  && var m := s.models[id];
                     call.after == s.(models := s.models[id := Model(PlanningApproved, m.digest, m.digest)],
                                      evidence := s.evidence + [ModelApproved(id, m.digest.value, approver)]))
  {
  }

  /** The model may generate: its digest is the one a person approved. */
  predicate MayGenerate(s: State, modelId: Id) { modelId in s.models && s.models[modelId].state == PlanningApproved }

  lemma GeneratesIff(s: State, modelId: Id)
    requires Reachable(s)
    ensures ApprovedModel(s, modelId).Ok? <==> MayGenerate(s, modelId)
    ensures ApprovedModel(s, modelId).Ok? ==> s.models[modelId].digest == Some(ApprovedModel(s, modelId).value)
    ensures ApprovedModel(s, modelId) == Err(UnknownModelId) <==> modelId !in s.models
    ensures ApprovedModel(s, modelId).Err? ==> ApprovedModel(s, modelId).error in {UnknownModelId, ModelNotPlanningApproved}
  {
    hide Reachable, HumanApproved;
    if modelId in s.models { PlanningApprovalIsExact(s, modelId); }
  }

  /* ---------- Plans and proposals ---------- */

  /** A plan is recorded exactly for a model that may generate and a valid body; it awaits review. */
  lemma PlanRecordedIff(s: State, id: Id, modelId: Id, body: Option<string>)
    requires Reachable(s) && id !in s.plans
    ensures var call := GeneratePlan(s, id, modelId, body);
            && (call.Succeeds() <==> MayGenerate(s, modelId) && body.Some?)
            && (call.error == Some(ModelOutputInvalid) <==> MayGenerate(s, modelId) && body.None?)
            && (!call.Succeeds() ==>
                  call.after == s && call.error.value in {UnknownModelId, ModelNotPlanningApproved, ModelOutputInvalid})
            && (call.Succeeds() ==>
                  s.models[modelId].digest.Some?
                  && call.after == s.(plans := s.plans[id := Plan(HumanReview, body.value, modelId, s.models[modelId].digest.value)]))
  {
    GeneratesIff(s, modelId);
    hide Reachable, ApprovedModel;
  }

  function Verdict(decision: Decision): ReviewStatus {
    if decision == Accept then Accepted else if decision == Return then Returned else Rejected
  }

  /** Plans and proposals are reviewed exactly while they await it, and only their status changes. */
  lemma PlanReviewedIff(s: State, id: Id, decision: Decision)
    ensures var call := ReviewPlan(s, id, decision);
            && (call.Succeeds() <==> id in s.plans && s.plans[id].status == HumanReview)
            && (call.error == Some(EntityNotFound) <==> id !in s.plans)
            && (!call.Succeeds() ==> call.after == s && call.error.value in {EntityNotFound, EntityNotReadyForReview})
            && (call.Succeeds() ==> call.after == s.(plans := s.plans[id := s.plans[id].(status := Verdict(decision))]))
  {
  }

  lemma ProposalReviewedIff(s: State, id: Id, decision: Decision)
    ensures var call := ReviewProposal(s, id, decision);
            && (call.Succeeds() <==> id in s.proposals && s.proposals[id].status == HumanReview)
            && (call.error == Some(EntityNotFound) <==> id !in s.proposals)
            && (!call.Succeeds() ==> call.after == s && call.error.value in {EntityNotFound, EntityNotReadyForReview})
            && (call.Succeeds() ==> call.after == s.(proposals := s.proposals[id := s.proposals[id].(status := Verdict(decision))]))
  {
  }

  /** The requested files: every one a target, and none twice. */
  ghost predicate Requested(tree: Tree, paths: seq<Path>) {
    && (forall i :: 0 <= i < |paths| ==> SafeTarget(tree, paths[i]).Ok?)
    && (forall i, j :: 0 <= i < j < |paths| ==> paths[i] != paths[j])
  }

  lemma RequestedOneMore(tree: Tree, paths: seq<Path>, p: Path)
    ensures Requested(tree, paths + [p]) <==> Requested(tree, paths) && SafeTarget(tree, p).Ok? && p !in paths
  {
    hide SafeTarget;
    var all := paths + [p];
    assert forall i :: 0 <= i < |paths| ==> all[i] == paths[i];
    assert all[|paths|] == p;
  }

  lemma {:induction false} TargetsReadIff(tree: Tree, paths: seq<Path>)
    ensures var r := ReadTargets(tree, paths);
            && (r.Ok? <==> Requested(tree, paths))
            && (r.Ok? ==>
                  && (forall p :: p in r.value <==> p in paths)
                  && forall p :: p in r.value ==> p in tree && r.value[p] == Sha256(tree[p]))
            && (r.Err? ==> r.error.Target? || r.error == DuplicateTargetFile)
  {
    hide SafeTarget, Requested;
    if paths == [] {
      NothingRequested(tree);
    } else {
      var init, p := paths[..|paths| - 1], paths[|paths| - 1];
      TargetsReadIff(tree, init);
      RequestedOneMore(tree, init, p);
      assert paths == init + [p];
    }
  }

  lemma NothingRequested(tree: Tree)
    ensures Requested(tree, [])
  {
  }

  /** The edits a model may propose for the requested files. */
  ghost predicate Acceptable(paths: seq<Path>, edits: seq<Edit>) {
    && edits != [] && Bytes(edits) <= 700_000
    && (forall i :: 0 <= i < |edits| ==> edits[i].path in paths)
    && (forall i, j :: 0 <= i < j < |edits| ==> edits[i].path != edits[j].path)
  }

  /** The record of a proposal: each change pins the file as it is and as it will be, and all hashes together are pinned. */
  ghost predicate Proposes(tree: Tree, p: Proposal, planId: Id, modelId: Id, digest: Option<string>, edits: seq<Edit>) {
    && p.status == HumanReview && p.planId == planId && p.modelId == modelId && !p.applied && digest == Some(p.modelDigest)
    && |p.changes| == |edits|
    && (forall i :: 0 <= i < |edits| ==>
          edits[i].path in tree
          && p.changes[i] == Change(edits[i].path, Sha256(tree[edits[i].path]), edits[i].newContent, Sha256(edits[i].newContent)))
    && p.sha256.preimage.planId == planId && p.sha256.preimage.modelDigest == p.modelDigest
    && |p.sha256.preimage.changes| == |edits|
    && forall i :: 0 <= i < |edits| ==>
         p.sha256.preimage.changes[i] == (p.changes[i].path, p.changes[i].preimage, p.changes[i].postimage)
  }

  /** A proposal is recorded exactly under an accepted plan, for files that are targets, by a model that may generate, with
      acceptable edits. */
  lemma ProposalRecordedIff(s: State, id: Id, planId: Id, modelId: Id, paths: seq<Path>, edits: seq<Edit>)
    requires Reachable(s) && id !in s.proposals && 1 <= |paths| <= MAX_TARGET_FILES
    ensures var call := GenerateProposal(s, id, planId, modelId, paths, edits);
            && (call.Succeeds() <==>
                  && planId in s.plans && s.plans[planId].status == Accepted
                  && Requested(s.tree, paths) && MayGenerate(s, modelId) && Acceptable(paths, edits))
            && (!call.Succeeds() ==> call.after == s)
            && (call.error == Some(PlanNotFound) <==> planId !in s.plans)
            && (call.error == Some(AcceptedPlanRequired) <==> planId in s.plans && s.plans[planId].status != Accepted)
  {
    GeneratesIff(s, modelId);
    TargetsReadIff(s.tree, paths);
    var targets := ReadTargets(s.tree, paths);
    if targets.Ok? { EditsAcceptedIff(targets.value, paths, edits); }
    ProposalErrors(s, id, planId, modelId, paths, edits);
    hide Reachable, ApprovedModel, ReadTargets, ValidateProposal, SafeTarget, Acceptable, Requested, HashedChanges;
  }

  lemma ProposalRecords(s: State, id: Id, planId: Id, modelId: Id, paths: seq<Path>, edits: seq<Edit>)
    requires Reachable(s) && id !in s.proposals && 1 <= |paths| <= MAX_TARGET_FILES
    requires GenerateProposal(s, id, planId, modelId, paths, edits).Succeeds()
    ensures modelId in s.models
    ensures var after := GenerateProposal(s, id, planId, modelId, paths, edits).after;
            && id in after.proposals && after == s.(proposals := s.proposals[id := after.proposals[id]])
            && Proposes(s.tree, after.proposals[id], planId, modelId, s.models[modelId].digest, edits)
  {
    GeneratesIff(s, modelId);
    TargetsReadIff(s.tree, paths);
    var targets := ReadTargets(s.tree, paths);
    if targets.Ok? { EditsAcceptedIff(targets.value, paths, edits); }
    hide Reachable, ApprovedModel, ReadTargets, ValidateProposal, SafeTarget, Acceptable, Requested, Proposes, HashedChanges;
    var changes := ValidateProposal(targets.value, edits).value;
    ChangesPropose(s.tree, planId, modelId, ApprovedModel(s, modelId).value, changes, edits);
  }

  lemma ChangesPropose(tree: Tree, planId: Id, modelId: Id, digest: string, changes: seq<Change>, edits: seq<Edit>)
    requires |changes| == |edits| && forall i :: 0 <= i < |edits| ==>
               edits[i].path in tree
               && changes[i] == Change(edits[i].path, Sha256(tree[edits[i].path]), edits[i].newContent, Sha256(edits[i].newContent))
    ensures var core := ProposalCore(planId, HashedChanges(changes), digest);
            Proposes(tree, Proposal(planId, HumanReview, changes, modelId, digest, Sha256(core), false), planId, modelId,
                     Some(digest), edits)
  {
  }

  lemma ProposalErrors(s: State, id: Id, planId: Id, modelId: Id, paths: seq<Path>, edits: seq<Edit>)
    ensures ReadTargets(s.tree, paths).Err? ==> ReadTargets(s.tree, paths).error != PlanNotFound
                                                && ReadTargets(s.tree, paths).error != AcceptedPlanRequired
    ensures ReadTargets(s.tree, paths).Ok? && ValidateProposal(ReadTargets(s.tree, paths).value, edits).Err? ==>
              ValidateProposal(ReadTargets(s.tree, paths).value, edits).error
              in {ProposalChangesRequired, ProposalPathNotAuthorized, ProposalDuplicatePath, ProposalTooLarge}
  {
    TargetsReadIff(s.tree, paths);
    hide ReadTargets;
    if ReadTargets(s.tree, paths).Ok? { EditErrors(ReadTargets(s.tree, paths).value, edits); }
  }

  lemma {:induction false} EditErrors(targets: map<Path, Digest<Content>>, edits: seq<Edit>)
    ensures NormalizeEdits(targets, edits).Err? ==>
              NormalizeEdits(targets, edits).error in {ProposalPathNotAuthorized, ProposalDuplicatePath, ProposalTooLarge}
  {
    if edits != [] { EditErrors(targets, edits[..|edits| - 1]); }
  }

  lemma EditsAcceptedIff(targets: map<Path, Digest<Content>>, paths: seq<Path>, edits: seq<Edit>)
    requires forall p :: p in targets <==> p in paths
    ensures var r := ValidateProposal(targets, edits);
            && (r.Ok? <==> Acceptable(paths, edits))
            && (r.Ok? ==> |r.value| == |edits| && forall i :: 0 <= i < |edits| ==>
                  edits[i].path in targets
                  && r.value[i] == Change(edits[i].path, targets[edits[i].path], edits[i].newContent, Sha256(edits[i].newContent)))
  {
    hide NormalizeEdits, Bytes;
    NormalizeEditsMeaning(targets, edits);
  }

  /* ---------- Implementations ---------- */

  ghost predicate PreimagesHold(tree: Tree, changes: seq<Change>) {
    forall j :: 0 <= j < |changes| ==> Holds(tree, changes[j].path, changes[j].preimage)
  }

  /** An implementation is prepared exactly for an accepted proposal that is not applied and whose files are as they were; it
      pins the hash of the proposal and of the token. */
  lemma ImplementationPreparedIff(s: State, id: Id, proposalId: Id, approver: string, token: string)
    requires id !in s.implementations
    ensures var call := PrepareImplementation(s, id, proposalId, approver, token);
            && (call.Succeeds() <==>
                  && proposalId in s.proposals && s.proposals[proposalId].status == Accepted && !s.proposals[proposalId].applied
                  && PreimagesHold(s.tree, s.proposals[proposalId].changes))
            && (!call.Succeeds() ==> call.after == s)
            && (call.error == Some(ProposalNotFound) <==> proposalId !in s.proposals)
            && (call.error == Some(AcceptedProposalRequired) <==>
                  proposalId in s.proposals && s.proposals[proposalId].status != Accepted)
            && (call.error == Some(ProposalAlreadyApplied) <==>
                  proposalId in s.proposals && s.proposals[proposalId].status == Accepted && s.proposals[proposalId].applied)
            && (call.Succeeds() ==>
                  call.after == s.(implementations := s.implementations[id :=
                    Implementation(proposalId, ApprovedForApply, approver, Sha256(token), Some(token), s.proposals[proposalId].sha256)]))
  {
    if proposalId in s.proposals {
      var changes := s.proposals[proposalId].changes;
      CheckTargetsMeaning(s.tree, changes, false, ProposalPreimageStale);
      CheckTargetsError(s.tree, changes, false, ProposalPreimageStale);
    }
    hide CheckTargets, Holds;
  }

  /** The apply was let through: it succeeded, or was stopped by a write. */
  predicate LetThrough(call: Call) {
    call.Succeeds() || call.error.value == WriteFailed || call.error.value == PostimageHashMismatch
  }

  /** In every reachable state an apply gets past its checks exactly if the implementation is approved and not yet applied,
      the token is the one it was prepared with, and every file still is as the proposal found it; otherwise nothing changes. */
  lemma ApplyIsLetThroughIff(s: State, id: Id, token: string, disk: Disk)
    requires Reachable(s)
    ensures var call := ApplyImplementation(s, id, token, disk);
            && (LetThrough(call) <==>
                  && id in s.implementations && s.implementations[id].status == ApprovedForApply
                  && s.implementations[id].tokenSha256 == Sha256(token)
                  && s.implementations[id].proposalId in s.proposals
                  && PreimagesHold(s.tree, s.proposals[s.implementations[id].proposalId].changes))
            && (!LetThrough(call) ==> call.after == s)
            && (call.error == Some(ImplementationNotFound) <==> id !in s.implementations)
            && (call.error == Some(ImplementationNotReadyForApply) <==>
                  id in s.implementations && s.implementations[id].status != ApprovedForApply)
            && (call.error == Some(ApplyTokenMismatch) <==>
                  && id in s.implementations && s.implementations[id].status == ApprovedForApply
                  && s.implementations[id].tokenSha256 != Sha256(token))
  {
    ReachableInv(s);
    hide Inv, PreimagesHold, ReadyToApply, ApplyImplementation, Reachable;
    ReadyIff(s, id, token);
    ApplyIsReady(s, id, token, disk);
  }

  lemma ReadyIff(s: State, id: Id, token: string)
    requires Inv(s)
    ensures var ready := ReadyToApply(s, id, token);
            && (ready.Ok? <==>
                  && id in s.implementations && s.implementations[id].status == ApprovedForApply
                  && s.implementations[id].tokenSha256 == Sha256(token)
                  && s.implementations[id].proposalId in s.proposals
                  && PreimagesHold(s.tree, s.proposals[s.implementations[id].proposalId].changes))
            && (ready == Err(ImplementationNotFound) <==> id !in s.implementations)
            && (ready == Err(ImplementationNotReadyForApply) <==>
                  id in s.implementations && s.implementations[id].status != ApprovedForApply)
            && (ready == Err(ApplyTokenMismatch) <==>
                  && id in s.implementations && s.implementations[id].status == ApprovedForApply
                  && s.implementations[id].tokenSha256 != Sha256(token))
            && (ready.Err? ==> ready.error != WriteFailed && ready.error != PostimageHashMismatch)
  {
    hide Inv, Holds, CheckTargets;
    if id in s.implementations {
      ImplementationInOrder(s, id);
      var changes := s.proposals[s.implementations[id].proposalId].changes;
      CheckTargetsMeaning(s.tree, changes, false, ImplementationPreimageStale);
      CheckTargetsError(s.tree, changes, false, ImplementationPreimageStale);
      hide ProposalOk, BackedUp;
    }
  }

  lemma ApplyIsReady(s: State, id: Id, token: string, disk: Disk)
    requires Inv(s)
    ensures var call, ready := ApplyImplementation(s, id, token, disk), ReadyToApply(s, id, token);
            && (LetThrough(call) <==> ready.Ok? || ready.error == WriteFailed || ready.error == PostimageHashMismatch)
            && (ready.Err? ==> call == Call(s, Some(ready.error)))
            && (ready.Ok? && call.error.Some? ==> call.error.value in {WriteFailed, PostimageHashMismatch})
  {
    hide Inv, ReadyToApply, WriteFrom, Undo;
    if ReadyToApply(s, id, token).Ok? {
      ReadyIsPresent(s, id, token);
      WriteErrors(s.tree, Slots(id, ReadyToApply(s, id, token).value.changes), disk, 0);
    }
  }

  lemma {:induction false} WriteErrors(tree: Tree, slots: seq<Slot>, disk: Disk, i: nat)
    requires i <= |slots| && Present(tree, slots)
    ensures WriteFrom(tree, slots, disk, i).error in {WriteFailed, PostimageHashMismatch}
    decreases |slots| - i
  {
    if i < |slots| && IoAt(disk, slots, i).Lands? {
      WriteErrors(BackUpAndReplace(tree, slots[i], IoAt(disk, slots, i).onDisk), slots, disk, i + 1);
    }
  }

  /** Not yet applied, under this token. */
  predicate Guarded(s: State, id: Id, token: string) {
    id in s.implementations && s.implementations[id].status == ApprovedForApply && s.implementations[id].tokenSha256 == Sha256(token)
  }

  predicate AppliesWith(op: Op, id: Id, token: string) { op.OpApply? && op.id == id && op.token == token }

  lemma StepKeepsGuard(s: State, op: Op, id: Id, token: string)
    requires Inv(s) && Possible(s, op) && Guarded(s, id, token) && !AppliesWith(op, id, token)
    ensures Guarded(Step(s, op).after, id, token)
  {
    hide *;
    GuardedIs(s, id, token);
    GuardedIs(Step(s, op).after, id, token);
    AppliesWithIs(op, id, token);
    StepLeaves(s, op, id);
  }

  lemma AppliesWithIs(op: Op, id: Id, token: string)
    ensures AppliesWith(op, id, token) <==> op.OpApply? && op.id == id && op.token == token
  {
  }

  /** Only an apply with its own token changes the record of an implementation that is not yet applied. */
  lemma StepLeaves(s: State, op: Op, id: Id)
    requires Possible(s, op) && id in s.implementations && s.implementations[id].status == ApprovedForApply
    requires op.OpApply? && op.id == id ==> s.implementations[id].tokenSha256 != Sha256(op.token)
    ensures var s' := Step(s, op).after; id in s'.implementations && s'.implementations[id] == s.implementations[id]
  {
    hide ProbeModels, ApproveModel, GeneratePlan, ReviewPlan, GenerateProposal, ReviewProposal,
         ApplyImplementation, ReviewImplementation, PrepareImplementation, UnderBackups;
    match op
    case OpPrepare(other, proposalId, approver, t) => PrepareLeaves(s, other, proposalId, approver, t, id);
    case OpApply(other, t, disk) => ApplyLeavesStatus(s, other, t, disk, id);
    case OpReviewImplementation(other, verdict, disk) => ReviewLeavesStatus(s, other, verdict, disk, id);
    case OpEditSource(_, _) =>
    case _ => OthersLeave(s, op);
  }

  lemma PrepareLeaves(s: State, other: Id, proposalId: Id, approver: string, token: string, id: Id)
    requires other !in s.implementations && id in s.implementations
    ensures var s' := PrepareImplementation(s, other, proposalId, approver, token).after;
            id in s'.implementations && s'.implementations[id] == s.implementations[id]
  {
    hide CheckTargets;
  }

  lemma ApplyLeavesStatus(s: State, other: Id, token: string, disk: Disk, id: Id)
    requires id in s.implementations && (other == id ==> s.implementations[id].tokenSha256 != Sha256(token))
    ensures var s' := ApplyImplementation(s, other, token, disk).after;
            id in s'.implementations && s'.implementations[id] == s.implementations[id]
  {
    hide CheckTargets, WriteFrom, Undo;
  }

  lemma ReviewLeavesStatus(s: State, other: Id, verdict: ImplementationDecision, disk: Restorer, id: Id)
    requires id in s.implementations && s.implementations[id].status == ApprovedForApply
    ensures var s' := ReviewImplementation(s, other, verdict, disk).after;
            id in s'.implementations && s'.implementations[id] == s.implementations[id]
  {
    hide CheckTargets, RestoreFrom;
  }

  lemma OthersLeave(s: State, op: Op)
    requires Possible(s, op)
    requires !op.OpPrepare? && !op.OpApply? && !op.OpReviewImplementation?
    ensures Step(s, op).after.implementations == s.implementations
  {
    hide ReadTargets, ValidateProposal, HashedChanges, ApprovedModel;
  }

  lemma {:induction false} GuardHolds(s: State, ops: seq<Op>, s': State, id: Id, token: string)
    requires Inv(s) && Run(s, ops, s') && Guarded(s, id, token)
    ensures Guarded(s', id, token) || exists k :: 0 <= k < |ops| && AppliesWith(ops[k], id, token)
    decreases |ops|
  {
    hide Inv, Step, Guarded, Possible;
    if ops != [] && !AppliesWith(ops[0], id, token) {
      StepKeeps(s, ops[0]);
      StepKeepsGuard(s, ops[0], id, token);
      GuardHolds(Step(s, ops[0]).after, ops[1..], s', id, token);
      if k :| 0 <= k < |ops[1..]| && AppliesWith(ops[1..][k], id, token) { assert AppliesWith(ops[k + 1], id, token); }
    }
  }

  /** Whatever happens after an implementation is prepared with a token: a call with another token is refused and changes
      nothing, one with that token gets past the checks exactly while the implementation is not yet applied and its files are
      as the proposal found them; and once it has left that status, it was by a call with that token. */
  lemma OnlyItsTokenApplies(
      s: State, id: Id, proposalId: Id, approver: string, token: string, ops: seq<Op>, s': State, other: string, disk: Disk)
    requires Reachable(s) && id !in s.implementations
    requires PrepareImplementation(s, id, proposalId, approver, token).Succeeds()
    requires Run(PrepareImplementation(s, id, proposalId, approver, token).after, ops, s')
    ensures id in s'.implementations && s'.implementations[id].proposalId in s'.proposals
    ensures var call := ApplyImplementation(s', id, other, disk);
            && (other != token ==>
                  && call.after == s'
                  && call.error == Some(if s'.implementations[id].status == ApprovedForApply then ApplyTokenMismatch
                                        else ImplementationNotReadyForApply))
            && (LetThrough(call) <==>
                  && other == token && s'.implementations[id].status == ApprovedForApply
                  && PreimagesHold(s'.tree, s'.proposals[s'.implementations[id].proposalId].changes))
    ensures s'.implementations[id].status != ApprovedForApply ==> exists k :: 0 <= k < |ops| && AppliesWith(ops[k], id, token)
  {
    hide *;
    var s1 := PrepareImplementation(s, id, proposalId, approver, token).after;
    ReachableInv(s);
    PrepareKeeps(s, id, proposalId, approver, token);
    PreparedIsGuarded(s, id, proposalId, approver, token);
    GuardHolds(s1, ops, s', id, token);
    PreparedRunIsReachable(s, id, proposalId, approver, token, ops, s');
    TokenStays(s1, ops, s', id, token);
    ApplyIsLetThroughIff(s', id, other, disk);
    GuardedIs(s', id, token);
  }

  lemma GuardedIs(s: State, id: Id, token: string)
    ensures Guarded(s, id, token) <==>
            && id in s.implementations && s.implementations[id].status == ApprovedForApply
            && s.implementations[id].tokenSha256 == Sha256(token)
  {
  }

  lemma PreparedIsGuarded(s: State, id: Id, proposalId: Id, approver: string, token: string)
    requires id !in s.implementations && PrepareImplementation(s, id, proposalId, approver, token).Succeeds()
    ensures Guarded(PrepareImplementation(s, id, proposalId, approver, token).after, id, token)
  {
    hide PrepareImplementation, PreimagesHold;
    ImplementationPreparedIff(s, id, proposalId, approver, token);
  }

  lemma TokenStays(s: State, ops: seq<Op>, s': State, id: Id, token: string)
    requires Inv(s) && Run(s, ops, s') && Guarded(s, id, token)
    ensures id in s'.implementations && s'.implementations[id].tokenSha256 == Sha256(token)
    ensures s'.implementations[id].proposalId in s'.proposals
  {
    hide Inv, Run;
    RunGrows(s, ops, s');
    assert ImplementationStays(s.implementations[id], s'.implementations[id]);
    RunKeeps(s, ops, s');
    ImplementationInOrder(s', id);
  }

  lemma PreparedRunIsReachable(
      s: State, id: Id, proposalId: Id, approver: string, token: string, ops: seq<Op>, s': State)
    requires Reachable(s) && id !in s.implementations
    requires Run(PrepareImplementation(s, id, proposalId, approver, token).after, ops, s')
    ensures Reachable(s')
  {
    hide PrepareImplementation, Initial, Run;
    var s0, before :| Initial(s0) && Run(s0, before, s);
    var op := OpPrepare(id, proposalId, approver, token);
    assert Step(s, op) == PrepareImplementation(s, id, proposalId, approver, token);
    hide Step;
    RunPrepend(s, op, ops, s');
    RunAppend(s0, before, s, [op] + ops, s');
  }

  lemma RunPrepend(s: State, op: Op, ops: seq<Op>, s': State)
    requires Possible(s, op) && Run(Step(s, op).after, ops, s')
    ensures Run(s, [op] + ops, s')
  {
    hide Step, Possible;
    assert ([op] + ops)[1..] == ops;
  }

  lemma {:induction false} RunAppend(a: State, ops: seq<Op>, b: State, more: seq<Op>, c: State)
    requires Run(a, ops, b) && Run(b, more, c)
    ensures Run(a, ops + more, c)
    decreases |ops|
  {
    hide Step, Possible;
    if ops == [] {
      assert ops + more == more;
    } else {
      RunAppend(Step(a, ops[0]).after, ops[1..], b, more, c);
      assert (ops + more)[1..] == ops[1..] + more;
    }
  }

  /* ---------- Reviews of implementations ---------- */

  /** An implementation is accepted exactly while it awaits a review, and only its status changes. */
  lemma AcceptedIff(s: State, id: Id, disk: Restorer)
    requires Reachable(s)
    ensures var call := ReviewImplementation(s, id, AcceptIt, disk);
            && (call.Succeeds() <==> id in s.implementations && s.implementations[id].status == AppliedAwaitingReview)
            && (!call.Succeeds() ==> call.after == s)
            && (call.Succeeds() ==>
                  call.after == s.(implementations := s.implementations[id := s.implementations[id].(status := AcceptedImplementation)],
                                   evidence := s.evidence + [ImplementationReviewed(id, AcceptIt)]))
  {
    ReachableInv(s);
    hide Inv, CheckTargets, RestoreFrom;
    if id in s.implementations { ImplementationInOrder(s, id); }
    hide ImplementationOk, ProposalOk;
  }

  /** Whatever the verdict, an implementation that does not exist or does not await a review is refused as such, and no other. */
  lemma ReviewRefusal(s: State, id: Id, verdict: ImplementationDecision, disk: Restorer)
    requires Reachable(s)
    ensures var error := ReviewImplementation(s, id, verdict, disk).error;
            && (error == Some(ImplementationNotFound) <==> id !in s.implementations)
            && (error == Some(ImplementationNotReadyForReview) <==>
                  id in s.implementations && s.implementations[id].status != AppliedAwaitingReview)
            && error != Some(ProposalNotFound)
  {
    ReachableInv(s);
    hide Inv, CheckTargets, RestoreFrom;
    if id in s.implementations {
      ImplementationInOrder(s, id);
      var changes := s.proposals[s.implementations[id].proposalId].changes;
      CheckTargetsError(s.tree, changes, true, RollbackPostimageChanged);
      RestoreErrors(s.tree, Slots(id, changes), disk, 0);
    }
    hide ImplementationOk, ProposalOk;
  }

  /** What a rollback that succeeds records. */
  lemma RollbackRecords(s: State, id: Id, disk: Restorer)
    requires ReviewImplementation(s, id, RollBack, disk).Succeeds()
    ensures id in s.implementations && s.implementations[id].status == AppliedAwaitingReview
    ensures var pid := s.implementations[id].proposalId; var after := ReviewImplementation(s, id, RollBack, disk).after;
            && pid in s.proposals
            && after == s.(tree := after.tree,
                           implementations := s.implementations[id := s.implementations[id].(status := RolledBack)],
                           proposals := s.proposals[pid := s.proposals[pid].(applied := false)],
                           evidence := s.evidence + [ImplementationReviewed(id, RollBack)])
  {
    hide CheckTargets, RestoreFrom;
  }

  lemma {:induction false} RestoreErrors(tree: Tree, slots: seq<Slot>, disk: Restorer, i: nat)
    requires i <= |slots|
    ensures var e := RestoreFrom(tree, slots, disk, i).1;
            e.Some? ==> e.value.Target? || e.value in {RollbackBackupMissing, WriteFailed, RollbackPreimageHashMismatch}
    decreases |slots| - i
  {
    hide SafeTarget;
    if i < |slots| { RestoreErrors(RestoreOne(tree, slots[i], disk, i).0, slots, disk, i + 1); }
  }

  /** What a success records of an apply. */
  lemma ApplyRecords(s: State, id: Id, token: string, disk: Disk)
    requires Reachable(s) && ApplyImplementation(s, id, token, disk).Succeeds()
    ensures id in s.implementations && s.implementations[id].proposalId in s.proposals
    ensures var pid := s.implementations[id].proposalId; var after := ApplyImplementation(s, id, token, disk).after;
            after == s.(tree := after.tree,
                        implementations := s.implementations[id :=
                          s.implementations[id].(status := AppliedAwaitingReview, token := None)],
                        proposals := s.proposals[pid := s.proposals[pid].(applied := true)],
                        evidence := s.evidence + [ImplementationApplied(id)])
  {
    ReachableInv(s);
    hide Inv, ReadyToApply, WriteFrom, Undo, Reachable;
    if ReadyToApply(s, id, token).Ok? { ReadyProposal(s, id, token); }
  }
}
