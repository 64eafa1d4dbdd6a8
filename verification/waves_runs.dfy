/**
 What every call of the pipeline keeps, and what therefore holds in every reachable state,
 whoever edits the sources meanwhile and however the disk misbehaves.
 */
module WavesRuns {
  import opened Common
  import opened SourceTree
  import opened Waves
  import opened WavesApply

  /** A person approved this digest of this model. */
  ghost predicate HumanApproved(s: State, modelId: Id, digest: string) {
    exists i :: 0 <= i < |s.evidence| && s.evidence[i].ModelApproved?
                && s.evidence[i].modelId == modelId && s.evidence[i].digest == digest
  }

  ghost predicate ModelsOk(s: State) {
    forall id :: id in s.models ==>
      var m := s.models[id];
      && (m.state == PlanningApproved <==> Truthy(m.digest) && m.digest == m.approvedDigest)
      && (m.approvedDigest.Some? ==> HumanApproved(s, id, m.approvedDigest.value))
  }

  ghost predicate PlansOk(s: State) {
    forall id :: id in s.plans ==> HumanApproved(s, s.plans[id].modelId, s.plans[id].modelDigest)
  }

  ghost predicate ProposalOk(s: State, p: Proposal) {
    && p.planId in s.plans && s.plans[p.planId].status == Accepted
    && HumanApproved(s, p.modelId, p.modelDigest)
    && WellFormed(p.changes)
  }

  ghost predicate ProposalsOk(s: State) {
    forall id :: id in s.proposals ==> ProposalOk(s, s.proposals[id])
  }

  /** The implementation's bytes are, or may be, in the tree. */
  predicate InForce(status: ImplementationStatus) {
    status == AppliedAwaitingReview || status == AcceptedImplementation
  }

  ghost predicate ImplementationOk(s: State, id: Id)
    requires id in s.implementations
  {
    var impl := s.implementations[id];
    && impl.proposalId in s.proposals
    && s.proposals[impl.proposalId].status == Accepted
    && s.proposals[impl.proposalId].sha256 == impl.proposalSha256
    && (InForce(impl.status) ==> BackedUp(s.tree, Slots(id, s.proposals[impl.proposalId].changes), 0))
  }

  ghost predicate ImplementationsOk(s: State) {
    forall id :: id in s.implementations ==> ImplementationOk(s, id)
  }

  ghost predicate AppliedAt(s: State, id: Id, i: nat) {
    i < |s.evidence| && s.evidence[i] == ImplementationApplied(id)
  }

  /** The log holds one apply of each implementation that left ApprovedForApply, and no other. */
  ghost predicate AppliesOk(s: State) {
    && (forall id, i, j :: AppliedAt(s, id, i) && AppliedAt(s, id, j) ==> i == j)
    && (forall id, i :: AppliedAt(s, id, i) ==> id in s.implementations && s.implementations[id].status != ApprovedForApply)
    && (forall id :: id in s.implementations && s.implementations[id].status != ApprovedForApply ==>
          exists i :: AppliedAt(s, id, i))
  }

  ghost predicate Inv(s: State) {
    ModelsOk(s) && PlansOk(s) && ProposalsOk(s) && ImplementationsOk(s) && AppliesOk(s)
  }

  /* ---------- What no call undoes ---------- */

  ghost predicate PlanStays(p: Plan, p': Plan) {
    && p'.modelId == p.modelId && p'.modelDigest == p.modelDigest && p'.body == p.body
    && (p.status == Accepted ==> p'.status == Accepted)
  }

  ghost predicate ProposalStays(p: Proposal, p': Proposal) {
    && p' == p.(status := p'.status, applied := p'.applied)
    && (p.status == Accepted ==> p'.status == Accepted)
  }

  ghost predicate ImplementationStays(i: Implementation, i': Implementation) {
    && i'.proposalId == i.proposalId && i'.proposalSha256 == i.proposalSha256
    && i'.approvedBy == i.approvedBy && i'.tokenSha256 == i.tokenSha256
    && (i.status == AcceptedImplementation || i.status == RolledBack ==> i'.status == i.status)
  }

  /** Logs only grow, reviews are final, and what was reviewed never changes. */
  ghost predicate Grows(s: State, s': State) {
    && s.evidence <= s'.evidence
    && (forall id :: id in s.plans ==> id in s'.plans && PlanStays(s.plans[id], s'.plans[id]))
    && (forall id :: id in s.proposals ==> id in s'.proposals && ProposalStays(s.proposals[id], s'.proposals[id]))
    && (forall id :: id in s.implementations ==>
          id in s'.implementations && ImplementationStays(s.implementations[id], s'.implementations[id]))
  }

  lemma ApplyGrows(s: State, id: Id, token: string, disk: Disk)
    ensures Grows(s, ApplyImplementation(s, id, token, disk).after)
  {
    hide CheckTargets, WriteFrom, Undo, Holds;
  }

  lemma SameRecordsGrow(s: State, s': State)
    requires s' == s.(tree := s'.tree)
    ensures Grows(s, s')
  {
  }

  lemma ReviewedGrows(s: State, s': State, id: Id, i: Implementation, applied: bool, event: Event)
    requires id in s.implementations && s.implementations[id].proposalId in s.proposals
    requires ImplementationStays(s.implementations[id], i)
    requires var pid := s.implementations[id].proposalId;
             s' == s.(tree := s'.tree, implementations := s.implementations[id := i],
                      proposals := s.proposals[pid := s.proposals[pid].(applied := applied)], evidence := s.evidence + [event])
    ensures Grows(s, s')
  {
  }

  lemma ReviewGrows(s: State, id: Id, decision: ImplementationDecision, disk: Restorer)
    ensures Grows(s, ReviewImplementation(s, id, decision, disk).after)
  {
    hide CheckTargets, RestoreFrom, Grows;
    var call := ReviewImplementation(s, id, decision, disk);
    if call.error.Some? {
      SameRecordsGrow(s, call.after);
    } else {
      var i, p := s.implementations[id], s.proposals[s.implementations[id].proposalId];
      if decision == AcceptIt { assert s.proposals[i.proposalId := p.(applied := p.applied)] == s.proposals; }
      ReviewedGrows(s, call.after, id, call.after.implementations[id],
                    if decision == RollBack then false else p.applied, ImplementationReviewed(id, decision));
    }
  }

  lemma ProbeGrows(s: State, listed: map<Id, Option<string>>)
    ensures Grows(s, ProbeModels(s, listed).after)
  {
  }

  lemma ApproveModelGrows(s: State, id: Id, approver: string)
    ensures Grows(s, ApproveModel(s, id, approver).after)
  {
  }

  lemma PlanGrows(s: State, id: Id, modelId: Id, body: Option<string>)
    requires id !in s.plans
    ensures Grows(s, GeneratePlan(s, id, modelId, body).after)
  {
    hide ApprovedModel;
  }

  lemma ReviewPlanGrows(s: State, id: Id, decision: Decision)
    ensures Grows(s, ReviewPlan(s, id, decision).after)
  {
    hide StatusAfter;
  }

  lemma ProposalGrows(s: State, id: Id, planId: Id, modelId: Id, paths: seq<Path>, edits: seq<Edit>)
    requires id !in s.proposals && 1 <= |paths| <= MAX_TARGET_FILES
    ensures Grows(s, GenerateProposal(s, id, planId, modelId, paths, edits).after)
  {
    hide ReadTargets, ValidateProposal, HashedChanges, ApprovedModel, Grows;
    var call := GenerateProposal(s, id, planId, modelId, paths, edits);
    if call.error.Some? {
      SameRecordsGrow(s, call.after);
    } else {
      AddedProposalGrows(s, id, call.after.proposals[id]);
    }
  }

  lemma AddedProposalGrows(s: State, id: Id, p: Proposal)
    requires id !in s.proposals
    ensures Grows(s, s.(proposals := s.proposals[id := p]))
  {
  }

  lemma ReviewProposalGrows(s: State, id: Id, decision: Decision)
    ensures Grows(s, ReviewProposal(s, id, decision).after)
  {
    hide StatusAfter;
  }

  lemma PrepareGrows(s: State, id: Id, proposalId: Id, approver: string, token: string)
    requires id !in s.implementations
    ensures Grows(s, PrepareImplementation(s, id, proposalId, approver, token).after)
  {
    hide CheckTargets;
  }

  lemma StepGrows(s: State, op: Op)
    requires Possible(s, op)
    ensures Grows(s, Step(s, op).after)
  {
    hide Grows, UnderBackups, ProbeModels, ApproveModel, GeneratePlan, ReviewPlan, GenerateProposal, ReviewProposal,
         PrepareImplementation, ApplyImplementation, ReviewImplementation;
    match op
    case OpProbe(listed) => ProbeGrows(s, listed);
    case OpApproveModel(id, approver) => ApproveModelGrows(s, id, approver);
    case OpPlan(id, modelId, body) => PlanGrows(s, id, modelId, body);
    case OpReviewPlan(id, decision) => ReviewPlanGrows(s, id, decision);
    case OpProposal(id, planId, modelId, paths, edits) => ProposalGrows(s, id, planId, modelId, paths, edits);
    case OpReviewProposal(id, decision) => ReviewProposalGrows(s, id, decision);
    case OpPrepare(id, proposalId, approver, token) => PrepareGrows(s, id, proposalId, approver, token);
    case OpApply(id, token, disk) => ApplyGrows(s, id, token, disk);
    case OpReviewImplementation(id, verdict, restorer) => ReviewGrows(s, id, verdict, restorer);
    case OpEditSource(path, content) => EditGrows(s, path, content);
  }

  lemma EditGrows(s: State, path: Path, content: Option<Content>)
    requires !UnderBackups(path)
    ensures Grows(s, Step(s, OpEditSource(path, content)).after)
  {
    hide UnderBackups;
  }

  lemma GrowsTransitive(s: State, t: State, u: State)
    requires Grows(s, t) && Grows(t, u)
    ensures Grows(s, u)
  {
    forall id | id in s.plans ensures id in u.plans && PlanStays(s.plans[id], u.plans[id]) {
      assert PlanStays(s.plans[id], t.plans[id]) && PlanStays(t.plans[id], u.plans[id]);
    }
    forall id | id in s.proposals ensures id in u.proposals && ProposalStays(s.proposals[id], u.proposals[id]) {
      assert ProposalStays(s.proposals[id], t.proposals[id]) && ProposalStays(t.proposals[id], u.proposals[id]);
    }
    forall id | id in s.implementations
      ensures id in u.implementations && ImplementationStays(s.implementations[id], u.implementations[id])
    {
      assert ImplementationStays(s.implementations[id], t.implementations[id]);
      assert ImplementationStays(t.implementations[id], u.implementations[id]);
    }
  }

  lemma {:induction false} RunGrows(s: State, ops: seq<Op>, s': State)
    requires Run(s, ops, s')
    ensures Grows(s, s')
    decreases |ops|
  {
    hide Step;
    if ops != [] {
      StepGrows(s, ops[0]);
      RunGrows(Step(s, ops[0]).after, ops[1..], s');
      GrowsTransitive(s, Step(s, ops[0]).after, s');
    }
  }

  /* ---------- Each call keeps the invariant ---------- */

  lemma ApprovalStays(s: State, s': State, modelId: Id, digest: string)
    requires HumanApproved(s, modelId, digest) && s.evidence <= s'.evidence
    ensures HumanApproved(s', modelId, digest)
  {
    var i :| 0 <= i < |s.evidence| && s.evidence[i].ModelApproved?
             && s.evidence[i].modelId == modelId && s.evidence[i].digest == digest;
    assert s'.evidence[i] == s.evidence[i];
  }

  lemma PlansStay(s: State, s': State)
    requires PlansOk(s) && Grows(s, s')
    requires forall id :: id in s'.plans && id !in s.plans ==> HumanApproved(s', s'.plans[id].modelId, s'.plans[id].modelDigest)
    ensures PlansOk(s')
  {
    hide HumanApproved;
    forall id | id in s'.plans ensures HumanApproved(s', s'.plans[id].modelId, s'.plans[id].modelDigest) {
      if id in s.plans {
        assert PlanStays(s.plans[id], s'.plans[id]);
        ApprovalStays(s, s', s.plans[id].modelId, s.plans[id].modelDigest);
      }
    }
  }

  lemma ProposalStillOk(s: State, s': State, p: Proposal, p': Proposal)
    requires ProposalOk(s, p) && Grows(s, s') && ProposalStays(p, p')
    ensures ProposalOk(s', p')
  {
    hide HumanApproved, WellFormed;
    assert PlanStays(s.plans[p.planId], s'.plans[p.planId]);
    ApprovalStays(s, s', p.modelId, p.modelDigest);
  }

  lemma ProposalsStay(s: State, s': State)
    requires ProposalsOk(s) && Grows(s, s')
    requires forall id :: id in s'.proposals && id !in s.proposals ==> ProposalOk(s', s'.proposals[id])
    ensures ProposalsOk(s')
  {
    hide ProposalOk;
    forall id | id in s'.proposals ensures ProposalOk(s', s'.proposals[id]) {
      if id in s.proposals {
        assert ProposalStays(s.proposals[id], s'.proposals[id]);
        ProposalStillOk(s, s', s.proposals[id], s'.proposals[id]);
      }
    }
  }

  /** The backups id was applied with are whole in tree. */
  ghost predicate Whole(s: State, tree: Tree, id: Id) {
    && id in s.implementations && s.implementations[id].proposalId in s.proposals
    && BackedUp(tree, Slots(id, s.proposals[s.implementations[id].proposalId].changes), 0)
  }

  lemma ImplementationsStay(s: State, s': State)
    requires ImplementationsOk(s) && Grows(s, s')
    requires forall id :: id in s.implementations && InForce(s'.implementations[id].status) ==> Whole(s, s'.tree, id)
    requires forall id :: id in s'.implementations && id !in s.implementations ==> ImplementationOk(s', id)
    ensures ImplementationsOk(s')
  {
    hide BackedUp;
    forall id | id in s.implementations ensures ImplementationOk(s', id) {
      assert ImplementationOk(s, id);
      var impl := s.implementations[id];
      assert ImplementationStays(impl, s'.implementations[id]);
      assert ProposalStays(s.proposals[impl.proposalId], s'.proposals[impl.proposalId]);
    }
  }

  ghost predicate LogsNoApply(s: State, s': State) {
    && (forall i :: |s.evidence| <= i < |s'.evidence| ==> !s'.evidence[i].ImplementationApplied?)
    && (forall id :: id in s.implementations && id in s'.implementations ==>
          (s'.implementations[id].status == ApprovedForApply <==> s.implementations[id].status == ApprovedForApply))
    && (forall id :: id in s'.implementations && s'.implementations[id].status != ApprovedForApply ==>
          id in s.implementations)
  }

  lemma AppliesStay(s: State, s': State)
    requires AppliesOk(s) && Grows(s, s') && LogsNoApply(s, s')
    ensures AppliesOk(s')
  {
    hide ImplementationStays, PlanStays, ProposalStays;
    forall id, i: nat ensures AppliedAt(s', id, i) <==> AppliedAt(s, id, i) {
      if i < |s.evidence| { assert s'.evidence[i] == s.evidence[i]; }
    }
    forall id | id in s'.implementations && s'.implementations[id].status != ApprovedForApply
      ensures exists i :: AppliedAt(s', id, i)
    {
      var i :| AppliedAt(s, id, i);
      assert AppliedAt(s', id, i);
    }
  }

  /** The tree keeps every whole backup of s. */
  ghost predicate KeepsBackups(s: State, tree: Tree) {
    forall id :: id in s.implementations && InForce(s.implementations[id].status) ==> Whole(s, tree, id)
  }

  lemma AllWhole(s: State)
    requires ImplementationsOk(s)
    ensures KeepsBackups(s, s.tree)
  {
    hide BackedUp;
    forall id | id in s.implementations && InForce(s.implementations[id].status) ensures Whole(s, s.tree, id) {
      assert ImplementationOk(s, id);
    }
  }

  ghost predicate NoneComesIntoForce(s: State, s': State) {
    forall id :: id in s.implementations && id in s'.implementations && InForce(s'.implementations[id].status) ==>
      InForce(s.implementations[id].status)
  }

  /** A call that keeps the models' invariant and the backups, and applies nothing. */
  lemma QuietCallKeeps(s: State, s': State)
    requires Inv(s) && Grows(s, s') && ModelsOk(s') && LogsNoApply(s, s') && KeepsBackups(s, s'.tree)
    requires NoneComesIntoForce(s, s')
    requires forall id :: id in s'.plans && id !in s.plans ==> HumanApproved(s', s'.plans[id].modelId, s'.plans[id].modelDigest)
    requires forall id :: id in s'.proposals && id !in s.proposals ==> ProposalOk(s', s'.proposals[id])
    requires forall id :: id in s'.implementations && id !in s.implementations ==> ImplementationOk(s', id)
    ensures Inv(s')
  {
    hide ModelsOk, PlansOk, ProposalsOk, ImplementationsOk, AppliesOk, HumanApproved, ProposalOk, ImplementationOk,
         LogsNoApply, Whole;
    PlansStay(s, s');
    ProposalsStay(s, s');
    ImplementationsStay(s, s') by {
      forall id | id in s.implementations && InForce(s'.implementations[id].status) ensures Whole(s, s'.tree, id) {
        assert InForce(s.implementations[id].status);
      }
    }
    AppliesStay(s, s');
  }

  /** A call that touches neither models, tree, implementations nor evidence. */
  lemma InertCallKeeps(s: State, s': State)
    requires Inv(s) && Grows(s, s')
    requires s' == s.(plans := s'.plans, proposals := s'.proposals)
    requires forall id :: id in s'.plans && id !in s.plans ==> HumanApproved(s', s'.plans[id].modelId, s'.plans[id].modelDigest)
    requires forall id :: id in s'.proposals && id !in s.proposals ==> ProposalOk(s', s'.proposals[id])
    ensures Inv(s')
  {
    hide PlansOk, ProposalsOk, ModelsOk, AppliesOk, Whole, HumanApproved, ProposalOk, ImplementationOk;
    UntouchedModels(s, s');
    AllWhole(s);
    hide Grows;
    QuietCallKeeps(s, s');
  }

  /** Probes, approvals and reviews of plans and proposals. */
  lemma ProbeKeeps(s: State, listed: map<Id, Option<string>>)
    requires Inv(s)
    ensures Inv(ProbeModels(s, listed).after)
  {
    var s' := ProbeModels(s, listed).after;
    ProbeGrows(s, listed);
    assert ModelsOk(s') by {
      forall id | id in s.models && s.models[id].approvedDigest.Some?
        ensures HumanApproved(s', id, s.models[id].approvedDigest.value)
      {
        ApprovalStays(s, s', id, s.models[id].approvedDigest.value);
      }
    }
    hide PlansOk, ProposalsOk, ModelsOk, AppliesOk, Grows, Whole;
    AllWhole(s);
    QuietCallKeeps(s, s');
  }

  lemma ApproveModelKeeps(s: State, id: Id, approver: string)
    requires Inv(s)
    ensures Inv(ApproveModel(s, id, approver).after)
  {
    var s' := ApproveModel(s, id, approver).after;
    ApproveModelGrows(s, id, approver);
    if ApproveModel(s, id, approver).Succeeds() {
      assert ModelsOk(s') by {
        assert s'.evidence[|s.evidence|] == ModelApproved(id, s.models[id].digest.value, approver);
        forall x | x in s.models && s.models[x].approvedDigest.Some?
          ensures HumanApproved(s', x, s.models[x].approvedDigest.value)
        {
          ApprovalStays(s, s', x, s.models[x].approvedDigest.value);
        }
      }
      hide PlansOk, ProposalsOk, ModelsOk, AppliesOk, Grows, Whole;
      AllWhole(s);
      QuietCallKeeps(s, s');
    }
  }

  lemma ReviewPlanKeeps(s: State, id: Id, decision: Decision)
    requires Inv(s)
    ensures Inv(ReviewPlan(s, id, decision).after)
  {
    hide Inv, HumanApproved, ProposalOk, StatusAfter, Grows;
    ReviewPlanGrows(s, id, decision);
    InertCallKeeps(s, ReviewPlan(s, id, decision).after);
  }

  lemma ReviewProposalKeeps(s: State, id: Id, decision: Decision)
    requires Inv(s)
    ensures Inv(ReviewProposal(s, id, decision).after)
  {
    hide Inv, HumanApproved, ProposalOk, StatusAfter, Grows;
    ReviewProposalGrows(s, id, decision);
    InertCallKeeps(s, ReviewProposal(s, id, decision).after);
  }

  lemma UntouchedModels(s: State, s': State)
    requires ModelsOk(s) && Grows(s, s') && s'.models == s.models
    ensures ModelsOk(s')
  {
    hide HumanApproved;
    forall id | id in s.models && s.models[id].approvedDigest.Some?
      ensures HumanApproved(s', id, s.models[id].approvedDigest.value)
    {
      ApprovalStays(s, s', id, s.models[id].approvedDigest.value);
    }
  }

  /** A digest that may generate was approved by a person. */
  lemma ApprovedModelWasApproved(s: State, modelId: Id)
    requires ModelsOk(s) && ApprovedModel(s, modelId).Ok?
    ensures HumanApproved(s, modelId, ApprovedModel(s, modelId).value)
  {
  }

  lemma PlanKeeps(s: State, id: Id, modelId: Id, body: Option<string>)
    requires Inv(s) && id !in s.plans
    ensures Inv(GeneratePlan(s, id, modelId, body).after)
  {
    hide PlansOk, ProposalsOk, ModelsOk, AppliesOk, Whole, HumanApproved, ProposalOk, ImplementationOk;
    var s' := GeneratePlan(s, id, modelId, body).after;
    PlanGrows(s, id, modelId, body);
    hide Grows;
    if GeneratePlan(s, id, modelId, body).Succeeds() {
      ApprovedModelWasApproved(s, modelId);
      ApprovalStays(s, s', modelId, ApprovedModel(s, modelId).value);
      InertCallKeeps(s, s');
    }
  }

  /** The declarative content of validation: what is accepted, and exactly when. */
  lemma {:induction false} NormalizeEditsMeaning(targets: map<Path, Digest<Content>>, edits: seq<Edit>)
    ensures var r := NormalizeEdits(targets, edits);
            && (r.Ok? <==>
                  && (forall i :: 0 <= i < |edits| ==> edits[i].path in targets)
                  && (forall i, j :: 0 <= i < j < |edits| ==> edits[i].path != edits[j].path)
                  && Bytes(edits) <= MAX_PROPOSAL_BYTES)
            && (r.Ok? ==>
                  && |r.value| == |edits|
                  && forall i :: 0 <= i < |edits| ==>
                       r.value[i] == Change(edits[i].path, targets[edits[i].path], edits[i].newContent, Sha256(edits[i].newContent)))
  {
    if edits != [] {
      var init, e := edits[..|edits| - 1], edits[|edits| - 1];
      NormalizeEditsMeaning(targets, init);
      assert forall i :: 0 <= i < |init| ==> init[i] == edits[i];
      if Touches(init, e.path) {
        var i :| 0 <= i < |init| && init[i].path == e.path;
        assert edits[i].path == edits[|edits| - 1].path;
      } else {
        forall i | 0 <= i < |init| ensures edits[i].path != e.path { assert init[i].path != e.path; }
      }
    }
  }

  lemma ValidatedIsWellFormed(targets: map<Path, Digest<Content>>, edits: seq<Edit>)
    requires ValidateProposal(targets, edits).Ok?
    ensures WellFormed(ValidateProposal(targets, edits).value)
  {
    NormalizeEditsMeaning(targets, edits);
  }

  lemma ProposalKeeps(s: State, id: Id, planId: Id, modelId: Id, paths: seq<Path>, edits: seq<Edit>)
    requires Inv(s) && id !in s.proposals && 1 <= |paths| <= MAX_TARGET_FILES
    ensures Inv(GenerateProposal(s, id, planId, modelId, paths, edits).after)
  {
    hide PlansOk, ProposalsOk, ModelsOk, AppliesOk, Whole, HumanApproved, ImplementationOk,
         WellFormed, ReadTargets, ValidateProposal, HashedChanges;
    var s' := GenerateProposal(s, id, planId, modelId, paths, edits).after;
    ProposalGrows(s, id, planId, modelId, paths, edits);
    hide Grows;
    if GenerateProposal(s, id, planId, modelId, paths, edits).Succeeds() {
      ValidatedIsWellFormed(ReadTargets(s.tree, paths).value, edits);
      ApprovedModelWasApproved(s, modelId);
      ApprovalStays(s, s', modelId, ApprovedModel(s, modelId).value);
      InertCallKeeps(s, s');
    }
  }

  lemma PrepareKeeps(s: State, id: Id, proposalId: Id, approver: string, token: string)
    requires Inv(s) && id !in s.implementations
    ensures Inv(PrepareImplementation(s, id, proposalId, approver, token).after)
  {
    hide PlansOk, ProposalsOk, ModelsOk, AppliesOk, Whole, HumanApproved, ProposalOk, BackedUp, CheckTargets;
    var s' := PrepareImplementation(s, id, proposalId, approver, token).after;
    PrepareGrows(s, id, proposalId, approver, token);
    hide Grows;
    if PrepareImplementation(s, id, proposalId, approver, token).Succeeds() {
      AllWhole(s);
      UntouchedModels(s, s');
      QuietCallKeeps(s, s');
    }
  }

  /** The backups of one implementation survive any call that keeps their files. */
  lemma BackupsSurvive(tree: Tree, tree': Tree, slots: seq<Slot>)
    requires BackedUp(tree, slots, 0)
    requires forall j :: 0 <= j < |slots| ==> SameAt(tree', tree, slots[j].backup)
    ensures BackedUp(tree', slots, 0)
  {
  }

  /** Applying one implementation never touches the backups of another. */
  lemma OthersBackupsUntouched(s: State, id: Id, token: string, other: Id, p: Path)
    requires ReadyToApply(s, id, token).Ok? && other != id
    ensures Untouched(Slots(id, ReadyToApply(s, id, token).value.changes), 0, BackupPath(other, p))
  {
    hide ReadyToApply, UnderBackups, BackupPath, BlockedFile;
    var changes := ReadyToApply(s, id, token).value.changes;
    ReadyTargets(s, id, token);
    forall j | 0 <= j < |changes|
      ensures BackupPath(other, p) != changes[j].path && BackupPath(other, p) != BackupPath(id, changes[j].path)
    {
      BackupsNeverAlias(other, p, id, changes[j].path);
    }
  }

  /** An apply, failed or not, changes only its targets and its own backups. */
  lemma ApplyFrame(s: State, id: Id, token: string, disk: Disk, q: Path)
    requires ReadyToApply(s, id, token).Ok?
    requires WellFormed(ReadyToApply(s, id, token).value.changes)
    requires Untouched(Slots(id, ReadyToApply(s, id, token).value.changes), 0, q)
    ensures SameAt(ApplyImplementation(s, id, token, disk).after.tree, s.tree, q)
  {
    hide UnderBackups, BackupPath, BlockedFile, ReadyToApply;
    var changes := ReadyToApply(s, id, token).value.changes;
    ReadyTargets(s, id, token);
    SlotsAreSeparate(id, changes);
    if ApplyImplementation(s, id, token, disk).Succeeds() {
      AppliedTree(s, id, token, disk);
    } else {
      FailedWrites(s.tree, Slots(id, changes), disk);
    }
  }

  lemma ApplyKeepsBackups(s: State, id: Id, token: string, disk: Disk, other: Id)
    requires ReadyToApply(s, id, token).Ok?
    requires WellFormed(ReadyToApply(s, id, token).value.changes)
    requires other != id && Whole(s, s.tree, other)
    ensures Whole(s, ApplyImplementation(s, id, token, disk).after.tree, other)
  {
    hide UnderBackups, BackupPath, BlockedFile, ReadyToApply, ApplyImplementation, WellFormed, Untouched;
    var theirs := Slots(other, s.proposals[s.implementations[other].proposalId].changes);
    var t := ApplyImplementation(s, id, token, disk).after.tree;
    forall j | 0 <= j < |theirs| ensures SameAt(t, s.tree, theirs[j].backup) {
      OthersBackupsUntouched(s, id, token, other, theirs[j].change.path);
      ApplyFrame(s, id, token, disk, theirs[j].backup);
    }
    BackupsSurvive(s.tree, t, theirs);
  }

  /** The proposal a ready implementation applies is the one it was prepared for. */
  lemma ReadyProposal(s: State, id: Id, token: string)
    requires Inv(s) && ReadyToApply(s, id, token).Ok?
    ensures id in s.implementations && s.implementations[id].status == ApprovedForApply
    ensures s.implementations[id].proposalId in s.proposals
    ensures ReadyToApply(s, id, token).value == s.proposals[s.implementations[id].proposalId]
    ensures WellFormed(ReadyToApply(s, id, token).value.changes)
  {
    hide WellFormed, CheckTargets, ModelsOk, PlansOk, AppliesOk, HumanApproved, BackedUp, Holds;
    assert ProposalOk(s, s.proposals[s.implementations[id].proposalId]);
  }

  /** After an apply, every implementation in force has whole backups. */
  lemma ApplyWhole(s: State, id: Id, token: string, disk: Disk, other: Id)
    requires Inv(s) && ReadyToApply(s, id, token).Ok?
    requires other in s.implementations
    requires InForce(ApplyImplementation(s, id, token, disk).after.implementations[other].status)
    ensures Whole(s, ApplyImplementation(s, id, token, disk).after.tree, other)
  {
    ReadyProposal(s, id, token);
    hide WellFormed, BackedUp, CheckTargets, Holds, WriteFrom, Undo, ModelsOk, PlansOk, ProposalsOk, AppliesOk,
         ImplementationOk, ReadyToApply, SlotWritten, Separate, Untouched, Present;
    if other == id {
      AppliedTree(s, id, token, disk);
    } else {
      AllWhole(s);
      ApplyKeepsBackups(s, id, token, disk, other);
    }
  }

  lemma ApplyKeeps(s: State, id: Id, token: string, disk: Disk)
    requires Inv(s)
    ensures Inv(ApplyImplementation(s, id, token, disk).after)
  {
    hide WellFormed, CheckTargets, Holds, WriteFrom, Undo, ModelsOk, PlansOk, ProposalsOk, ImplementationsOk, AppliesOk,
         Whole, HumanApproved, ProposalOk, ReadyToApply;
    var call := ApplyImplementation(s, id, token, disk);
    if ReadyToApply(s, id, token).Ok? {
      var s' := call.after;
      ApplyGrows(s, id, token, disk);
      ReadyProposal(s, id, token);
      assert s'.implementations.Keys == s.implementations.Keys;
      forall other | other in s.implementations && InForce(s'.implementations[other].status)
        ensures Whole(s, s'.tree, other)
      {
        ApplyWhole(s, id, token, disk, other);
      }
      if call.Succeeds() { OneMoreApply(s, s', id); } else { AppliesStay(s, s'); }
      hide Grows;
      UntouchedModels(s, s');
      PlansStay(s, s');
      ProposalsStay(s, s');
      ImplementationsStay(s, s');
    }
  }

  lemma OneMoreApply(s: State, s': State, id: Id)
    requires AppliesOk(s)
    requires id in s.implementations && s.implementations[id].status == ApprovedForApply
    requires s'.implementations.Keys == s.implementations.Keys && s'.implementations[id].status == AppliedAwaitingReview
    requires forall x :: x in s.implementations && x != id ==> s'.implementations[x] == s.implementations[x]
    requires s'.evidence == s.evidence + [ImplementationApplied(id)]
    ensures AppliesOk(s')
  {
    forall x, i ensures AppliedAt(s', x, i) <==> AppliedAt(s, x, i) || (x == id && i == |s.evidence|) {}
    forall x | x in s'.implementations && s'.implementations[x].status != ApprovedForApply
      ensures exists i :: AppliedAt(s', x, i)
    {
      if x == id {
        assert AppliedAt(s', x, |s.evidence|);
      } else {
        var i :| AppliedAt(s, x, i);
        assert AppliedAt(s', x, i);
      }
    }
  }

  /** A rollback that writes anything found every target admissible, so it touched no backup, however it ended. */
  lemma RollbackKeepsBackups(s: State, id: Id, disk: Restorer, other: Id)
    requires Whole(s, s.tree, id) && Whole(s, s.tree, other)
    requires s.implementations[id].status == AppliedAwaitingReview
    requires WellFormed(s.proposals[s.implementations[id].proposalId].changes)
    ensures Whole(s, ReviewImplementation(s, id, RollBack, disk).after.tree, other)
  {
    hide UnderBackups, BackupPath, BlockedFile, CheckTargets, WellFormed, ReviewImplementation;
    var changes := s.proposals[s.implementations[id].proposalId].changes;
    var theirs := Slots(other, s.proposals[s.implementations[other].proposalId].changes);
    RollbackExactly(s, id, disk);
    var t := ReviewImplementation(s, id, RollBack, disk).after.tree;
    if StillApplied(s.tree, Slots(id, changes)) {
      forall j | 0 <= j < |theirs| ensures SameAt(t, s.tree, theirs[j].backup) {
        forall k | 0 <= k < |changes| ensures changes[k].path != theirs[j].backup {
          assert SafeTarget(s.tree, Slots(id, changes)[k].change.path).Ok?;
          BackupsNeverAlias(other, theirs[j].change.path, id, changes[k].path);
        }
        assert OffTargets(Slots(id, changes), 0, |changes|, theirs[j].backup);
      }
      BackupsSurvive(s.tree, t, theirs);
    }
  }

  /** In a reachable state a review that raises changes no record; a rollback may leave source files half restored. */
  lemma ReviewRefusalKeepsRecords(s: State, id: Id, decision: ImplementationDecision, disk: Restorer)
    requires Inv(s) && !ReviewImplementation(s, id, decision, disk).Succeeds()
    ensures ReviewImplementation(s, id, decision, disk).after ==
            s.(tree := ReviewImplementation(s, id, decision, disk).after.tree)
  {
    hide CheckTargets, RestoreFrom, Inv;
  }

  lemma ReviewKeepsBackups(s: State, id: Id, decision: ImplementationDecision, disk: Restorer)
    requires Inv(s)
    ensures KeepsBackups(s, ReviewImplementation(s, id, decision, disk).after.tree)
  {
    hide WellFormed, CheckTargets, RestoreFrom, ModelsOk, PlansOk, AppliesOk, Whole, ImplementationsOk;
    AllWhole(s);
    if decision == RollBack && id in s.implementations && s.implementations[id].status == AppliedAwaitingReview {
      ImplementationInOrder(s, id);
      hide ImplementationOk;
      WellFormedOf(s, s.proposals[s.implementations[id].proposalId]);
      forall other | other in s.implementations && InForce(s.implementations[other].status)
        ensures Whole(s, ReviewImplementation(s, id, decision, disk).after.tree, other)
      {
        RollbackKeepsBackups(s, id, disk, other);
      }
    }
  }

  lemma ImplementationInOrder(s: State, id: Id)
    requires Inv(s) && id in s.implementations
    ensures ImplementationOk(s, id) && s.implementations[id].proposalId in s.proposals
    ensures ProposalOk(s, s.proposals[s.implementations[id].proposalId])
  {
    hide WellFormed, ModelsOk, PlansOk, AppliesOk, HumanApproved, BackedUp;
  }

  /** What a successful review changes besides the tree. */
  lemma ReviewEffect(s: State, id: Id, decision: ImplementationDecision, disk: Restorer)
    requires ReviewImplementation(s, id, decision, disk).Succeeds()
    ensures id in s.implementations && s.implementations[id].status == AppliedAwaitingReview
    ensures var s' := ReviewImplementation(s, id, decision, disk).after;
            && s'.models == s.models && s'.plans == s.plans && s'.proposals.Keys == s.proposals.Keys
            && s'.evidence == s.evidence + [ImplementationReviewed(id, decision)]
            && s'.implementations == s.implementations[id := s.implementations[id].(
                 status := if decision == RollBack then RolledBack else AcceptedImplementation)]
  {
    hide CheckTargets, RestoreFrom;
  }

  lemma ReviewImplementationKeeps(s: State, id: Id, decision: ImplementationDecision, disk: Restorer)
    requires Inv(s)
    ensures Inv(ReviewImplementation(s, id, decision, disk).after)
  {
    var s' := ReviewImplementation(s, id, decision, disk).after;
    hide ReviewImplementation, ModelsOk, PlansOk, ProposalsOk, ImplementationsOk, AppliesOk, HumanApproved, ProposalOk,
         ImplementationOk, KeepsBackups, Grows;
    ReviewKeepsBackups(s, id, decision, disk);
    ReviewGrows(s, id, decision, disk);
    if ReviewImplementation(s, id, decision, disk).Succeeds() {
      ReviewEffect(s, id, decision, disk);
      ReviewAppliesNothing(s, s', id, decision);
    } else {
      ReviewRefusalKeepsRecords(s, id, decision, disk);
    }
    hide LogsNoApply, NoneComesIntoForce;
    UntouchedModels(s, s');
    if !ReviewImplementation(s, id, decision, disk).Succeeds() { SameRecordsApplyNothing(s, s'); }
    QuietCallKeeps(s, s');
  }

  lemma SameRecordsApplyNothing(s: State, s': State)
    requires s' == s.(tree := s'.tree)
    ensures LogsNoApply(s, s') && NoneComesIntoForce(s, s')
  {
  }

  lemma ReviewAppliesNothing(s: State, s': State, id: Id, decision: ImplementationDecision)
    requires id in s.implementations && s.implementations[id].status == AppliedAwaitingReview
    requires s'.evidence == s.evidence + [ImplementationReviewed(id, decision)]
    requires s'.implementations == s.implementations[id := s.implementations[id].(
               status := if decision == RollBack then RolledBack else AcceptedImplementation)]
    ensures LogsNoApply(s, s') && NoneComesIntoForce(s, s')
  {
  }

  lemma WellFormedOf(s: State, p: Proposal)
    requires ProposalOk(s, p)
    ensures WellFormed(p.changes)
  {
  }

  lemma EditKeeps(s: State, path: Path, content: Option<Content>)
    requires Inv(s) && !UnderBackups(path)
    ensures Inv(Step(s, OpEditSource(path, content)).after)
  {
    hide WellFormed, ModelsOk, PlansOk, ProposalsOk, AppliesOk, HumanApproved, ImplementationOk, UnderBackups;
    var s' := Step(s, OpEditSource(path, content)).after;
    EditGrows(s, path, content);
    UntouchedModels(s, s');
    hide Grows;
    AllWhole(s);
    forall id | id in s.implementations && InForce(s.implementations[id].status) ensures Whole(s, s'.tree, id) {
      EditKeepsBackups(s, path, s'.tree, id);
    }
    QuietCallKeeps(s, s');
  }

  lemma EditKeepsBackups(s: State, path: Path, tree: Tree, id: Id)
    requires !UnderBackups(path) && Whole(s, s.tree, id)
    requires forall q :: q != path ==> SameAt(tree, s.tree, q)
    ensures Whole(s, tree, id)
  {
    hide UnderBackups, BackupPath;
    var slots := Slots(id, s.proposals[s.implementations[id].proposalId].changes);
    forall j | 0 <= j < |slots| ensures SameAt(tree, s.tree, slots[j].backup) {
      BackupsNeverAlias(id, slots[j].change.path, id, path);
    }
    BackupsSurvive(s.tree, tree, slots);
  }

  lemma StepKeeps(s: State, op: Op)
    requires Inv(s) && Possible(s, op)
    ensures Inv(Step(s, op).after)
  {
    hide Inv, UnderBackups;
    match op
    case OpProbe(listed) => ProbeKeeps(s, listed);
    case OpApproveModel(id, approver) => ApproveModelKeeps(s, id, approver);
    case OpPlan(id, modelId, body) => PlanKeeps(s, id, modelId, body);
    case OpReviewPlan(id, decision) => ReviewPlanKeeps(s, id, decision);
    case OpProposal(id, planId, modelId, paths, edits) => ProposalKeeps(s, id, planId, modelId, paths, edits);
    case OpReviewProposal(id, decision) => ReviewProposalKeeps(s, id, decision);
    case OpPrepare(id, proposalId, approver, token) => PrepareKeeps(s, id, proposalId, approver, token);
    case OpApply(id, token, disk) => ApplyKeeps(s, id, token, disk);
    case OpReviewImplementation(id, verdict, restorer) => ReviewImplementationKeeps(s, id, verdict, restorer);
    case OpEditSource(path, content) => EditKeeps(s, path, content);
  }

  /** The invariant holds after every run from an initial state. */
  lemma {:induction false} RunKeeps(s: State, ops: seq<Op>, s': State)
    requires Inv(s) && Run(s, ops, s')
    ensures Inv(s')
    decreases |ops|
  {
    hide Inv, Step;
    if ops != [] {
      StepKeeps(s, ops[0]);
      RunKeeps(Step(s, ops[0]).after, ops[1..], s');
    }
  }

  lemma ReachableInv(s: State)
    requires Reachable(s)
    ensures Inv(s)
  {
    var s0, ops :| Initial(s0) && Run(s0, ops, s);
    RunKeeps(s0, ops, s);
  }
}
