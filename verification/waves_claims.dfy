/**
 The claims of the change pipeline over whole runs: provenance, exactness of approvals,
 monotone progress, and what a rollback leaves behind when the disk stops it.
 */
module WavesClaims {
  import opened Common
  import opened SourceTree
  import opened Waves
  import opened WavesApply
  import opened WavesRuns

  /** The chain of accepted artefacts behind an implementation. */
  ghost predicate Provenance(s: State, id: Id)
    requires id in s.implementations
  {
    var impl := s.implementations[id];
    && impl.proposalId in s.proposals
    && var p := s.proposals[impl.proposalId];
    && p.status == Accepted && p.sha256 == impl.proposalSha256
    && HumanApproved(s, p.modelId, p.modelDigest)
    && p.planId in s.plans
    && s.plans[p.planId].status == Accepted
    && HumanApproved(s, s.plans[p.planId].modelId, s.plans[p.planId].modelDigest)
  }

  lemma EveryImplementationHasProvenance(s: State, id: Id)
    requires Reachable(s) && id in s.implementations
    ensures Provenance(s, id)
  {
    ReachableInv(s);
    hide HumanApproved, WellFormed, BackedUp, ModelsOk, AppliesOk;
    assert ImplementationOk(s, id);
    assert ProposalOk(s, s.proposals[s.implementations[id].proposalId]);
  }

  /** The log never shows an implementation applied twice, and only after it was prepared. */
  lemma AppliedAtMostOnce(s: State, id: Id, i: nat, j: nat)
    requires Reachable(s) && AppliedAt(s, id, i) && AppliedAt(s, id, j)
    ensures i == j && id in s.implementations && s.implementations[id].status != ApprovedForApply
  {
    ReachableInv(s);
  }

  /** Two of the refusals inside apply are unreachable. */
  lemma ApplyNeverMissesItsProposal(s: State, id: Id, token: string)
    requires Reachable(s)
    ensures ReadyToApply(s, id, token) != Err(AcceptedProposalRequired)
    ensures ReadyToApply(s, id, token) != Err(ImplementationProposalHashMismatch)
  {
    ReachableInv(s);
    hide CheckTargets, ModelsOk, PlansOk, ProposalsOk, AppliesOk, BackedUp;
    if id in s.implementations && s.implementations[id].status == ApprovedForApply {
      assert ImplementationOk(s, id);
      CheckTargetsError(s.tree, s.proposals[s.implementations[id].proposalId].changes, false, ImplementationPreimageStale);
    }
  }

  lemma {:induction false} CheckTargetsError(tree: Tree, changes: seq<Change>, post: bool, stale: Error)
    ensures var r := CheckTargets(tree, changes, post, stale); r.Some? ==> r.value == stale || r.value.Target?
  {
    hide Holds, SafeTarget;
    if changes != [] {
      CheckTargetsError(tree, changes[..|changes| - 1], post, stale);
    }
  }

  /** Approval for planning means exactly that the probed digest is the one a person approved. */
  lemma PlanningApprovalIsExact(s: State, id: Id)
    requires Reachable(s) && id in s.models
    ensures var m := s.models[id];
            && (m.state == PlanningApproved <==> Truthy(m.digest) && m.digest == m.approvedDigest)
            && (m.state == PlanningApproved ==> HumanApproved(s, id, m.digest.value))
            && ApprovedModel(s, id) != Err(ModelDigestRevalidationRequired)
  {
    ReachableInv(s);
    hide HumanApproved, PlansOk, ProposalsOk, ImplementationsOk, AppliesOk;
  }

  /* ---------- Progress ---------- */

  function AcceptedPlans(s: State): set<Id> {
    set id | id in s.plans && s.plans[id].status == Accepted
  }

  function AcceptedProposals(s: State): set<Id> {
    set id | id in s.proposals && s.proposals[id].status == Accepted
  }

  function AcceptedImplementations(s: State): set<Id> {
    set id | id in s.implementations && s.implementations[id].status == AcceptedImplementation
  }

  /** progress_percent as recomputed from the stored records. */
  function Progress(s: State): nat {
    var score := 15 * |AcceptedPlans(s)| + 20 * |AcceptedProposals(s)| + 35 * |AcceptedImplementations(s)|;
    if score < 100 then score else 100
  }

  lemma SubsetSize<T>(a: set<T>, b: set<T>)
    requires a <= b
    ensures |a| <= |b|
  {
    assert b == a + (b - a);
  }

  /** Progress never goes back, rollbacks included. */
  lemma ProgressNeverDrops(s: State, ops: seq<Op>, s': State)
    requires Run(s, ops, s')
    ensures Progress(s) <= Progress(s') <= 100
  {
    RunGrows(s, ops, s');
    hide Run;
    assert AcceptedPlans(s) <= AcceptedPlans(s') by {
      forall id | id in AcceptedPlans(s) ensures id in AcceptedPlans(s') {
        assert PlanStays(s.plans[id], s'.plans[id]);
      }
    }
    assert AcceptedProposals(s) <= AcceptedProposals(s') by {
      forall id | id in AcceptedProposals(s) ensures id in AcceptedProposals(s') {
        assert ProposalStays(s.proposals[id], s'.proposals[id]);
      }
    }
    assert AcceptedImplementations(s) <= AcceptedImplementations(s') by {
      forall id | id in AcceptedImplementations(s) ensures id in AcceptedImplementations(s') {
        assert ImplementationStays(s.implementations[id], s'.implementations[id]);
      }
    }
    SubsetSize(AcceptedPlans(s), AcceptedPlans(s'));
    SubsetSize(AcceptedProposals(s), AcceptedProposals(s'));
    SubsetSize(AcceptedImplementations(s), AcceptedImplementations(s'));
  }

  /* ---------- Rollback ---------- */

  /** What a rollback stopped at change k, or completed when k is their number, leaves of the applied bytes. */
  ghost predicate RestoredUpTo(after: Tree, changes: seq<Change>, k: nat) {
    forall j :: 0 <= j < |changes| ==>
      && changes[j].path in after
      && (j < k ==> Sha256(after[changes[j].path]) == changes[j].preimage)
      && (j > k ==> after[changes[j].path] == changes[j].newContent)
  }

  /** The exact outcome of rolling back id, whatever the disk does: refused with nothing changed, or carried out up to the
      first restore write that does not land; its backups are never missing or wrong. */
  ghost predicate RollbackOutcome(s: State, id: Id, disk: Restorer)
    requires id in s.implementations && s.implementations[id].proposalId in s.proposals
  {
    var changes := s.proposals[s.implementations[id].proposalId].changes;
    var slots := Slots(id, changes);
    var call := ReviewImplementation(s, id, RollBack, disk);
    var k := FirstLost(slots, disk, 0);
    && (call.Succeeds() <==> StillApplied(s.tree, slots) && k == |slots|)
    && (!StillApplied(s.tree, slots) ==>
          call.after == s && (call.error == Some(RollbackPostimageChanged) || (call.error.Some? && call.error.value.Target?)))
    && (!call.Succeeds() ==> call.after == s.(tree := call.after.tree))
    && (StillApplied(s.tree, slots) ==>
          && (call.error.Some? ==> RestoreError(call.error.value))
          && RestoredUpTo(call.after.tree, changes, k)
          && (forall q :: OffTargets(slots, 0, |slots|, q) ==> SameAt(call.after.tree, s.tree, q)))
  }

  lemma ReachableRollback(s: State, id: Id, disk: Restorer)
    requires Reachable(s) && id in s.implementations && s.implementations[id].status == AppliedAwaitingReview
    ensures s.implementations[id].proposalId in s.proposals && RollbackOutcome(s, id, disk)
  {
    ReachableInv(s);
    InvRollback(s, id, disk);
  }

  lemma InvRollback(s: State, id: Id, disk: Restorer)
    requires Inv(s) && id in s.implementations && s.implementations[id].status == AppliedAwaitingReview
    ensures s.implementations[id].proposalId in s.proposals && RollbackOutcome(s, id, disk)
  {
    hide Inv, StillApplied, CheckTargets, RestoreFrom, ReviewImplementation, OffTargets;
    ImplementationInOrder(s, id);
    hide ProposalOk;
    var p := s.proposals[s.implementations[id].proposalId];
    var slots := Slots(id, p.changes);
    WellFormedOf(s, p);
    hide WellFormed;
    RollbackIsRefused(s, id, disk);
    CheckTargetsError(s.tree, p.changes, true, RollbackPostimageChanged);
    RollbackExactly(s, id, disk);
    if StillApplied(s.tree, slots) {
      var t := ReviewImplementation(s, id, RollBack, disk).after.tree;
      forall j | 0 <= j < |slots|
        ensures slots[j].change == p.changes[j] && p.changes[j].path in t
        ensures j < FirstLost(slots, disk, 0) ==> Sha256(t[p.changes[j].path]) == p.changes[j].preimage
        ensures j > FirstLost(slots, disk, 0) ==> t[p.changes[j].path] == p.changes[j].newContent
      {
        StillAppliedAt(s.tree, slots, j);
        assert Sha256(s.tree[slots[j].backup]) == slots[j].change.preimage;
      }
    }
  }

  lemma StillAppliedAt(tree: Tree, slots: seq<Slot>, j: nat)
    requires StillApplied(tree, slots) && j < |slots|
    ensures slots[j].change.path in tree && tree[slots[j].change.path] == slots[j].change.newContent
  {
    hide BlockedFile;
  }

  /* ---------- A half-restored implementation ---------- */

  /** The files a call may write. */
  ghost predicate MayWrite(s: State, op: Op, p: Path) {
    match op
    case OpApply(id, token, _) => ReadyToApply(s, id, token).Ok? && Targets(ReadyToApply(s, id, token).value.changes, p)
    case OpReviewImplementation(id, _, _) =>
      && id in s.implementations && s.implementations[id].proposalId in s.proposals
      && Targets(s.proposals[s.implementations[id].proposalId].changes, p)
    case OpEditSource(path, _) => path == p
    case _ => false
  }

  ghost predicate Targets(changes: seq<Change>, p: Path) {
    exists j :: 0 <= j < |changes| && changes[j].path == p
  }

  /** In the run, only reviews of id may write p. */
  ghost predicate LeftAlone(s: State, ops: seq<Op>, id: Id, p: Path)
    decreases |ops|
  {
    ops != [] ==>
      && Possible(s, ops[0])
      && (MayWrite(s, ops[0], p) ==> ops[0].OpReviewImplementation? && ops[0].id == id)
      && LeftAlone(Step(s, ops[0]).after, ops[1..], id, p)
  }

  /** Some target of pending implementation id does not hold its applied bytes. */
  ghost predicate Stuck(s: State, id: Id, p: Path) {
    && id in s.implementations && s.implementations[id].proposalId in s.proposals
    && (s.implementations[id].status == AppliedAwaitingReview || s.implementations[id].status == AcceptedImplementation)
    && !UnderBackups(p)
    && var changes := s.proposals[s.implementations[id].proposalId].changes;
       exists j :: 0 <= j < |changes| && changes[j].path == p && !Holds(s.tree, p, changes[j].postimage)
  }

  /** A call that may not write a source file leaves it as it was. */
  lemma StepFrame(s: State, op: Op, p: Path)
    requires Inv(s) && Possible(s, op) && !UnderBackups(p) && !MayWrite(s, op, p)
    ensures SameAt(Step(s, op).after.tree, s.tree, p)
  {
    hide UnderBackups, Targets, ReadTargets, ValidateProposal, HashedChanges, CheckTargets, ApprovedModel;
    hide Inv, ReadyToApply, ApplyImplementation, ReviewImplementation;
    match op
    case OpApply(id, token, disk) => ApplyLeaves(s, id, token, disk, p);
    case OpReviewImplementation(id, verdict, disk) => ReviewLeaves(s, id, verdict, disk, p);
    case _ =>
  }

  lemma ApplyLeaves(s: State, id: Id, token: string, disk: Disk, p: Path)
    requires Inv(s) && !UnderBackups(p) && !MayWrite(s, OpApply(id, token, disk), p)
    ensures SameAt(ApplyImplementation(s, id, token, disk).after.tree, s.tree, p)
  {
    hide UnderBackups, BackupPath, ReadyToApply, WriteFrom, Undo, Inv;
    if ReadyToApply(s, id, token).Ok? {
      ReadyProposal(s, id, token);
      var changes := ReadyToApply(s, id, token).value.changes;
      forall j | 0 <= j < |changes| ensures p != changes[j].path && p != BackupPath(id, changes[j].path) {
        BackupsNeverAlias(id, changes[j].path, id, p);
      }
      assert Untouched(Slots(id, changes), 0, p);
      ApplyFrame(s, id, token, disk, p);
    }
  }

  lemma ReviewLeaves(s: State, id: Id, verdict: ImplementationDecision, disk: Restorer, p: Path)
    requires Inv(s) && !MayWrite(s, OpReviewImplementation(id, verdict, disk), p)
    ensures SameAt(ReviewImplementation(s, id, verdict, disk).after.tree, s.tree, p)
  {
    hide Inv, CheckTargets, RestoreFrom, StillApplied;
    if id in s.implementations && s.implementations[id].status == AppliedAwaitingReview && verdict == RollBack {
      InvRollback(s, id, disk);
      assert OffTargets(Slots(id, s.proposals[s.implementations[id].proposalId].changes), 0,
                        |s.proposals[s.implementations[id].proposalId].changes|, p);
    }
  }

  /** A stuck implementation cannot be rolled back, whatever the disk does, and trying changes nothing. */
  lemma StuckRefuses(s: State, id: Id, p: Path, disk: Restorer)
    requires Inv(s) && Stuck(s, id, p)
    ensures !ReviewImplementation(s, id, RollBack, disk).Succeeds() && ReviewImplementation(s, id, RollBack, disk).after == s
  {
    hide Inv, RestoreFrom;
    if s.implementations[id].status == AppliedAwaitingReview {
      ImplementationInOrder(s, id);
      var changes := s.proposals[s.implementations[id].proposalId].changes;
      WellFormedOf(s, s.proposals[s.implementations[id].proposalId]);
      RollbackIsRefused(s, id, disk);
      CheckTargetsMeaning(s.tree, changes, true, RollbackPostimageChanged);
      hide CheckTargets, Holds;
      var j :| 0 <= j < |changes| && changes[j].path == p && !Holds(s.tree, p, changes[j].postimage);
      assert !Holds(s.tree, changes[j].path, Wanted(changes[j], true));
    }
  }

  lemma SameFileStaysStuck(s: State, s': State, id: Id, p: Path)
    requires Stuck(s, id, p) && Grows(s, s') && SameAt(s'.tree, s.tree, p)
    requires id in s'.implementations && InForce(s'.implementations[id].status)
    ensures Stuck(s', id, p)
  {
    hide Holds, UnderBackups;
    var pid := s.implementations[id].proposalId;
    assert ImplementationStays(s.implementations[id], s'.implementations[id]);
    assert ProposalStays(s.proposals[pid], s'.proposals[pid]);
    SameAtHolds(s.tree, s'.tree, p);
    var changes := s.proposals[pid].changes;
    var j :| 0 <= j < |changes| && changes[j].path == p && !Holds(s.tree, p, changes[j].postimage);
    assert !Holds(s'.tree, p, s'.proposals[pid].changes[j].postimage);
  }

  lemma StepKeepsStuck(s: State, op: Op, id: Id, p: Path)
    requires Inv(s) && Stuck(s, id, p) && Possible(s, op)
    requires MayWrite(s, op, p) ==> op.OpReviewImplementation? && op.id == id
    ensures Stuck(Step(s, op).after, id, p)
  {
    hide *;
    if op.OpReviewImplementation? && op.id == id {
      ReviewKeepsStuck(s, id, op.verdict, op.restorer, p);
      StepIsReview(s, id, op.verdict, op.restorer);
    } else {
      StepGrows(s, op);
      StuckIsInForce(s, id, p);
      StepKeepsStatus(s, op, id);
      StepFrame(s, op, p);
      SameFileStaysStuck(s, Step(s, op).after, id, p);
    }
  }

  lemma StuckIsInForce(s: State, id: Id, p: Path)
    requires Stuck(s, id, p)
    ensures id in s.implementations && InForce(s.implementations[id].status) && !UnderBackups(p)
  {
    hide UnderBackups, Holds;
  }

  lemma StepIsReview(s: State, id: Id, verdict: ImplementationDecision, disk: Restorer)
    ensures Possible(s, OpReviewImplementation(id, verdict, disk))
    ensures Step(s, OpReviewImplementation(id, verdict, disk)) == ReviewImplementation(s, id, verdict, disk)
  {
    hide ReviewImplementation;
  }

  lemma ReviewKeepsStuck(s: State, id: Id, verdict: ImplementationDecision, disk: Restorer, p: Path)
    requires Inv(s) && Stuck(s, id, p)
    ensures Stuck(ReviewImplementation(s, id, verdict, disk).after, id, p)
  {
    hide Inv, Holds, UnderBackups, CheckTargets, RestoreFrom;
    ReviewOfStuck(s, id, verdict, disk, p);
  }

  lemma ReviewOfStuck(s: State, id: Id, verdict: ImplementationDecision, disk: Restorer, p: Path)
    requires Inv(s) && Stuck(s, id, p)
    ensures ReviewImplementation(s, id, verdict, disk).after.tree == s.tree
    ensures ReviewImplementation(s, id, RollBack, disk).after == s
  {
    hide Inv, CheckTargets, RestoreFrom, UnderBackups, Holds;
    StuckRefuses(s, id, p, disk);
  }

  lemma SameAtHolds(a: Tree, b: Tree, p: Path)
    requires SameAt(b, a, p)
    ensures forall digest :: Holds(b, p, digest) <==> Holds(a, p, digest)
  {
    hide BlockedFile, Suffix, Lower, FileName;
  }

  /** Only a review of the implementation itself ends its pending or accepted state, and only by a rollback. */
  lemma StepKeepsStatus(s: State, op: Op, id: Id)
    requires Possible(s, op) && id in s.implementations
    requires InForce(s.implementations[id].status)
    ensures var s' := Step(s, op).after;
            && id in s'.implementations
            && (InForce(s'.implementations[id].status)
                || (op.OpReviewImplementation? && op.id == id && op.verdict == RollBack && Step(s, op).Succeeds()))
            && (s.implementations[id].status == AppliedAwaitingReview && !(op.OpReviewImplementation? && op.id == id) ==>
                  s'.implementations[id].status == AppliedAwaitingReview)
  {
    hide ReadTargets, ValidateProposal, HashedChanges, CheckTargets, ApprovedModel, UnderBackups, WriteFrom, Undo, RestoreFrom,
         Holds, SafeTarget;
  }

  /** Once a restore has been stopped with a target no longer holding the applied bytes, no later rollback of that
      implementation succeeds, in any run in which nothing else writes that file. */
  lemma {:induction false} HalfRestoredIsStuck(s: State, ops: seq<Op>, s': State, id: Id, p: Path, disk: Restorer)
    requires Inv(s) && Run(s, ops, s') && Stuck(s, id, p) && LeftAlone(s, ops, id, p)
    ensures Stuck(s', id, p) && !ReviewImplementation(s', id, RollBack, disk).Succeeds()
    decreases |ops|
  {
    hide Inv, Stuck, Step, MayWrite, ReviewImplementation;
    if ops == [] {
      StuckRefuses(s, id, p, disk);
    } else {
      StepKeeps(s, ops[0]);
      StepKeepsStuck(s, ops[0], id, p);
      HalfRestoredIsStuck(Step(s, ops[0]).after, ops[1..], s', id, p, disk);
    }
  }

  /** Stopped by the disk, a rollback may be repeated with success exactly when it had put nothing back;
      otherwise it has left the implementation stuck. */
  lemma StoppedRollbackIsStuckIff(s: State, id: Id, disk: Restorer)
    requires Reachable(s) && id in s.implementations && s.implementations[id].status == AppliedAwaitingReview
    requires s.implementations[id].proposalId in s.proposals
    requires var slots := Slots(id, s.proposals[s.implementations[id].proposalId].changes);
             StillApplied(s.tree, slots) && FirstLost(slots, disk, 0) < |slots|
    ensures var changes := s.proposals[s.implementations[id].proposalId].changes;
            var t := ReviewImplementation(s, id, RollBack, disk).after;
            && (RestoredNothing(changes, disk, FirstLost(Slots(id, changes), disk, 0)) <==>
                  ReviewImplementation(t, id, RollBack, []).Succeeds())
            && (ReviewImplementation(t, id, RollBack, []).Succeeds() <==> !exists p :: Stuck(t, id, p))
  {
    ReachableInv(s);
    hide Inv, ReviewImplementation, BackedUp, SameSources, HumanApproved, WellFormed, StillApplied, RestoredNothing, Stuck,
         RestoredUpTo, OffTargets, SameAt;
    var t := ReviewImplementation(s, id, RollBack, disk).after;
    ImplementationInOrder(s, id);
    WellFormedOf(s, s.proposals[s.implementations[id].proposalId]);
    RollbackIsAllOrNothingIff(s, id, disk);
    InvRollback(s, id, disk);
    hide ImplementationOk, ProposalOk;
    ReviewImplementationKeeps(s, id, RollBack, disk);
    if SameSources(s.tree, t.tree) {
      RetrySucceeds(s, t, id);
      if p :| Stuck(t, id, p) { StuckRefuses(t, id, p, []); }
    } else {
      var p := SomeStuckFile(s, t, id);
      StuckRefuses(t, id, p, []);
    }
  }

  lemma RetrySucceeds(s: State, t: State, id: Id)
    requires Inv(s) && Inv(t) && id in s.implementations && s.implementations[id].status == AppliedAwaitingReview
    requires s.implementations[id].proposalId in s.proposals
    requires t == s.(tree := t.tree) && SameSources(s.tree, t.tree)
    requires StillApplied(s.tree, Slots(id, s.proposals[s.implementations[id].proposalId].changes))
    ensures ReviewImplementation(t, id, RollBack, []).Succeeds()
  {
    hide Inv, ReviewImplementation, UnderBackups, BlockedFile, BackupPath, Suffix, Lower, FileName;
    InvRollback(t, id, []);
    var changes := s.proposals[s.implementations[id].proposalId].changes;
    var slots := Slots(id, changes);
    forall j | 0 <= j < |slots| ensures SafeTarget(t.tree, slots[j].change.path) == Ok(slots[j].change.newContent) {
      assert SafeTarget(s.tree, slots[j].change.path) == Ok(slots[j].change.newContent);
      BackupsNeverAlias(id, slots[j].change.path, id, slots[j].change.path);
    }
    assert FirstLost(slots, [], 0) == |slots|;
  }

  lemma SameAtSymmetric(a: Tree, b: Tree, p: Path)
    ensures SameAt(a, b, p) <==> SameAt(b, a, p)
  {
  }

  /** A target left with other bytes than the applied ones. */
  lemma SomeStuckFile(s: State, t: State, id: Id) returns (p: Path)
    requires Inv(s) && id in s.implementations && s.implementations[id].status == AppliedAwaitingReview
    requires s.implementations[id].proposalId in s.proposals
    requires t == s.(tree := t.tree) && !SameSources(s.tree, t.tree)
    requires var slots := Slots(id, s.proposals[s.implementations[id].proposalId].changes);
             && StillApplied(s.tree, slots)
             && (forall q :: OffTargets(slots, 0, |slots|, q) ==> SameAt(t.tree, s.tree, q))
    ensures Stuck(t, id, p)
  {
    hide Inv, UnderBackups, BlockedFile, Suffix, Lower, FileName, BackupPath;
    ImplementationInOrder(s, id);
    hide ImplementationOk, HumanApproved;
    var changes := s.proposals[s.implementations[id].proposalId].changes;
    var slots := Slots(id, changes);
    WellFormedOf(s, s.proposals[s.implementations[id].proposalId]);
    p :| !UnderBackups(p) && !SameAt(s.tree, t.tree, p);
    SameAtSymmetric(t.tree, s.tree, p);
    assert !SameAt(t.tree, s.tree, p);
    assert !OffTargets(slots, 0, |slots|, p);
    var j :| 0 <= j < |slots| && slots[j].change.path == p;
    assert SafeTarget(s.tree, slots[j].change.path) == Ok(slots[j].change.newContent);
    assert changes[j].path == p && !Holds(t.tree, p, changes[j].postimage);
  }
}
