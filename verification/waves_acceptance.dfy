/**
 What accepting an applied implementation says of its files. Acceptance looks at the records alone, so it says as much as
 the rollbacks attempted before it have left.
 */
module WavesAcceptance {
  import opened Common
  import opened SourceTree
  import opened Waves
  import opened WavesApply
  import opened WavesRuns
  import opened WavesClaims
  import WavesSessions

  predicate Pending(s: State, id: Id) {
    && id in s.implementations && s.implementations[id].status == AppliedAwaitingReview
    && s.implementations[id].proposalId in s.proposals
  }

  function ChangesOf(s: State, id: Id): seq<Change>
    requires id in s.implementations && s.implementations[id].proposalId in s.proposals
  {
    s.proposals[s.implementations[id].proposalId].changes
  }

  /** Every target is an admissible file with the applied bytes. */
  ghost predicate InPlace(s: State, id: Id)
    requires id in s.implementations && s.implementations[id].proposalId in s.proposals
  {
    StillApplied(s.tree, Slots(id, ChangesOf(s, id)))
  }

  predicate RollsBack(op: Op, id: Id) {
    op.OpReviewImplementation? && op.id == id && op.verdict == RollBack
  }

  /** A rollback on this disk is stopped before it has put anything back. */
  predicate StopsAtNothing(id: Id, changes: seq<Change>, disk: Restorer) {
    var k := FirstLost(Slots(id, changes), disk, 0);
    k < |changes| && RestoredNothing(changes, disk, k)
  }

  /** So are all the rollbacks of id among these calls. */
  predicate PutNothingBack(ops: seq<Op>, id: Id, changes: seq<Change>) {
    ops != [] ==>
      (RollsBack(ops[0], id) ==> StopsAtNothing(id, changes, ops[0].restorer)) && PutNothingBack(ops[1..], id, changes)
  }

  /** Nothing but reviews of id may write one of its targets. */
  ghost predicate TargetsLeftAlone(s: State, ops: seq<Op>, id: Id, changes: seq<Change>) {
    forall p :: Targets(changes, p) ==> LeftAlone(s, ops, id, p)
  }

  /** Acceptance looks at no file: a pending implementation is accepted whatever its files hold, counts for the progress of
      the project, and leaves the tree as it is. */
  lemma AcceptanceLooksAtNoFile(s: State, id: Id, disk: Restorer)
    requires Pending(s, id)
    ensures var call := ReviewImplementation(s, id, AcceptIt, disk);
            && call.Succeeds() && call.after.tree == s.tree && call.after.proposals == s.proposals
            && call.after.implementations == s.implementations[id := s.implementations[id].(status := AcceptedImplementation)]
            && AcceptedImplementations(call.after) == AcceptedImplementations(s) + {id}
            && id !in AcceptedImplementations(s)
  {
    hide CheckTargets, RestoreFrom;
  }

  /** So one that a stopped rollback has left half restored can be accepted, and stays so. */
  lemma HalfRestoredCanBeAccepted(s: State, id: Id, p: Path, disk: Restorer)
    requires Pending(s, id) && Stuck(s, id, p)
    ensures var call := ReviewImplementation(s, id, AcceptIt, disk);
            && call.Succeeds() && Stuck(call.after, id, p)
            && Progress(call.after) == if Progress(s) + 35 < 100 then Progress(s) + 35 else 100
  {
    AcceptanceLooksAtNoFile(s, id, disk);
    hide CheckTargets, RestoreFrom, UnderBackups, Holds;
    var t := ReviewImplementation(s, id, AcceptIt, disk).after;
    assert AcceptedPlans(t) == AcceptedPlans(s) && AcceptedProposals(t) == AcceptedProposals(s);
  }

  /** What was applied is in place as long as its contents are small enough to be targets. */
  lemma AppliedIsInPlaceIff(s: State, id: Id, token: string, disk: Disk)
    requires Inv(s) && ApplyImplementation(s, id, token, disk).Succeeds()
    ensures var t := ApplyImplementation(s, id, token, disk).after;
            Pending(t, id) && (InPlace(t, id) <==> WavesSessions.Fits(ChangesOf(t, id)))
  {
    hide Inv, Grows, ApplyImplementation, ReadyToApply, ReviewImplementation, StillApplied, LandsAt, WavesSessions.Fits;
    WavesSessions.AppliedWasReady(s, id, token, disk);
    var t := ApplyImplementation(s, id, token, disk).after;
    ApplyKeeps(s, id, token, disk);
    ReadyProposal(s, id, token);
    ApplyGrows(s, id, token, disk);
    WavesSessions.SameChanges(s, t, id);
    WavesSessions.GrowsReflexive(t);
    WavesSessions.SameSourcesReflexive(t.tree);
    WavesSessions.Bracket(s, id, token, disk, t, [], {});
    InvRollback(t, id, []);
    NothingIsLost(Slots(id, ChangesOf(t, id)), 0);
    WavesSessions.AllLandMeans(id, ChangesOf(t, id), []);
  }

  /** From the moment an implementation stands applied, through any calls of which only its own reviews may write its files:
      it can be accepted if it is still pending, and its applied bytes are then in place exactly when every rollback of it
      was stopped before it put anything back, which is when a rollback in place of the acceptance would have succeeded. */
  lemma AcceptedIsInPlaceIff(s: State, ops: seq<Op>, s': State, id: Id, disk: Restorer)
    requires Inv(s) && Pending(s, id) && InPlace(s, id) && Run(s, ops, s') && Pending(s', id)
    requires TargetsLeftAlone(s, ops, id, ChangesOf(s, id))
    ensures var call := ReviewImplementation(s', id, AcceptIt, disk);
            && call.Succeeds() && ChangesOf(s', id) == ChangesOf(s, id)
            && (InPlace(call.after, id) <==> PutNothingBack(ops, id, ChangesOf(s, id)))
            && (InPlace(call.after, id) <==> ReviewImplementation(s', id, RollBack, []).Succeeds())
            && (InPlace(call.after, id) <==> !exists p :: Stuck(call.after, id, p))
  {
    hide Inv, Stuck, TargetsLeftAlone, StillApplied, Run, PutNothingBack, ReviewImplementation;
    PendingIsInPlaceIff(s, ops, s', id);
    AcceptanceLooksAtNoFile(s', id, disk);
    var t := ReviewImplementation(s', id, AcceptIt, disk).after;
    RunKeeps(s, ops, s');
    InvRollback(s', id, []);
    assert InPlace(t, id) <==> InPlace(s', id);
    NothingIsLost(Slots(id, ChangesOf(s', id)), 0);
    forall p ensures Stuck(t, id, p) <==> Stuck(s', id, p) {
      SameFilesSameStuck(s', t, id, p);
    }
  }

  lemma NothingIsLost(slots: seq<Slot>, i: nat)
    requires i <= |slots|
    ensures FirstLost(slots, [], i) == |slots|
    decreases |slots| - i
  {
  }

  lemma SameFilesSameStuck(s: State, t: State, id: Id, p: Path)
    requires Pending(s, id) && t.tree == s.tree && t.proposals == s.proposals
    requires t.implementations == s.implementations[id := s.implementations[id].(status := AcceptedImplementation)]
    ensures Stuck(t, id, p) <==> Stuck(s, id, p)
  {
    hide UnderBackups, Holds;
  }

  /** The invariant of such a run: in place and nothing put back so far, or stuck. */
  lemma {:induction false} PendingIsInPlaceIff(s: State, ops: seq<Op>, s': State, id: Id)
    requires Inv(s) && Pending(s, id) && InPlace(s, id) && Run(s, ops, s') && Pending(s', id)
    requires TargetsLeftAlone(s, ops, id, ChangesOf(s, id))
    ensures ChangesOf(s', id) == ChangesOf(s, id)
    ensures InPlace(s', id) <==> PutNothingBack(ops, id, ChangesOf(s, id))
    ensures !InPlace(s', id) <==> exists p :: Stuck(s', id, p)
    decreases |ops|
  {
    hide Inv, Stuck, Step, MayWrite, StillApplied, TargetsLeftAlone, StopsAtNothing;
    if ops == [] {
      forall p ensures !Stuck(s, id, p) { InPlaceIsNotStuck(s, id, p); }
    } else {
      var t, rest := Step(s, ops[0]).after, ops[1..];
      StepKeeps(s, ops[0]);
      LeftAloneNext(s, ops, id, ChangesOf(s, id));
      StaysPending(s, ops, s', id);
      if RollsBack(ops[0], id) && !StopsAtNothing(id, ChangesOf(s, id), ops[0].restorer) {
        var p := PutsSomethingBack(s, ops[0], id);
        StuckToTheEnd(s, t, rest, s', id, p);
      } else {
        StepKeepsInPlace(s, ops[0], id);
        PendingIsInPlaceIff(t, rest, s', id);
      }
    }
  }

  lemma InPlaceIsNotStuck(s: State, id: Id, p: Path)
    requires Inv(s) && Pending(s, id) && InPlace(s, id)
    ensures !Stuck(s, id, p)
  {
    hide *;
    if Stuck(s, id, p) {
      StuckRefuses(s, id, p, []);
      InPlaceRollsBack(s, id);
    }
  }

  lemma InPlaceRollsBack(s: State, id: Id)
    requires Inv(s) && Pending(s, id) && InPlace(s, id)
    ensures ReviewImplementation(s, id, RollBack, []).Succeeds()
  {
    hide Inv, StillApplied, ReviewImplementation;
    InvRollback(s, id, []);
    NothingIsLost(Slots(id, ChangesOf(s, id)), 0);
  }

  lemma LeftAloneNext(s: State, ops: seq<Op>, id: Id, changes: seq<Change>)
    requires ops != [] && Possible(s, ops[0]) && TargetsLeftAlone(s, ops, id, changes)
    ensures TargetsLeftAlone(Step(s, ops[0]).after, ops[1..], id, changes)
    ensures forall p :: Targets(changes, p) && MayWrite(s, ops[0], p) ==> ops[0].OpReviewImplementation? && ops[0].id == id
  {
    hide Step, MayWrite, Targets;
    assert forall p :: Targets(changes, p) ==> LeftAlone(s, ops, id, p);
  }

  /** What is pending at the end was pending all along, and its changes are those it had. */
  lemma StaysPending(s: State, ops: seq<Op>, s': State, id: Id)
    requires Inv(s) && Pending(s, id) && ops != [] && Run(s, ops, s') && Pending(s', id)
    ensures var t := Step(s, ops[0]).after;
            Pending(t, id) && ChangesOf(t, id) == ChangesOf(s, id) == ChangesOf(s', id)
    ensures RollsBack(ops[0], id) ==> !Step(s, ops[0]).Succeeds()
  {
    var t := Step(s, ops[0]).after;
    StepGrows(s, ops[0]);
    RunGrows(t, ops[1..], s');
    StepStatus(s, ops[0], id);
    hide Step, Inv, Run;
    assert ImplementationStays(s.implementations[id], t.implementations[id]);
    assert ImplementationStays(t.implementations[id], s'.implementations[id]);
    var pid := s.implementations[id].proposalId;
    assert ProposalStays(s.proposals[pid], t.proposals[pid]);
    assert ProposalStays(t.proposals[pid], s'.proposals[pid]);
  }

  lemma StepStatus(s: State, op: Op, id: Id)
    requires Inv(s) && Pending(s, id) && Possible(s, op)
    ensures var t := Step(s, op).after;
            && id in t.implementations
            && t.implementations[id].status in {AppliedAwaitingReview, AcceptedImplementation, RolledBack}
            && (RollsBack(op, id) && Step(s, op).Succeeds() ==> t.implementations[id].status == RolledBack)
  {
    hide Inv, Step, ReviewImplementation;
    StepKeepsStatus(s, op, id);
    if op.OpReviewImplementation? && op.id == id {
      StepIsReview(s, id, op.verdict, op.restorer);
      if ReviewImplementation(s, id, op.verdict, op.restorer).Succeeds() {
        ReviewEffect(s, id, op.verdict, op.restorer);
      }
    }
  }

  lemma PutsSomethingBack(s: State, op: Op, id: Id) returns (p: Path)
    requires Inv(s) && Pending(s, id) && InPlace(s, id) && RollsBack(op, id) && !Step(s, op).Succeeds()
    requires !StopsAtNothing(id, ChangesOf(s, id), op.restorer)
    ensures Stuck(Step(s, op).after, id, p) && Targets(ChangesOf(s, id), p)
  {
    hide Inv, Step, ReviewImplementation, StillApplied, RestoredNothing, SameSources, BackedUp, WellFormed, Stuck, OffTargets;
    StepIsReview(s, id, RollBack, op.restorer);
    InvRollback(s, id, op.restorer);
    ImplementationInOrder(s, id);
    WellFormedOf(s, s.proposals[s.implementations[id].proposalId]);
    RollbackIsAllOrNothingIff(s, id, op.restorer);
    p := SomeStuckFile(s, Step(s, op).after, id);
    StuckIsATarget(Step(s, op).after, id, p);
  }

  lemma StuckIsATarget(s: State, id: Id, p: Path)
    requires Stuck(s, id, p)
    ensures id in s.implementations && s.implementations[id].proposalId in s.proposals && Targets(ChangesOf(s, id), p)
  {
    hide Holds, UnderBackups;
  }

  lemma StuckToTheEnd(s: State, t: State, rest: seq<Op>, s': State, id: Id, p: Path)
    requires Inv(t) && Run(t, rest, s') && Pending(s', id) && Stuck(t, id, p) && Targets(ChangesOf(t, id), p)
      requires TargetsLeftAlone(t, rest, id, ChangesOf(t, id))
    ensures Stuck(s', id, p) && !InPlace(s', id)
  {
    RunKeeps(t, rest, s');
    hide Inv, Run, Stuck, LeftAlone, StillApplied, Targets;
    HalfRestoredIsStuck(t, rest, s', id, p, []);
    if InPlace(s', id) { InPlaceIsNotStuck(s', id, p); }
  }

  lemma StepKeepsInPlace(s: State, op: Op, id: Id)
    requires Inv(s) && Pending(s, id) && InPlace(s, id) && Possible(s, op)
    requires Pending(Step(s, op).after, id) && ChangesOf(Step(s, op).after, id) == ChangesOf(s, id)
    requires RollsBack(op, id) ==> !Step(s, op).Succeeds() && StopsAtNothing(id, ChangesOf(s, id), op.restorer)
    requires forall p :: Targets(ChangesOf(s, id), p) && MayWrite(s, op, p) ==> op.OpReviewImplementation? && op.id == id
    ensures InPlace(Step(s, op).after, id)
  {
    hide Inv, Step, MayWrite, StillApplied, ReviewImplementation, SameSources, BackedUp, WellFormed, RestoredNothing, SameAt,
         UnderBackups;
    var t := Step(s, op).after;
    var changes := ChangesOf(s, id);
    ImplementationInOrder(s, id);
    WellFormedOf(s, s.proposals[s.implementations[id].proposalId]);
    StillAppliedIsSafe(s.tree, id, changes);
    forall j | 0 <= j < |changes| ensures SameAt(t.tree, s.tree, changes[j].path) {
      var p := changes[j].path;
      assert Targets(changes, p);
      BackupsNeverAlias(id, p, id, p);
      if RollsBack(op, id) {
        StepIsReview(s, id, RollBack, op.restorer);
        RollbackIsAllOrNothingIff(s, id, op.restorer);
        SameSourceAt(s.tree, t.tree, p);
      } else {
        assert !(op.OpReviewImplementation? && op.id == id) by {
          if op.OpReviewImplementation? && op.id == id { NoLongerPending(s, op, id); }
        }
        StepFrame(s, op, p);
      }
    }
    SameTargetsInPlace(s.tree, t.tree, Slots(id, changes));
  }

  lemma NoLongerPending(s: State, op: Op, id: Id)
    requires Pending(s, id) && Possible(s, op) && op.OpReviewImplementation? && op.id == id && op.verdict == AcceptIt
    ensures !Pending(Step(s, op).after, id)
  {
    hide Step, ReviewImplementation;
    StepIsReview(s, id, AcceptIt, op.restorer);
    AcceptanceLooksAtNoFile(s, id, op.restorer);
  }

  lemma SameSourceAt(a: Tree, b: Tree, p: Path)
    requires SameSources(a, b) && !UnderBackups(p)
    ensures SameAt(b, a, p)
  {
    hide UnderBackups;
  }

  lemma SameTargetsInPlace(a: Tree, b: Tree, slots: seq<Slot>)
    requires StillApplied(a, slots) && forall j :: 0 <= j < |slots| ==> SameAt(b, a, slots[j].change.path)
    ensures StillApplied(b, slots)
  {
    hide BlockedFile, Suffix, Lower, FileName;
    forall j | 0 <= j < |slots| ensures SafeTarget(b, slots[j].change.path) == Ok(slots[j].change.newContent) {
      assert SafeTarget(a, slots[j].change.path) == Ok(slots[j].change.newContent);
    }
  }
}
