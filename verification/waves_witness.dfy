/**
 Runs of the pipeline, from any tree and for any edits that pass validation, to an applied implementation; and two that
 end badly: one that can never be rolled back, and one whose rollback the disk stops half way.
 */
module WavesWitness {
  import opened Common
  import opened SourceTree
  import opened Waves
  import opened WavesApply
  import opened WavesRuns
  import opened WavesClaims
  import WavesAcceptance
  import WavesSessions

  /** A tree, what is to replace some of its files, and the names used on the way. */
  datatype Scene = Scene(
    tree: Tree, edits: seq<Edit>, model: Id, digest: string, person: string, body: string,
    plan: Id, proposal: Id, impl: Id, token: string)

  /** The edits are within the limits of a request and of a proposal. */
  ghost predicate Staged(x: Scene) {
    && 1 <= |x.edits| <= MAX_TARGET_FILES && x.digest != "" && Bytes(x.edits) <= MAX_PROPOSAL_BYTES
    && (forall i :: 0 <= i < |x.edits| ==> SafeTarget(x.tree, x.edits[i].path).Ok?)
    && (forall i, j :: 0 <= i < j < |x.edits| ==> x.edits[i].path != x.edits[j].path)
  }

  function Paths(edits: seq<Edit>): seq<Path> {
    seq(|edits|, i requires 0 <= i < |edits| => edits[i].path)
  }

  function Preimage(tree: Tree, p: Path): Digest<Content> {
    Sha256(if p in tree then tree[p] else [])
  }

  function TheChanges(x: Scene): (changes: seq<Change>)
    ensures |changes| == |x.edits|
    ensures forall i :: 0 <= i < |changes| ==>
              changes[i] == Change(x.edits[i].path, Preimage(x.tree, x.edits[i].path), x.edits[i].newContent,
                                   Sha256(x.edits[i].newContent))
  {
    seq(|x.edits|, i requires 0 <= i < |x.edits| =>
      Change(x.edits[i].path, Preimage(x.tree, x.edits[i].path), x.edits[i].newContent, Sha256(x.edits[i].newContent)))
  }

  function Registry(x: Scene): State {
    State(x.tree, map[x.model := Model(Registered, None, None)], map[], map[], map[], [])
  }

  function ThePlan(x: Scene, status: ReviewStatus): Plan { Plan(status, x.body, x.model, x.digest) }

  function TheCore(x: Scene): ProposalCore { ProposalCore(x.plan, HashedChanges(TheChanges(x)), x.digest) }

  function TheProposal(x: Scene, status: ReviewStatus, applied: bool): Proposal {
    Proposal(x.plan, status, TheChanges(x), x.model, x.digest, Sha256(TheCore(x)), applied)
  }

  function TheImplementation(x: Scene): Implementation {
    Implementation(x.proposal, ApprovedForApply, x.person, Sha256(x.token), Some(x.token), Sha256(TheCore(x)))
  }

  /** The state after the model is approved. */
  function WithModel(x: Scene): State {
    Registry(x).(models := map[x.model := Model(PlanningApproved, Some(x.digest), Some(x.digest))],
                 evidence := [ModelApproved(x.model, x.digest, x.person)])
  }

  function WithPlan(x: Scene, status: ReviewStatus): State {
    WithModel(x).(plans := map[x.plan := ThePlan(x, status)])
  }

  function WithProposal(x: Scene, status: ReviewStatus): State {
    WithPlan(x, Accepted).(proposals := map[x.proposal := TheProposal(x, status, false)])
  }

  function WithImplementation(x: Scene): State {
    WithProposal(x, Accepted).(implementations := map[x.impl := TheImplementation(x)])
  }

  /** And after it is applied. */
  function Applied(x: Scene): State {
    ApplyImplementation(WithImplementation(x), x.impl, x.token, WORKING_DISK).after
  }

  lemma ModelIsApproved(x: Scene)
    requires x.digest != ""
    ensures ApproveModel(ProbeModels(Registry(x), map[x.model := Some(x.digest)]).after, x.model, x.person).after == WithModel(x)
  {
    var probed := ProbeModels(Registry(x), map[x.model := Some(x.digest)]).after;
    assert probed.models == map[x.model := Model(Available, Some(x.digest), None)];
  }

  lemma PlanIsAccepted(x: Scene)
    requires x.digest != ""
    ensures GeneratePlan(WithModel(x), x.plan, x.model, Some(x.body)).after == WithPlan(x, HumanReview)
    ensures ReviewPlan(WithPlan(x, HumanReview), x.plan, Accept).after == WithPlan(x, Accepted)
  {
  }

  lemma {:induction false} TargetsAreRead(tree: Tree, edits: seq<Edit>)
    requires forall i :: 0 <= i < |edits| ==> SafeTarget(tree, edits[i].path).Ok?
    requires forall i, j :: 0 <= i < j < |edits| ==> edits[i].path != edits[j].path
    ensures var r := ReadTargets(tree, Paths(edits));
            && r.Ok? && (forall p :: p in r.value <==> Touches(edits, p))
            && (forall p :: p in r.value ==> r.value[p] == Preimage(tree, p))
  {
    hide BlockedFile, TextExtension, Suffix, Lower;
    if edits != [] {
      var n := |edits| - 1;
      TargetsAreRead(tree, edits[..n]);
      assert Paths(edits)[..n] == Paths(edits[..n]);
      TouchesOneMore(edits);
    }
  }

  lemma TouchesOneMore(edits: seq<Edit>)
    requires edits != []
    ensures forall p :: Touches(edits, p) <==> Touches(edits[..|edits| - 1], p) || p == edits[|edits| - 1].path
  {
    var n := |edits| - 1;
    forall p ensures Touches(edits, p) <==> Touches(edits[..n], p) || p == edits[n].path {
      if i :| 0 <= i < |edits| && edits[i].path == p {
        assert i < n ==> edits[..n][i].path == p;
      }
      if i :| 0 <= i < n && edits[..n][i].path == p {
        assert edits[i].path == p;
      }
    }
  }

  lemma EditsAreValid(x: Scene)
    requires Staged(x)
    ensures var targets := ReadTargets(x.tree, Paths(x.edits));
            targets.Ok? && ValidateProposal(targets.value, x.edits) == Ok(TheChanges(x))
  {
    TargetsAreRead(x.tree, x.edits);
    hide SafeTarget, ReadTargets;
    EditsMatchTargets(ReadTargets(x.tree, Paths(x.edits)).value, x);
  }

  lemma EditsMatchTargets(targets: map<Path, Digest<Content>>, x: Scene)
    requires Bytes(x.edits) <= MAX_PROPOSAL_BYTES && x.edits != []
    requires forall i, j :: 0 <= i < j < |x.edits| ==> x.edits[i].path != x.edits[j].path
    requires forall p :: p in targets <==> Touches(x.edits, p)
    requires forall p :: p in targets ==> targets[p] == Preimage(x.tree, p)
    ensures ValidateProposal(targets, x.edits) == Ok(TheChanges(x))
  {
    hide NormalizeEdits, Preimage, Bytes;
    NormalizeEditsMeaning(targets, x.edits);
    forall i | 0 <= i < |x.edits| ensures x.edits[i].path in targets { assert Touches(x.edits, x.edits[i].path); }
    var r := NormalizeEdits(targets, x.edits);
    assert r.Ok? && r.value == TheChanges(x);
  }

  lemma ProposalIsAccepted(x: Scene)
    requires Staged(x)
    ensures GenerateProposal(WithPlan(x, Accepted), x.proposal, x.plan, x.model, Paths(x.edits), x.edits).after
            == WithProposal(x, HumanReview)
    ensures ReviewProposal(WithProposal(x, HumanReview), x.proposal, Accept).after == WithProposal(x, Accepted)
  {
    EditsAreValid(x);
    hide SafeTarget, ReadTargets, ValidateProposal, HashedChanges, TheChanges;
  }

  lemma PreimagesHold(x: Scene)
    requires Staged(x)
    ensures forall stale :: CheckTargets(x.tree, TheChanges(x), false, stale) == None
  {
    hide BlockedFile, TextExtension, Suffix, Lower, TheChanges, CheckTargets;
    forall stale ensures CheckTargets(x.tree, TheChanges(x), false, stale) == None {
      CheckTargetsMeaning(x.tree, TheChanges(x), false, stale);
    }
  }

  lemma ImplementationIsPrepared(x: Scene)
    requires Staged(x)
    ensures PrepareImplementation(WithProposal(x, Accepted), x.impl, x.proposal, x.person, x.token).after == WithImplementation(x)
  {
    PreimagesHold(x);
    hide SafeTarget, CheckTargets, HashedChanges, TheChanges;
  }

  lemma ImplementationIsReady(x: Scene)
    requires Staged(x)
    ensures ReadyToApply(WithImplementation(x), x.impl, x.token) == Ok(TheProposal(x, Accepted, false))
  {
    PreimagesHold(x);
    hide SafeTarget, CheckTargets, HashedChanges, TheChanges;
  }

  lemma {:induction false} WorkingDiskWrites(tree: Tree, slots: seq<Slot>, i: nat)
    requires i <= |slots| && Present(tree, slots)
    requires forall j :: 0 <= j < |slots| ==> slots[j].change.postimage == Sha256(slots[j].change.newContent)
    ensures WriteFrom(tree, slots, WORKING_DISK, i).failed == |slots|
    decreases |slots| - i
  {
    if i < |slots| {
      assert IoAt(WORKING_DISK, slots, i) == Lands(slots[i].change.newContent);
      WorkingDiskWrites(BackUpAndReplace(tree, slots[i], slots[i].change.newContent), slots, i + 1);
    }
  }

  lemma AllPresent(x: Scene)
    requires Staged(x)
    ensures Present(x.tree, Slots(x.impl, TheChanges(x)))
  {
    hide BlockedFile, TextExtension, Suffix, Lower, TheChanges;
  }

  lemma ImplementationIsApplied(x: Scene)
    requires Staged(x)
    ensures ApplyImplementation(WithImplementation(x), x.impl, x.token, WORKING_DISK).Succeeds()
    ensures Applied(x).plans == map[x.plan := ThePlan(x, Accepted)]
    ensures Applied(x).proposals == map[x.proposal := TheProposal(x, Accepted, true)]
    ensures Applied(x).implementations == map[x.impl := TheImplementation(x).(status := AppliedAwaitingReview, token := None)]
  {
    hide ReadyToApply, SafeTarget, HashedChanges, WriteFrom, TheChanges;
    ImplementationIsReady(x);
    AllPresent(x);
    WorkingDiskWrites(x.tree, Slots(x.impl, TheChanges(x)), 0);
  }

  ghost predicate Leads(s: State, s': State) {
    exists ops :: Run(s, ops, s')
  }

  lemma LeadsOn(s: State, s': State, op: Op)
    requires Leads(s, s') && Possible(s', op)
    ensures Leads(s, Step(s', op).after)
  {
    hide Step, Possible;
    var ops :| Run(s, ops, s');
    RunOneMore(s, ops, s', op);
  }

  lemma {:induction false} RunOneMore(s: State, ops: seq<Op>, s': State, op: Op)
    requires Run(s, ops, s') && Possible(s', op)
    ensures Run(s, ops + [op], Step(s', op).after)
    decreases |ops|
  {
    hide Step, Possible;
    if ops == [] {
      NoCalls(Step(s', op).after);
      assert ops + [op] == [op] && [op][1..] == [];
    } else {
      RunOneMore(Step(s, ops[0]).after, ops[1..], s', op);
      assert (ops + [op])[1..] == ops[1..] + [op];
    }
  }

  lemma FourCalls(x: Scene)
    requires x.digest != ""
    ensures Leads(Registry(x), WithPlan(x, Accepted))
  {
    hide ProbeModels, ApproveModel, GeneratePlan, ReviewPlan, Run, ThePlan;
    ModelIsApproved(x);
    PlanIsAccepted(x);
    assert Leads(Registry(x), Registry(x)) by { assert Run(Registry(x), [], Registry(x)) by { NoCalls(Registry(x)); } }
    hide Leads;
    var probe := OpProbe(map[x.model := Some(x.digest)]);
    LeadsOn(Registry(x), Registry(x), probe);
    LeadsOn(Registry(x), Step(Registry(x), probe).after, OpApproveModel(x.model, x.person));
    LeadsOn(Registry(x), WithModel(x), OpPlan(x.plan, x.model, Some(x.body)));
    LeadsOn(Registry(x), WithPlan(x, HumanReview), OpReviewPlan(x.plan, Accept));
  }

  lemma NoCalls(s: State)
    ensures Run(s, [], s)
  {
  }

  lemma SevenCalls(x: Scene)
    requires Staged(x)
    ensures Leads(Registry(x), WithImplementation(x))
  {
    hide SafeTarget, HashedChanges, GenerateProposal, ReviewProposal, PrepareImplementation, Leads, TheProposal,
         TheImplementation, TheChanges;
    FourCalls(x);
    ProposalIsAccepted(x);
    ImplementationIsPrepared(x);
    LeadsOn(Registry(x), WithPlan(x, Accepted), OpProposal(x.proposal, x.plan, x.model, Paths(x.edits), x.edits));
    LeadsOn(Registry(x), WithProposal(x, HumanReview), OpReviewProposal(x.proposal, Accept));
    LeadsOn(Registry(x), WithProposal(x, Accepted), OpPrepare(x.impl, x.proposal, x.person, x.token));
  }

  /** From any tree and for any edits within the limits, eight calls lead to an implementation that is applied and pending,
      in place exactly if all its contents are small enough to be targets. */
  lemma EveryEditCanBeApplied(x: Scene)
    requires Staged(x)
    ensures Leads(Registry(x), Applied(x)) && Reachable(Applied(x)) && WavesAcceptance.Pending(Applied(x), x.impl)
    ensures WavesAcceptance.ChangesOf(Applied(x), x.impl) == TheChanges(x)
    ensures WavesAcceptance.InPlace(Applied(x), x.impl) <==> WavesSessions.Fits(TheChanges(x))
  {
    hide Run, Staged, Leads, ApplyImplementation, WavesAcceptance.InPlace, WavesSessions.Fits, TheChanges, Inv, Reachable;
    SevenCalls(x);
    LeadsOn(Registry(x), WithImplementation(x), OpApply(x.impl, x.token, WORKING_DISK));
    RegistryLeadsIsReachable(x, Applied(x));
    RegistryLeadsIsReachable(x, WithImplementation(x));
    ReachableInv(WithImplementation(x));
    ImplementationIsApplied(x);
    WavesAcceptance.AppliedIsInPlaceIff(WithImplementation(x), x.impl, x.token, WORKING_DISK);
  }

  lemma RegistryLeadsIsReachable(x: Scene, s: State)
    requires Leads(Registry(x), s)
    ensures Reachable(s)
  {
    hide Run;
    assert Initial(Registry(x));
  }

  /* ---------- Too large ---------- */

  lemma {:induction false} TooLargeIsTheError(tree: Tree, changes: seq<Change>, stale: Error)
    requires forall i :: 0 <= i < |changes| ==>
      Holds(tree, changes[i].path, changes[i].postimage) || SafeTarget(tree, changes[i].path) == Err(TargetFileTooLarge)
    ensures CheckTargets(tree, changes, true, stale) in {None, Some(Target(TargetFileTooLarge))}
  {
    hide SafeTarget, Holds;
    if changes != [] {
      TooLargeIsTheError(tree, changes[..|changes| - 1], stale);
      HoldsIsSafe(tree, changes[|changes| - 1].path, changes[|changes| - 1].postimage);
    }
  }

  lemma HoldsIsSafe(tree: Tree, p: Path, digest: Digest<Content>)
    ensures Holds(tree, p, digest) <==> SafeTarget(tree, p).Ok? && Sha256(SafeTarget(tree, p).value) == digest
  {
    hide SafeTarget;
  }

  lemma SizeDecides(a: Tree, b: Tree, p: Path, content: Content)
    requires SafeTarget(a, p).Ok? && p in b && b[p] == content
    ensures |content| > MAX_TARGET_FILE_BYTES ==> SafeTarget(b, p) == Err(TargetFileTooLarge)
    ensures |content| <= MAX_TARGET_FILE_BYTES ==> Holds(b, p, Sha256(content))
  {
    hide BlockedFile, TextExtension, Suffix, Lower;
  }

  lemma ContentIsThere(x: Scene, i: nat)
    requires Staged(x) && i < |x.edits|
    ensures x.edits[i].path in Applied(x).tree && Applied(x).tree[x.edits[i].path] == x.edits[i].newContent
  {
    hide ReadyToApply, Staged, SafeTarget, HashedChanges, WriteFrom, TheChanges, ApplyImplementation;
    ImplementationIsReady(x);
    ImplementationIsApplied(x);
    ChangesAreWellFormed(x);
    AppliedTree(WithImplementation(x), x.impl, x.token, WORKING_DISK);
    var slots := Slots(x.impl, TheChanges(x));
    assert SlotWritten(Applied(x).tree, x.tree, slots, WORKING_DISK, |slots|, i);
  }

  lemma ChangesAreWellFormed(x: Scene)
    requires Staged(x)
    ensures WellFormed(TheChanges(x)) && |TheChanges(x)| == |x.edits|
  {
    hide TheChanges, SafeTarget;
  }

  /** From any tree, edits within the limits of a proposal one of which is too large to be a target again: they are applied,
      and the rollback is refused for the size alone, whatever the disk does. */
  lemma OversizedIsNeverRolledBack(x: Scene, disk: Restorer)
    requires Staged(x) && !WavesSessions.Fits(TheChanges(x))
    ensures Reachable(Applied(x)) && WavesAcceptance.Pending(Applied(x), x.impl)
    ensures ReviewImplementation(Applied(x), x.impl, RollBack, disk) == Refuse(Applied(x), Target(TargetFileTooLarge))
  {
    hide Staged, Applied, Reachable, CheckTargets, TheChanges, SafeTarget, Holds, Inv, ReviewImplementation, StillApplied,
         WavesSessions.Fits;
    EveryEditCanBeApplied(x);
    var s := Applied(x);
    ChangesAreWellFormed(x);
    RollbackIsRefused(s, x.impl, disk);
    OnlySizeFails(x);
  }

  lemma OnlySizeFails(x: Scene)
    requires Staged(x)
    ensures CheckTargets(Applied(x).tree, TheChanges(x), true, RollbackPostimageChanged)
            in {None, Some(Target(TargetFileTooLarge))}
  {
    hide Applied, CheckTargets, TheChanges, SafeTarget, Holds, MAX_TARGET_FILE_BYTES;
    forall i | 0 <= i < |TheChanges(x)|
      ensures Holds(Applied(x).tree, TheChanges(x)[i].path, TheChanges(x)[i].postimage)
              || SafeTarget(Applied(x).tree, TheChanges(x)[i].path) == Err(TargetFileTooLarge)
    {
      ContentIsThere(x, i);
      SizeDecides(x.tree, Applied(x).tree, x.edits[i].path, x.edits[i].newContent);
    }
    TooLargeIsTheError(Applied(x).tree, TheChanges(x), RollbackPostimageChanged);
  }

  /* ---------- Half restored ---------- */

  /** Edits of several files, the first of which it really changes. */
  ghost predicate Halvable(x: Scene) {
    && Staged(x) && |x.edits| >= 2 && WavesSessions.Fits(TheChanges(x))
    && TheChanges(x)[0].preimage != TheChanges(x)[0].postimage
  }

  /** A disk that puts the first file back and raises at the second. */
  function OneThenRaise(x: Scene): Restorer
    requires x.edits != []
  {
    [Restores(TheChanges(x)[0].preimage.preimage), RaisesUnwritten]
  }

  function HalfRestored(x: Scene): State
    requires x.edits != []
  {
    ReviewImplementation(Applied(x), x.impl, RollBack, OneThenRaise(x)).after
  }

  lemma SecondIsLost(x: Scene)
    requires Halvable(x)
    ensures FirstLost(Slots(x.impl, TheChanges(x)), OneThenRaise(x), 0) == 1
    ensures !RestoredNothing(TheChanges(x), OneThenRaise(x), 1)
  {
    hide Staged, TheChanges, WavesSessions.Fits;
    var slots, disk := Slots(x.impl, TheChanges(x)), OneThenRaise(x);
    assert LandsAt(disk, 0, slots[0].change) && !LandsAt(disk, 1, slots[1].change);
    assert FirstLost(slots, disk, 1) == 1;
  }

  /** The rollback stops between the two files: the first is back, the second still holds what was applied. */
  lemma RollbackStopsHalfWay(x: Scene)
    requires Halvable(x)
    ensures x.edits[0].path in x.tree
    ensures var call := ReviewImplementation(Applied(x), x.impl, RollBack, OneThenRaise(x));
            && !call.Succeeds() && call.after == Applied(x).(tree := call.after.tree)
            && x.edits[0].path in call.after.tree && x.edits[1].path in call.after.tree
            && call.after.tree[x.edits[0].path] == x.tree[x.edits[0].path]
            && call.after.tree[x.edits[1].path] == x.edits[1].newContent
  {
    hide Staged, Applied, Reachable, TheChanges, SafeTarget, Inv, ReviewImplementation, StillApplied, WavesSessions.Fits,
         ImplementationOk, OffTargets;
    EveryEditCanBeApplied(x);
    ReachableInv(Applied(x));
    SecondIsLost(x);
    ChangesAreWellFormed(x);
    InOrder(x);
    RollbackExactly(Applied(x), x.impl, OneThenRaise(x));
    PreimageOf(x, 0);
    ContentIsThere(x, 1);
    var slots := Slots(x.impl, TheChanges(x));
    assert slots[0].change.path == x.edits[0].path && slots[1].change.path == x.edits[1].path;
    assert Sha256(Applied(x).tree[slots[0].backup]) == slots[0].change.preimage;
  }

  lemma InOrder(x: Scene)
    requires Inv(Applied(x)) && WavesAcceptance.Pending(Applied(x), x.impl)
    requires WavesAcceptance.ChangesOf(Applied(x), x.impl) == TheChanges(x)
    ensures BackedUp(Applied(x).tree, Slots(x.impl, TheChanges(x)), 0)
  {
    hide Inv, Applied, TheChanges, BackedUp;
    ImplementationInOrder(Applied(x), x.impl);
  }

  lemma PreimageOf(x: Scene, i: nat)
    requires Staged(x) && i < |x.edits|
    ensures x.edits[i].path in x.tree && TheChanges(x)[i].preimage.preimage == x.tree[x.edits[i].path]
  {
    hide BlockedFile, TextExtension, Suffix, Lower;
  }

  /** And that is final: no later rollback succeeds, on any disk; but the half-restored implementation is accepted, and
      counts for progress as if its bytes were in place. */
  lemma HalfRestoredIsAccepted(x: Scene, disk: Restorer)
    requires Halvable(x)
    ensures Reachable(HalfRestored(x)) && WavesAcceptance.Pending(HalfRestored(x), x.impl)
    ensures Stuck(HalfRestored(x), x.impl, x.edits[0].path)
    ensures ReviewImplementation(HalfRestored(x), x.impl, RollBack, disk).error.Some?
    ensures var call := ReviewImplementation(HalfRestored(x), x.impl, AcceptIt, disk);
            call.Succeeds() && Stuck(call.after, x.impl, x.edits[0].path) && Progress(Applied(x)) == 35 && Progress(call.after) == 70
  {
    hide Staged, Applied, Reachable, TheChanges, ReviewImplementation, StillApplied, Stuck, Inv, Progress, WavesSessions.Fits;
    EveryEditCanBeApplied(x);
    RollbackStopsHalfWay(x);
    var t := HalfRestored(x);
    ReachableOn(Applied(x), OpReviewImplementation(x.impl, RollBack, OneThenRaise(x)));
    StepIsReview(Applied(x), x.impl, RollBack, OneThenRaise(x));
    ReachableInv(t);
    FirstIsStuck(x);
    StuckRefuses(t, x.impl, x.edits[0].path, disk);
    WavesAcceptance.HalfRestoredCanBeAccepted(t, x.impl, x.edits[0].path, disk);
    ProgressSoFar(x);
    SameProgress(Applied(x), t);
  }

  lemma SameProgress(s: State, t: State)
    requires t == s.(tree := t.tree)
    ensures Progress(s) == Progress(t)
  {
    assert AcceptedPlans(s) == AcceptedPlans(t) && AcceptedProposals(s) == AcceptedProposals(t);
    assert AcceptedImplementations(s) == AcceptedImplementations(t);
  }

  lemma ProgressSoFar(x: Scene)
    requires Staged(x)
    ensures Progress(Applied(x)) == 35
  {
    hide Staged, Applied, TheChanges;
    ImplementationIsApplied(x);
    assert AcceptedPlans(Applied(x)) == {x.plan} && AcceptedProposals(Applied(x)) == {x.proposal};
    assert AcceptedImplementations(Applied(x)) == {};
  }

  lemma FirstIsStuck(x: Scene)
    requires Halvable(x) && WavesAcceptance.Pending(HalfRestored(x), x.impl)
    requires WavesAcceptance.ChangesOf(HalfRestored(x), x.impl) == TheChanges(x)
    ensures Stuck(HalfRestored(x), x.impl, x.edits[0].path)
  {
    hide Applied, TheChanges, BlockedFile, ReviewImplementation, UnderBackups, Suffix, Lower, WavesSessions.Fits;
    RollbackStopsHalfWay(x);
    PreimageOf(x, 0);
    BackupsNeverAlias(x.impl, x.edits[0].path, x.impl, x.edits[0].path);
    assert SafeTarget(x.tree, x.edits[0].path).Ok?;
    assert TheChanges(x)[0].path == x.edits[0].path;
  }

  lemma ReachableOn(s: State, op: Op)
    requires Reachable(s) && Possible(s, op)
    ensures Reachable(Step(s, op).after)
  {
    hide Step, Possible, Run, Initial;
    var s0, ops :| Initial(s0) && Run(s0, ops, s);
    RunOneMore(s0, ops, s, op);
  }

  /* ---------- Such trees exist ---------- */

  function File(c: char): Path { [[c, '.', 'p', 'y']] }

  function OneFile(content: Content): Scene {
    Scene(map[File('a') := []], [Edit(File('a'), content)], "m", "d", "", "", "", "", "", "")
  }

  function TwoFiles(): Scene {
    Scene(map[File('a') := [], File('b') := []], [Edit(File('a'), [1]), Edit(File('b'), [1])], "m", "d", "", "", "", "", "", "")
  }

  lemma SomeChangeIsOversized() returns (x: Scene)
    ensures Staged(x) && !WavesSessions.Fits(TheChanges(x))
  {
    hide BlockedFile, TextExtension, Suffix, Lower, FileName, File;
    var content: Content := seq(MAX_TARGET_FILE_BYTES + 1, _ => 0);
    x := OneFile(content);
    NameIsAdmissible('a');
    assert x.edits[..0] == [] && Bytes(x.edits) == |content|;
    assert TheChanges(x)[0].newContent == content;
  }

  lemma SomeRollbackIsHalvable() returns (x: Scene)
    ensures Halvable(x)
  {
    hide BlockedFile, TextExtension, Suffix, Lower, FileName, File;
    x := TwoFiles();
    NameIsAdmissible('a');
    NameIsAdmissible('b');
    FilesDiffer('a', 'b');
    assert x.edits[..1][..0] == [] && Bytes(x.edits[..1]) == 1 && Bytes(x.edits) == 2;
  }

  lemma FilesDiffer(c: char, d: char)
    requires c != d
    ensures File(c) != File(d)
  {
    assert File(c)[0][0] == c && File(d)[0][0] == d;
  }

  lemma NameIsAdmissible(c: char)
    requires 'a' <= c <= 'z'
    ensures !BlockedFile(File(c)) && TextExtension(Lower(Suffix(FileName(File(c)))))
  {
    var name := [c, '.', 'p', 'y'];
    assert LastDot(name) == 1 by {
      assert name[..3][..2] == name[..2];
      assert LastDot(name[..2]) == 1 && LastDot(name[..3]) == 1;
    }
    assert Suffix(name) == name[1..] && name[1..] == ".py";
    assert Lower(".py") == ".py" && Lower(name) == name;
  }
}
