/**
 The store behind the change pipeline: the stored records, updated in place call by call.
 Every method leaves exactly the state, and raises exactly the error, of its specification.
 */
module WavesStore {
  import opened Common
  import opened SourceTree
  import opened Waves

  class Store {
    var tree: Tree
    var models: map<Id, Model>
    var plans: map<Id, Plan>
    var proposals: map<Id, Proposal>
    var implementations: map<Id, Implementation>
    var evidence: seq<Event>

    function View(): State
      reads this
    {
      State(tree, models, plans, proposals, implementations, evidence)
    }

    constructor (tree: Tree, modelIds: set<Id>)
      ensures View() == State(tree, map id | id in modelIds :: Model(Registered, None, None), map[], map[], map[], [])
      ensures Initial(View())
    {
      this.tree := tree;
      models := map id | id in modelIds :: Model(Registered, None, None);
      plans, proposals, implementations, evidence := map[], map[], map[], [];
    }

    method ProbeModels(listed: map<Id, Option<string>>)
      modifies this
      ensures Call(View(), None) == Waves.ProbeModels(old(View()), listed)
    {
      var todo := models.Keys;
      while todo != {}
        invariant todo <= models.Keys == old(models.Keys)
        invariant View() == old(View()).(models := models)
        invariant forall id :: id in models ==>
                    models[id] == if id in todo then old(models)[id] else Probed(old(models)[id], Lookup(listed, id))
        decreases todo
      {
        var id :| id in todo;
        models := models[id := Probed(models[id], Lookup(listed, id))];
        todo := todo - {id};
      }
    }

    method ApproveModel(id: Id, approver: string) returns (error: Option<Error>)
      modifies this
      ensures Call(View(), error) == Waves.ApproveModel(old(View()), id, approver)
    {
      if id !in models { return Some(UnknownModelId); }
      var m := models[id];
      if m.state != Available || !Truthy(m.digest) { return Some(ModelNotAvailableForApproval); }
      models := models[id := m.(state := PlanningApproved, approvedDigest := m.digest)];
      evidence := evidence + [ModelApproved(id, m.digest.value, approver)];
      error := None;
    }

    method GeneratePlan(id: Id, modelId: Id, body: Option<string>) returns (error: Option<Error>)
      requires id !in plans
      modifies this
      ensures Call(View(), error) == Waves.GeneratePlan(old(View()), id, modelId, body)
    {
      var model := ApprovedModel(View(), modelId);
      if model.Err? { return Some(model.error); }
      if body.None? { return Some(ModelOutputInvalid); }
      plans := plans[id := Plan(HumanReview, body.value, modelId, model.value)];
      error := None;
    }

    method ReviewPlan(id: Id, decision: Decision) returns (error: Option<Error>)
      modifies this
      ensures Call(View(), error) == Waves.ReviewPlan(old(View()), id, decision)
    {
      if id !in plans { return Some(EntityNotFound); }
      if plans[id].status != HumanReview { return Some(EntityNotReadyForReview); }
      plans := plans[id := plans[id].(status := StatusAfter(decision))];
      error := None;
    }

    method ReviewProposal(id: Id, decision: Decision) returns (error: Option<Error>)
      modifies this
      ensures Call(View(), error) == Waves.ReviewProposal(old(View()), id, decision)
    {
      if id !in proposals { return Some(EntityNotFound); }
      if proposals[id].status != HumanReview { return Some(EntityNotReadyForReview); }
      proposals := proposals[id := proposals[id].(status := StatusAfter(decision))];
      error := None;
    }

    /** Reads the requested targets, refusing the first one that is unsafe or repeated. */
    method ReadAll(paths: seq<Path>) returns (r: Result<map<Path, Digest<Content>>, Error>)
      ensures r == ReadTargets(tree, paths)
    {
      var targets: map<Path, Digest<Content>> := map[];
      for i := 0 to |paths|
        invariant ReadTargets(tree, paths[..i]) == Ok(targets)
      {
        assert paths[..i + 1][..i] == paths[..i];
        var safe := SafeTarget(tree, paths[i]);
        if safe.Err? {
          ReadTargetsPrefix(tree, paths, i + 1);
          return Err(Target(safe.error));
        }
        if paths[i] in targets {
          ReadTargetsPrefix(tree, paths, i + 1);
          return Err(DuplicateTargetFile);
        }
        targets := targets[paths[i] := Sha256(safe.value)];
      }
      assert paths[..|paths|] == paths;
      r := Ok(targets);
    }

    method GenerateProposal(id: Id, planId: Id, modelId: Id, paths: seq<Path>, edits: seq<Edit>)
      returns (error: Option<Error>)
      requires id !in proposals && 1 <= |paths| <= MAX_TARGET_FILES
      modifies this
      ensures Call(View(), error) == Waves.GenerateProposal(old(View()), id, planId, modelId, paths, edits)
    {
      if planId !in plans { return Some(PlanNotFound); }
      if plans[planId].status != Accepted { return Some(AcceptedPlanRequired); }
      var targets := ReadAll(paths);
      if targets.Err? { return Some(targets.error); }
      var model := ApprovedModel(View(), modelId);
      if model.Err? { return Some(model.error); }
      var changes := Validate(targets.value, edits);
      if changes.Err? { return Some(changes.error); }
      var core := ProposalCore(planId, HashedChanges(changes.value), model.value);
      proposals := proposals[id :=
        Proposal(planId, HumanReview, changes.value, modelId, model.value, Sha256(core), false)];
      error := None;
    }

    method PrepareImplementation(id: Id, proposalId: Id, approver: string, token: string) returns (error: Option<Error>)
      requires id !in implementations
      modifies this
      ensures Call(View(), error) == Waves.PrepareImplementation(old(View()), id, proposalId, approver, token)
    {
      if proposalId !in proposals { return Some(ProposalNotFound); }
      var p := proposals[proposalId];
      if p.status != Accepted { return Some(AcceptedProposalRequired); }
      if p.applied { return Some(ProposalAlreadyApplied); }
      error := FirstStale(tree, p.changes, false, ProposalPreimageStale);
      if error.Some? { return; }
      implementations := implementations[id :=
        Implementation(proposalId, ApprovedForApply, approver, Sha256(token), Some(token), p.sha256)];
    }

    method ApplyImplementation(id: Id, token: string, disk: Disk) returns (error: Option<Error>)
      modifies this
      ensures Call(View(), error) == Waves.ApplyImplementation(old(View()), id, token, disk)
    {
      hide SafeTarget, CheckTargets, Holds, WriteFrom, Undo;
      var ready := ReadyToApply(View(), id, token);
      if ready.Err? { return Some(ready.error); }
      var p := ready.value;
      var slots := Slots(id, p.changes);
      assert Present(tree, slots) by { ReadyIsPresent(View(), id, token); }

      var applied;
      applied, error := WriteAll(slots, disk);
      if error.Some? {
        Restore(slots, applied, disk.undo);
        return;
      }
      var impl := implementations[id];
      implementations := implementations[id := impl.(status := AppliedAwaitingReview, token := None)];
      proposals := proposals[impl.proposalId := p.(applied := true)];
      evidence := evidence + [ImplementationApplied(id)];
    }

    /** The write loop: the slots applied, in order, and the error that stopped it. */
    method WriteAll(slots: seq<Slot>, disk: Disk) returns (applied: seq<Slot>, error: Option<Error>)
      requires Present(tree, slots)
      modifies this`tree
      ensures applied <= slots && Present(tree, slots)
      ensures var w := WriteFrom(old(tree), slots, disk, 0);
              && tree == w.tree && |applied| == w.failed
              && error == if w.failed < |slots| then Some(w.error) else None
    {
      applied, error := [], None;
      while |applied| < |slots|
        invariant applied <= slots && Present(tree, slots)
        invariant WriteFrom(old(tree), slots, disk, 0) == WriteFrom(tree, slots, disk, |applied|)
      {
        var slot := slots[|applied|];
        match IoAt(disk, slots, |applied|)
        case RaisesBefore(partial) =>
          if partial.Some? { tree := tree[slot.backup := partial.value]; }
          return applied, Some(WriteFailed);
        case RaisesAfter(onDisk) =>
          tree := BackUpAndReplace(tree, slot, onDisk);
          return applied, Some(WriteFailed);
        case Lands(onDisk) =>
          tree := BackUpAndReplace(tree, slot, onDisk);
          if Sha256(onDisk) != slot.change.postimage { return applied, Some(PostimageHashMismatch); }
          applied := applied + [slot];
      }
    }

    /** The undo loop of a failed apply, last file first. */
    method Restore(ghost slots: seq<Slot>, applied: seq<Slot>, undo: Option<UndoStop>)
      requires applied <= slots
      modifies this`tree
      ensures tree == Undo(old(tree), slots, |applied|, undo)
    {
      var n: nat, stop := |applied|, undo;
      while n > 0
        invariant n <= |applied|
        invariant Undo(old(tree), slots, |applied|, undo) == Undo(tree, slots, n, stop)
      {
        var slot := applied[n - 1];
        assert slot == slots[n - 1];
        if slot.backup in tree {
          if stop.Some? && stop.value.completed == 0 {
            tree := tree[slot.change.path := stop.value.torn];
            return;
          }
          tree := tree[slot.change.path := tree[slot.backup]];
          if stop.Some? { stop := Some(UndoStop(stop.value.completed - 1, stop.value.torn)); }
        }
        n := n - 1;
      }
    }

    /** The restore loop of a rollback. */
    method RestoreAll(slots: seq<Slot>, disk: Restorer) returns (error: Option<Error>)
      modifies this`tree
      ensures (tree, error) == RestoreFrom(old(tree), slots, disk, 0)
    {
      for i := 0 to |slots|
        invariant RestoreFrom(old(tree), slots, disk, 0) == RestoreFrom(tree, slots, disk, i)
      {
        var slot := slots[i];
        assert RestoreFrom(tree, slots, disk, i) ==
               var (turned, error) := RestoreOne(tree, slot, disk, i);
               if error.Some? then (turned, error) else RestoreFrom(turned, slots, disk, i + 1);
        var safe := SafeTarget(tree, slot.change.path);
        if safe.Err? { return Some(Target(safe.error)); }
        if slot.backup !in tree { return Some(RollbackBackupMissing); }
        match RestoreIoAt(disk, i, tree[slot.backup])
        case RaisesUnwritten => return Some(WriteFailed);
        case RaisesTorn(onDisk) =>
          tree := tree[slot.change.path := onDisk];
          return Some(WriteFailed);
        case Restores(onDisk) =>
          tree := tree[slot.change.path := onDisk];
          if Sha256(onDisk) != slot.change.preimage { return Some(RollbackPreimageHashMismatch); }
      }
      error := None;
    }

    method ReviewImplementation(id: Id, decision: ImplementationDecision, disk: Restorer) returns (error: Option<Error>)
      modifies this
      ensures Call(View(), error) == Waves.ReviewImplementation(old(View()), id, decision, disk)
    {
      hide SafeTarget, CheckTargets, RestoreFrom;
      if id !in implementations { return Some(ImplementationNotFound); }
      var impl := implementations[id];
      if impl.status != AppliedAwaitingReview { return Some(ImplementationNotReadyForReview); }
      if impl.proposalId !in proposals { return Some(ProposalNotFound); }
      var p := proposals[impl.proposalId];
      if decision == RollBack {
        error := FirstStale(tree, p.changes, true, RollbackPostimageChanged);
        if error.Some? { return; }
        var slots := Slots(id, p.changes);
        error := RestoreAll(slots, disk);
        if error.Some? { return; }
        implementations := implementations[id := impl.(status := RolledBack)];
        proposals := proposals[impl.proposalId := p.(applied := false)];
      } else {
        implementations := implementations[id := impl.(status := AcceptedImplementation)];
      }
      evidence := evidence + [ImplementationReviewed(id, decision)];
      error := None;
    }
  }

  lemma ReadyIsPresent(s: State, id: Id, token: string)
    requires ReadyToApply(s, id, token).Ok?
    ensures Present(s.tree, Slots(id, ReadyToApply(s, id, token).value.changes))
  {
    hide ReadyToApply;
    var changes := ReadyToApply(s, id, token).value.changes;
    forall i | 0 <= i < |changes| ensures changes[i].path in s.tree {
      assert Holds(s.tree, changes[i].path, changes[i].preimage);
    }
  }

  /** The first target that is unsafe or does not hold its wanted hash. */
  method FirstStale(tree: Tree, changes: seq<Change>, post: bool, stale: Error) returns (error: Option<Error>)
    ensures error == CheckTargets(tree, changes, post, stale)
  {
    for i := 0 to |changes|
      invariant CheckTargets(tree, changes[..i], post, stale) == None
    {
      assert changes[..i + 1][..i] == changes[..i];
      var safe := SafeTarget(tree, changes[i].path);
      if safe.Err? {
        CheckTargetsPrefix(tree, changes, i + 1, post, stale);
        return Some(Target(safe.error));
      }
      if Sha256(safe.value) != Wanted(changes[i], post) {
        CheckTargetsPrefix(tree, changes, i + 1, post, stale);
        return Some(stale);
      }
    }
    assert changes[..|changes|] == changes;
    error := None;
  }

  /** Validation of the model's edits, with the paths seen so far and the running total. */
  method Validate(targets: map<Path, Digest<Content>>, edits: seq<Edit>) returns (r: Result<seq<Change>, Error>)
    ensures r == ValidateProposal(targets, edits)
  {
    if edits == [] { return Err(ProposalChangesRequired); }
    var changes: seq<Change> := [];
    var seen: set<Path> := {};
    var total := 0;
    for i := 0 to |edits|
      invariant NormalizeEdits(targets, edits[..i]) == Ok(changes)
      invariant forall p :: p in seen <==> Touches(edits[..i], p)
      invariant total == Bytes(edits[..i])
    {
      var e := edits[i];
      assert edits[..i + 1][..i] == edits[..i];
      if e.path !in targets {
        NormalizeEditsPrefix(targets, edits, i + 1);
        return Err(ProposalPathNotAuthorized);
      }
      if e.path in seen {
        NormalizeEditsPrefix(targets, edits, i + 1);
        return Err(ProposalDuplicatePath);
      }
      forall p ensures p in seen + {e.path} <==> Touches(edits[..i + 1], p) {
        if p in seen {
          var k :| 0 <= k < i && edits[..i][k].path == p;
          assert edits[..i + 1][k].path == p;
        }
        if p == e.path { assert edits[..i + 1][i].path == p; }
        if Touches(edits[..i + 1], p) && p != e.path {
          var k :| 0 <= k < i + 1 && edits[..i + 1][k].path == p;
          assert edits[..i][k].path == p;
        }
      }
      seen := seen + {e.path};
      total := total + |e.newContent|;
      if total > MAX_PROPOSAL_BYTES {
        NormalizeEditsPrefix(targets, edits, i + 1);
        return Err(ProposalTooLarge);
      }
      changes := changes + [Change(e.path, targets[e.path], e.newContent, Sha256(e.newContent))];
    }
    assert edits[..|edits|] == edits;
    r := Ok(changes);
  }

  /* An error found in a prefix is the error of the whole. */

  lemma {:induction false} CheckTargetsPrefix(tree: Tree, changes: seq<Change>, n: nat, post: bool, stale: Error)
    requires n <= |changes| && CheckTargets(tree, changes[..n], post, stale).Some?
    ensures CheckTargets(tree, changes, post, stale) == CheckTargets(tree, changes[..n], post, stale)
    decreases |changes| - n
  {
    hide SafeTarget, Holds;
    if n == |changes| {
      assert changes[..n] == changes;
    } else {
      assert changes[..n + 1][..n] == changes[..n];
      CheckTargetsPrefix(tree, changes, n + 1, post, stale);
    }
  }

  lemma {:induction false} ReadTargetsPrefix(tree: Tree, paths: seq<Path>, n: nat)
    requires n <= |paths| && ReadTargets(tree, paths[..n]).Err?
    ensures ReadTargets(tree, paths) == ReadTargets(tree, paths[..n])
    decreases |paths| - n
  {
    hide SafeTarget;
    if n == |paths| {
      assert paths[..n] == paths;
    } else {
      assert paths[..n + 1][..n] == paths[..n];
      ReadTargetsPrefix(tree, paths, n + 1);
    }
  }

  lemma {:induction false} NormalizeEditsPrefix(targets: map<Path, Digest<Content>>, edits: seq<Edit>, n: nat)
    requires n <= |edits| && NormalizeEdits(targets, edits[..n]).Err?
    ensures NormalizeEdits(targets, edits) == NormalizeEdits(targets, edits[..n])
    decreases |edits| - n
  {
    if n == |edits| {
      assert edits[..n] == edits;
    } else {
      assert edits[..n + 1][..n] == edits[..n];
      NormalizeEditsPrefix(targets, edits, n + 1);
    }
  }
}
