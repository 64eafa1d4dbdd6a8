/**
 Sessions: applies closed by their rollbacks in reverse order, with any other calls of the
 pipeline in between, whether they succeed or not.
 */
module WavesSessions {
  import opened Common
  import opened SourceTree
  import opened Waves
  import opened WavesApply
  import opened WavesRuns
  import opened WavesClaims

  /** A well-nested run: Nested applies id, plays inner, rolls id back and plays after; Then makes one call of any kind. */
  datatype Session =
    | Done
    | Then(op: Op, rest: Session)
    | Nested(id: Id, token: string, disk: Disk, inner: Session, restorer: Restorer, after: Session)

  /** Where a session leads, and of its brackets: whether every apply succeeded, whether what happens inside each leaves
      its implementation and its files alone, whether every rollback succeeded, whether every applied content is small
      enough to be a target again and every restore write lands; and the sources that calls outside the brackets changed. */
  datatype Played = Played(
    state: State, applied: bool, apart: bool, undone: bool, fits: bool, lands: bool, edited: set<Path>)

  predicate Fits(changes: seq<Change>) {
    forall i :: 0 <= i < |changes| ==> |changes[i].newContent| <= MAX_TARGET_FILE_BYTES
  }

  predicate AllLand(disk: Restorer, changes: seq<Change>) {
    forall i :: 0 <= i < |changes| ==> LandsAt(disk, i, changes[i])
  }

  function Files(changes: seq<Change>): set<Path> {
    set i | 0 <= i < |changes| :: changes[i].path
  }

  /** The implementations a session reviews. */
  function Reviewed(session: Session): set<Id> {
    match session
    case Done => {}
    case Then(op, rest) => (if op.OpReviewImplementation? then {op.id} else {}) + Reviewed(rest)
    case Nested(id, _, _, inner, _, after) => {id} + Reviewed(inner) + Reviewed(after)
  }

  /** The sources on which the trees differ. */
  function Edited(a: Tree, b: Tree): set<Path> {
    set p | p in a.Keys + b.Keys && !UnderBackups(p) && !(p in a && p in b && a[p] == b[p])
  }

  function Play(s: State, session: Session): Played
    decreases session
  {
    match session
    case Done => Played(s, true, true, true, true, true, {})
    case Then(op, rest) =>
      if !Possible(s, op) then Play(s, rest)
      else
        var t := Step(s, op).after;
        var r := Play(t, rest);
        r.(edited := Edited(s.tree, t.tree) + r.edited)
    case Nested(id, token, disk, inner, restorer, after) =>
      var ready := ReadyToApply(s, id, token);
      var changes := if ready.Ok? then ready.value.changes else [];
      var call := ApplyImplementation(s, id, token, disk);
      var i := Play(call.after, inner);
      var back := ReviewImplementation(i.state, id, RollBack, restorer);
      var a := Play(back.after, after);
      Played(a.state,
             call.Succeeds() && i.applied && a.applied,
             id !in Reviewed(inner) && i.edited !! Files(changes) && i.apart && a.apart,
             i.undone && back.Succeeds() && a.undone,
             Fits(changes) && i.fits && a.fits,
             AllLand(restorer, changes) && i.lands && a.lands,
             i.edited + a.edited)
  }

  /** The two trees hold the same sources, except perhaps those in edited. */
  ghost predicate SameSourcesOff(a: Tree, b: Tree, edited: set<Path>) {
    forall p: Path :: !UnderBackups(p) && p !in edited ==> SameAt(a, b, p)
  }

  lemma SameSourcesOffTransitive(a: Tree, b: Tree, c: Tree, ab: set<Path>, bc: set<Path>)
    requires SameSourcesOff(a, b, ab) && SameSourcesOff(b, c, bc)
    ensures SameSourcesOff(a, c, ab + bc)
  {
    hide UnderBackups;
  }

  lemma EditedIsAll(a: Tree, b: Tree)
    ensures SameSourcesOff(a, b, Edited(a, b))
  {
    hide UnderBackups;
  }

  lemma SameSourcesReflexive(a: Tree)
    ensures SameSourcesOff(a, a, {})
  {
  }

  ghost predicate Pending(s: State, id: Id) {
    id in s.implementations && s.implementations[id].status == AppliedAwaitingReview
  }

  lemma HoldsMeans(tree: Tree, p: Path, digest: Digest<Content>)
    requires Holds(tree, p, digest)
    ensures SafeTarget(tree, p).Ok? && p in tree && Sha256(tree[p]) == digest
  {
  }

  /** A file that was a target once is one again as long as its bytes fit. */
  lemma SafeTargetAgain(a: Tree, b: Tree, p: Path, content: Content)
    requires SafeTarget(a, p).Ok? && p in b && b[p] == content
    ensures SafeTarget(b, p) == Ok(content) <==> |content| <= MAX_TARGET_FILE_BYTES
  {
    hide BlockedFile, Suffix, FileName, Lower;
  }

  /** The changes behind an implementation are fixed once and for all. */
  lemma SameChanges(u: State, t: State, id: Id)
    requires Grows(u, t) && id in u.implementations && u.implementations[id].proposalId in u.proposals
    ensures id in t.implementations && t.implementations[id].proposalId in t.proposals
    ensures t.proposals[t.implementations[id].proposalId].changes == u.proposals[u.implementations[id].proposalId].changes
  {
    assert ImplementationStays(u.implementations[id], t.implementations[id]);
    var pid := u.implementations[id].proposalId;
    assert ProposalStays(u.proposals[pid], t.proposals[pid]);
  }

  lemma AppliedWasReady(s: State, id: Id, token: string, disk: Disk)
    requires ApplyImplementation(s, id, token, disk).Succeeds()
    ensures ReadyToApply(s, id, token).Ok?
    ensures id in s.implementations && s.implementations[id].status == ApprovedForApply
    ensures Pending(ApplyImplementation(s, id, token, disk).after, id)
  {
    hide CheckTargets, WriteFrom, Undo, Holds;
  }

  lemma AllLandMeans(id: Id, changes: seq<Change>, disk: Restorer)
    ensures AllLand(disk, changes) <==> FirstLost(Slots(id, changes), disk, 0) == |changes|
  {
    var slots := Slots(id, changes);
    var k := FirstLost(slots, disk, 0);
    if k < |slots| { assert !LandsAt(disk, k, changes[k]); }
    if k == |slots| {
      forall j | 0 <= j < |changes| ensures LandsAt(disk, j, changes[j]) { assert LandsAt(disk, j, slots[j].change); }
    }
  }

  /** Target j of an apply, after anything that left it alone. */
  lemma BracketTarget(s: State, id: Id, token: string, disk: Disk, t: Tree, edited: set<Path>, j: nat)
    requires Inv(s) && ApplyImplementation(s, id, token, disk).Succeeds()
    requires ReadyToApply(s, id, token).Ok? && j < |ReadyToApply(s, id, token).value.changes|
    requires SameSourcesOff(ApplyImplementation(s, id, token, disk).after.tree, t, edited)
    requires edited !! Files(ReadyToApply(s, id, token).value.changes)
    ensures var c := ReadyToApply(s, id, token).value.changes[j];
            && (SafeTarget(t, c.path) == Ok(c.newContent) <==> |c.newContent| <= MAX_TARGET_FILE_BYTES)
            && c.path in s.tree && Sha256(s.tree[c.path]) == c.preimage && !UnderBackups(c.path)
  {
    hide Inv, WellFormed, ApplyImplementation, UnderBackups, BackupPath, BlockedFile, Holds, SafeTarget, ReadyToApply;
    ReadyProposal(s, id, token);
    AppliedTree(s, id, token, disk);
    ReadyTargets(s, id, token);
    var changes := ReadyToApply(s, id, token).value.changes;
    var c := changes[j];
    assert SlotWritten(ApplyImplementation(s, id, token, disk).after.tree, s.tree, Slots(id, changes), disk, |changes|, j);
    assert c.path in Files(changes);
    assert Holds(s.tree, c.path, c.preimage);
    HoldsMeans(s.tree, c.path, c.preimage);
    SafeTargetAgain(s.tree, t, c.path, c.newContent);
  }

  /** One bracket: an apply, anything that keeps the implementation pending and its files as applied, and the rollback. */
  lemma Bracket(s: State, id: Id, token: string, disk: Disk, t: State, restorer: Restorer, edited: set<Path>)
    requires Inv(s) && ApplyImplementation(s, id, token, disk).Succeeds() && ReadyToApply(s, id, token).Ok?
    requires Inv(t) && Grows(ApplyImplementation(s, id, token, disk).after, t) && Pending(t, id)
    requires SameSourcesOff(ApplyImplementation(s, id, token, disk).after.tree, t.tree, edited)
    requires edited !! Files(ReadyToApply(s, id, token).value.changes)
    ensures var changes := ReadyToApply(s, id, token).value.changes;
            var back := ReviewImplementation(t, id, RollBack, restorer);
            && (back.Succeeds() <==> Fits(changes) && AllLand(restorer, changes))
            && (back.Succeeds() ==> SameSourcesOff(s.tree, back.after.tree, edited))
  {
    hide Inv, Grows, WellFormed, CheckTargets, WriteFrom, Undo, UnderBackups, BackupPath, BlockedFile, ReviewImplementation,
         Holds, SafeTarget, SameSourcesOff, Files;
    ReadyProposal(s, id, token);
    var u := ApplyImplementation(s, id, token, disk).after;
    var changes := ReadyToApply(s, id, token).value.changes;
    var slots := Slots(id, changes);
    SameChanges(u, t, id);
    hide ApplyImplementation, ReadyToApply, LandsAt;
    InvRollback(t, id, restorer);
    AllLandMeans(id, changes, restorer);
    forall j | 0 <= j < |slots|
      ensures SafeTarget(t.tree, changes[j].path) == Ok(changes[j].newContent) <==> |changes[j].newContent| <= MAX_TARGET_FILE_BYTES
    {
      BracketTarget(s, id, token, disk, t.tree, edited, j);
    }
    assert StillApplied(t.tree, slots) <==> Fits(changes) by {
      if StillApplied(t.tree, slots) {
        forall j | 0 <= j < |changes| ensures |changes[j].newContent| <= MAX_TARGET_FILE_BYTES {
          assert slots[j].change == changes[j];
        }
      }
    }
    if ReviewImplementation(t, id, RollBack, restorer).Succeeds() {
      BracketRestores(s, id, token, disk, t, restorer, edited);
    }
  }

  lemma BracketRestores(s: State, id: Id, token: string, disk: Disk, t: State, restorer: Restorer, edited: set<Path>)
    requires Inv(s) && ApplyImplementation(s, id, token, disk).Succeeds() && ReadyToApply(s, id, token).Ok?
    requires Pending(t, id) && t.implementations[id].proposalId in t.proposals
    requires t.proposals[t.implementations[id].proposalId].changes == ReadyToApply(s, id, token).value.changes
    requires SameSourcesOff(ApplyImplementation(s, id, token, disk).after.tree, t.tree, edited)
    requires edited !! Files(ReadyToApply(s, id, token).value.changes)
    requires RollbackOutcome(t, id, restorer) && ReviewImplementation(t, id, RollBack, restorer).Succeeds()
    ensures SameSourcesOff(s.tree, ReviewImplementation(t, id, RollBack, restorer).after.tree, edited)
  {
    hide Inv, WellFormed, UnderBackups, BackupPath, BlockedFile, ReviewImplementation, ApplyImplementation, ReadyToApply,
         SafeTarget, Holds, BackedUp, Separate, StillApplied, Present;
    ReadyProposal(s, id, token);
    AppliedTree(s, id, token, disk);
    var changes := ReadyToApply(s, id, token).value.changes;
    var slots := Slots(id, changes);
    var after := ReviewImplementation(t, id, RollBack, restorer).after.tree;
    forall q: Path | !UnderBackups(q) && q !in edited ensures SameAt(s.tree, after, q) {
      if j :| 0 <= j < |slots| && slots[j].change.path == q {
        BracketTarget(s, id, token, disk, t.tree, edited, j);
        assert changes[j].path == q;
      } else {
        assert OffTargets(slots, 0, |slots|, q);
        forall j | 0 <= j < |slots| ensures q != slots[j].backup { BackupsNeverAlias(id, changes[j].path, id, q); }
        assert Untouched(slots, 0, q);
      }
    }
  }

  lemma GrowsReflexive(s: State)
    ensures Grows(s, s)
  {
  }

  /** What every session keeps, whether or not its calls succeed. */
  lemma {:induction false} SessionKeeps(s: State, session: Session)
    requires Inv(s)
    ensures Inv(Play(s, session).state) && Grows(s, Play(s, session).state)
    decreases session
  {
    hide Inv, Grows, Step, ApplyImplementation, ReviewImplementation, Possible, ReadyToApply, Fits, AllLand, Files, Edited;
    match session
    case Done =>
      GrowsReflexive(s);
    case Then(op, rest) =>
      if Possible(s, op) {
        StepKeeps(s, op);
        StepGrows(s, op);
        SessionKeeps(Step(s, op).after, rest);
        GrowsTransitive(s, Step(s, op).after, Play(s, session).state);
      } else {
        SessionKeeps(s, rest);
      }
    case Nested(id, token, disk, inner, restorer, after) =>
      var u := ApplyImplementation(s, id, token, disk).after;
      ApplyKeeps(s, id, token, disk);
      ApplyGrows(s, id, token, disk);
      SessionKeeps(u, inner);
      var t := Play(u, inner).state;
      var v := ReviewImplementation(t, id, RollBack, restorer).after;
      ReviewImplementationKeeps(t, id, RollBack, restorer);
      ReviewGrows(t, id, RollBack, restorer);
      SessionKeeps(v, after);
      GrowsTransitive(s, u, t);
      GrowsTransitive(s, t, v);
      GrowsTransitive(s, v, Play(s, session).state);
  }

  /** A call that does not review id leaves it pending. */
  lemma StepKeepsPending(s: State, op: Op, id: Id)
    requires Possible(s, op) && Pending(s, id) && !(op.OpReviewImplementation? && op.id == id)
    ensures Pending(Step(s, op).after, id)
  {
    hide Step, Possible;
    StepKeepsStatus(s, op, id);
  }

  /** A session never takes away a pending review of an implementation it does not review itself. */
  lemma {:induction false} SessionKeepsPending(s: State, session: Session, id: Id)
    requires Pending(s, id) && id !in Reviewed(session)
    ensures Pending(Play(s, session).state, id)
    decreases session
  {
    hide ApplyImplementation, ReviewImplementation, Possible, Fits, AllLand, Files, Edited, ReadyToApply, Pending;
    match session
    case Done =>
    case Then(op, rest) =>
      hide Step;
      if Possible(s, op) {
        StepKeepsPending(s, op, id);
        SessionKeepsPending(Step(s, op).after, rest, id);
      } else {
        SessionKeepsPending(s, rest, id);
      }
    case Nested(other, token, disk, inner, restorer, after) =>
      ApplyKeepsPending(s, other, token, disk, id);
      var u := ApplyImplementation(s, other, token, disk).after;
      SessionKeepsPending(u, inner, id);
      var t := Play(u, inner).state;
      ReviewKeepsPending(t, other, restorer, id);
      SessionKeepsPending(ReviewImplementation(t, other, RollBack, restorer).after, after, id);
  }

  lemma ApplyKeepsPending(s: State, other: Id, token: string, disk: Disk, id: Id)
    requires Pending(s, id)
    ensures Pending(ApplyImplementation(s, other, token, disk).after, id)
  {
    hide ApplyImplementation, Pending;
    StepKeepsPending(s, OpApply(other, token, disk), id);
  }

  lemma ReviewKeepsPending(s: State, other: Id, restorer: Restorer, id: Id)
    requires Pending(s, id) && other != id
    ensures Pending(ReviewImplementation(s, other, RollBack, restorer).after, id)
  {
    hide ReviewImplementation, Pending;
    StepKeepsPending(s, OpReviewImplementation(other, RollBack, restorer), id);
  }

  /** Whatever is applied in a well-nested session, overlapping files included, is undone by it: its rollbacks all succeed
      exactly when every applied content fits the target limit and every restore write lands, and then the sources
      are what they were, but for those that calls outside the brackets changed. */
  lemma {:induction false} SessionRoundTrip(s: State, session: Session)
    requires Inv(s) && Play(s, session).applied && Play(s, session).apart
    ensures var played := Play(s, session);
            && (played.undone <==> played.fits && played.lands)
            && (played.undone ==> SameSourcesOff(s.tree, played.state.tree, played.edited))
    decreases session
  {
    hide Inv, Step, ApplyImplementation, ReviewImplementation, Possible, Fits, AllLand, Files, Edited, SameSourcesOff,
         Pending, Grows, ReadyToApply, Reviewed;
    match session
    case Done =>
      SameSourcesReflexive(s.tree);
    case Then(op, rest) =>
      if Possible(s, op) {
        StepKeeps(s, op);
        SessionRoundTrip(Step(s, op).after, rest);
        EditedIsAll(s.tree, Step(s, op).after.tree);
        if Play(s, session).undone {
          SameSourcesOffTransitive(s.tree, Step(s, op).after.tree, Play(s, session).state.tree,
                                   Edited(s.tree, Step(s, op).after.tree), Play(Step(s, op).after, rest).edited);
        }
      } else {
        SessionRoundTrip(s, rest);
      }
    case Nested(id, token, disk, inner, restorer, after) =>
      var u := ApplyImplementation(s, id, token, disk).after;
      AppliedWasReady(s, id, token, disk);
      ApplyKeeps(s, id, token, disk);
      SessionRoundTrip(u, inner);
      SessionKeeps(u, inner);
      SessionKeepsPending(u, inner, id);
      var i := Play(u, inner);
      if i.undone {
        Bracket(s, id, token, disk, i.state, restorer, i.edited);
        var back := ReviewImplementation(i.state, id, RollBack, restorer);
        ReviewImplementationKeeps(i.state, id, RollBack, restorer);
        SessionRoundTrip(back.after, after);
        if Play(s, session).undone {
          SameSourcesOffTransitive(s.tree, back.after.tree, Play(s, session).state.tree,
                                   i.edited, Play(back.after, after).edited);
        }
      }
  }

  /** One implementation to apply: its token, and what the disk does then and when it is rolled back. */
  datatype Apply = Apply(id: Id, token: string, disk: Disk, restorer: Restorer)

  /** The session that applies a list of implementations in order and then rolls them back in reverse order. */
  function Stack(applies: seq<Apply>): Session {
    if applies == [] then Done
    else Nested(applies[0].id, applies[0].token, applies[0].disk, Stack(applies[1..]), applies[0].restorer, Done)
  }

  /** A pending implementation is not applied again. */
  lemma {:induction false} PendingIsNotStacked(s: State, applies: seq<Apply>, id: Id)
    requires Pending(s, id) && Play(s, Stack(applies)).applied
    ensures id !in Reviewed(Stack(applies))
    decreases |applies|
  {
    hide ApplyImplementation, ReviewImplementation, Fits, AllLand, Files, ReadyToApply;
    if applies != [] {
      var a := applies[0];
      AppliedWasReady(s, a.id, a.token, a.disk);
      ApplyKeepsPending(s, a.id, a.token, a.disk, id);
      PendingIsNotStacked(ApplyImplementation(s, a.id, a.token, a.disk).after, applies[1..], id);
    }
  }

  lemma {:induction false} StackIsApart(s: State, applies: seq<Apply>)
    requires Play(s, Stack(applies)).applied
    ensures Play(s, Stack(applies)).apart && Play(s, Stack(applies)).edited == {}
    decreases |applies|
  {
    hide ApplyImplementation, ReviewImplementation, Fits, AllLand, Files, ReadyToApply, Pending;
    if applies != [] {
      var a := applies[0];
      var u := ApplyImplementation(s, a.id, a.token, a.disk).after;
      AppliedWasReady(s, a.id, a.token, a.disk);
      PendingIsNotStacked(u, applies[1..], a.id);
      StackIsApart(u, applies[1..]);
    }
  }

  /** Applied one after the other, whatever files they share, implementations are undone by rolling them back in reverse:
      every rollback succeeds exactly when every applied content is within the target limit and every restore write lands. */
  lemma ReverseRollbackRestoresTheSources(s: State, applies: seq<Apply>)
    requires Reachable(s) && Play(s, Stack(applies)).applied
    ensures var played := Play(s, Stack(applies));
            && (played.undone <==> played.fits && played.lands)
            && (played.undone ==> SameSources(s.tree, played.state.tree))
  {
    hide Play, Inv, Stack, Reviewed;
    ReachableInv(s);
    StackIsApart(s, applies);
    SessionRoundTrip(s, Stack(applies));
    hide Reachable;
    if Play(s, Stack(applies)).undone { NothingEdited(s.tree, Play(s, Stack(applies)).state.tree); }
  }

  lemma NothingEdited(a: Tree, b: Tree)
    requires SameSourcesOff(a, b, {})
    ensures SameSources(a, b)
  {
    hide UnderBackups;
  }

  /** The limits disagree: a change too large ever to be rolled back passes validation. */
  lemma OversizedChangePassesValidation()
    ensures exists targets, edits ::
              && ValidateProposal(targets, edits).Ok?
              && !Fits(ValidateProposal(targets, edits).value)
  {
    var content: Content := seq(MAX_TARGET_FILE_BYTES + 1, _ => 0);
    var targets: map<Path, Digest<Content>> := map[["app.py"] := Sha256([])];
    var edits := [Edit(["app.py"], content)];
    NormalizeEditsMeaning(targets, edits);
    assert Bytes(edits) == Bytes(edits[..0]) + |content|;
    assert ValidateProposal(targets, edits).value[0].newContent == content;
  }
}
