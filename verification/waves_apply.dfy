/**
 One apply and one rollback: exactly what they do to the tree, whatever the disk does,
 and when they are all-or-nothing.
 */
module WavesApply {
  import opened Common
  import opened SourceTree
  import opened Waves

  /** What validation guarantees of a proposal's changes. */
  ghost predicate WellFormed(changes: seq<Change>) {
    && changes != []
    && (forall i, j :: 0 <= i < j < |changes| ==> changes[i].path != changes[j].path)
    && (forall i :: 0 <= i < |changes| ==> changes[i].postimage == Sha256(changes[i].newContent))
  }

  /** No two of the files a group of changes touches coincide. */
  ghost predicate Separate(slots: seq<Slot>) {
    && (forall i, j :: 0 <= i < j < |slots| ==>
          slots[i].change.path != slots[j].change.path && slots[i].backup != slots[j].backup)
    && (forall i, j :: 0 <= i < |slots| && 0 <= j < |slots| ==> slots[i].backup != slots[j].change.path)
    && (forall i :: 0 <= i < |slots| ==> slots[i].change.postimage == Sha256(slots[i].change.newContent))
  }

  /** A proposal that may be applied names only files that may be targets. */
  lemma ReadyTargets(s: State, id: Id, token: string)
    requires ReadyToApply(s, id, token).Ok?
    ensures forall i :: 0 <= i < |ReadyToApply(s, id, token).value.changes| ==>
              && !UnderBackups(ReadyToApply(s, id, token).value.changes[i].path)
              && !BlockedFile(ReadyToApply(s, id, token).value.changes[i].path)
  {
    hide SafeTarget, BlockedFile, UnderBackups;
    var changes := ReadyToApply(s, id, token).value.changes;
    forall i | 0 <= i < |changes| ensures !UnderBackups(changes[i].path) && !BlockedFile(changes[i].path) {
      assert SafeTarget(s.tree, changes[i].path).Ok?;
      BackupsNeverAlias(id, changes[i].path, id, changes[i].path);
    }
  }

  lemma SlotsAreSeparate(id: Id, changes: seq<Change>)
    requires WellFormed(changes)
    requires forall i :: 0 <= i < |changes| ==> !BlockedFile(changes[i].path)
    ensures Separate(Slots(id, changes))
  {
    hide UnderBackups, BackupPath, BlockedFile;
    forall i, j | 0 <= i < |changes| && 0 <= j < |changes|
      ensures BackupPath(id, changes[i].path) != changes[j].path
      ensures BackupPath(id, changes[i].path) == BackupPath(id, changes[j].path) ==> changes[i].path == changes[j].path
    {
      BackupsNeverAlias(id, changes[i].path, id, changes[j].path);
    }
  }

  /** q is neither a target of slots i.. nor one of their backups. */
  ghost predicate Untouched(slots: seq<Slot>, i: nat, q: Path) {
    forall j :: i <= j < |slots| ==> q != slots[j].change.path && q != slots[j].backup
  }

  /** q is not a target of slots lo..hi. */
  ghost predicate OffTargets(slots: seq<Slot>, lo: nat, hi: nat, q: Path)
    requires hi <= |slots|
  {
    forall j :: lo <= j < hi ==> q != slots[j].change.path
  }

  ghost predicate SameAt(a: Tree, b: Tree, q: Path) {
    (q in a <==> q in b) && (q in a ==> a[q] == b[q])
  }

  /** What slot k's file holds when its write raised. */
  function Residue(tree: Tree, slots: seq<Slot>, disk: Disk, k: nat): Content
    requires k < |slots| && slots[k].change.path in tree
  {
    match IoAt(disk, slots, k)
    case RaisesBefore(_) => tree[slots[k].change.path]
    case RaisesAfter(onDisk) => onDisk
    case Lands(onDisk) => onDisk
  }

  /** The write loop leaves alone what it does not own. */
  lemma {:induction false} WriteFromFrame(tree: Tree, slots: seq<Slot>, disk: Disk, i: nat, q: Path)
    requires i <= |slots| && Separate(slots) && Present(tree, slots)
    requires Untouched(slots, i, q)
    ensures SameAt(WriteFrom(tree, slots, disk, i).tree, tree, q)
    decreases |slots| - i
  {
    if i < |slots| && IoAt(disk, slots, i).Lands? {
      WriteFromFrame(BackUpAndReplace(tree, slots[i], IoAt(disk, slots, i).onDisk), slots, disk, i + 1, q);
    }
  }

  /** Slot j after the write loop over tree stopped at slot failed. */
  ghost predicate SlotWritten(after: Tree, tree: Tree, slots: seq<Slot>, disk: Disk, failed: nat, j: nat)
    requires j < |slots| && Present(tree, slots)
  {
    && slots[j].change.path in after
    && (j < failed ==>
          && after[slots[j].change.path] == slots[j].change.newContent
          && slots[j].backup in after
          && after[slots[j].backup] == tree[slots[j].change.path])
    && (j == failed ==> after[slots[j].change.path] == Residue(tree, slots, disk, j))
    && (j > failed ==> after[slots[j].change.path] == tree[slots[j].change.path])
  }

  /** The effect of the write loop on each change. */
  lemma {:induction false} WriteFromEffect(tree: Tree, slots: seq<Slot>, disk: Disk, i: nat, j: nat)
    requires i <= j < |slots| && Separate(slots) && Present(tree, slots)
    ensures var w := WriteFrom(tree, slots, disk, i);
            SlotWritten(w.tree, tree, slots, disk, w.failed, j)
    decreases |slots| - i
  {
    if IoAt(disk, slots, i).Lands? {
      var onDisk := IoAt(disk, slots, i).onDisk;
      var written := BackUpAndReplace(tree, slots[i], onDisk);
      if Sha256(onDisk) == slots[i].change.postimage {
        if j == i {
          WriteFromFrame(written, slots, disk, i + 1, slots[i].change.path);
          WriteFromFrame(written, slots, disk, i + 1, slots[i].backup);
        } else {
          WriteFromEffect(written, slots, disk, i + 1, j);
        }
      }
    }
  }

  /** The write loop stops only at a write that raised or read back differently. */
  lemma {:induction false} WriteFromStopsAtFault(tree: Tree, slots: seq<Slot>, disk: Disk, i: nat)
    requires i <= |slots| && Separate(slots) && Present(tree, slots)
    ensures var k := WriteFrom(tree, slots, disk, i).failed;
            && (forall j :: i <= j < k ==> IoAt(disk, slots, j) == Lands(slots[j].change.newContent))
            && (k < |slots| ==> IoAt(disk, slots, k) != Lands(slots[k].change.newContent))
    decreases |slots| - i
  {
    if i < |slots| && IoAt(disk, slots, i) == Lands(slots[i].change.newContent) {
      WriteFromStopsAtFault(BackUpAndReplace(tree, slots[i], slots[i].change.newContent), slots, disk, i + 1);
    }
  }

  /** The first write from i on that raises or reads back differently, or the number of changes. */
  function FirstFault(slots: seq<Slot>, disk: Disk, i: nat): (k: nat)
    requires i <= |slots|
    ensures i <= k <= |slots|
    ensures forall j :: i <= j < k ==> IoAt(disk, slots, j) == Lands(slots[j].change.newContent)
    ensures k < |slots| ==> IoAt(disk, slots, k) != Lands(slots[k].change.newContent)
    decreases |slots| - i
  {
    if i < |slots| && IoAt(disk, slots, i) == Lands(slots[i].change.newContent) then FirstFault(slots, disk, i + 1) else i
  }

  lemma WriteFromStopsAtFirstFault(tree: Tree, slots: seq<Slot>, disk: Disk)
    requires Separate(slots) && Present(tree, slots)
    ensures WriteFrom(tree, slots, disk, 0).failed == FirstFault(slots, disk, 0)
  {
    WriteFromStopsAtFault(tree, slots, disk, 0);
  }

  /** Number of undo writes that complete when n are due. */
  function Completed(n: nat, stop: Option<UndoStop>): nat {
    if stop.Some? && stop.value.completed < n then stop.value.completed else n
  }

  lemma {:induction false} UndoFrame(tree: Tree, slots: seq<Slot>, n: nat, stop: Option<UndoStop>, q: Path)
    requires n <= |slots| && OffTargets(slots, 0, n, q)
    ensures SameAt(Undo(tree, slots, n, stop), tree, q)
    decreases n
  {
    if n > 0 {
      var slot := slots[n - 1];
      if slot.backup !in tree {
        UndoFrame(tree, slots, n - 1, stop, q);
      } else if stop.None? {
        UndoFrame(tree[slot.change.path := tree[slot.backup]], slots, n - 1, None, q);
      } else if stop.value.completed > 0 {
        UndoFrame(tree[slot.change.path := tree[slot.backup]], slots, n - 1,
                  Some(UndoStop(stop.value.completed - 1, stop.value.torn)), q);
      }
    }
  }

  /** Slot j after the first n slots of tree were undone. */
  ghost predicate SlotUndone(after: Tree, tree: Tree, slots: seq<Slot>, n: nat, stop: Option<UndoStop>, j: nat)
    requires j < n <= |slots| && slots[j].change.path in tree && slots[j].backup in tree
  {
    var rest := n - Completed(n, stop);
    && slots[j].change.path in after
    && (j >= rest ==> after[slots[j].change.path] == tree[slots[j].backup])
    && (j == rest - 1 ==> after[slots[j].change.path] == stop.value.torn)
    && (j < rest - 1 ==> after[slots[j].change.path] == tree[slots[j].change.path])
  }

  /** The effect of undoing the first n changes: the last Completed of them are restored, one may be torn. */
  lemma {:induction false} UndoEffect(tree: Tree, slots: seq<Slot>, n: nat, stop: Option<UndoStop>, j: nat)
    requires j < n <= |slots| && Separate(slots) && Present(tree, slots)
    requires forall k :: 0 <= k < n ==> slots[k].backup in tree
    ensures SlotUndone(Undo(tree, slots, n, stop), tree, slots, n, stop, j)
    decreases n
  {
    var slot := slots[n - 1];
    if stop == None || stop.value.completed > 0 {
      var restored := tree[slot.change.path := tree[slot.backup]];
      var stop' := if stop == None then None else Some(UndoStop(stop.value.completed - 1, stop.value.torn));
      if j == n - 1 {
        UndoFrame(restored, slots, n - 1, stop', slot.change.path);
      } else {
        UndoEffect(restored, slots, n - 1, stop', j);
      }
    }
  }

  /** The content target j must have after an apply whose write k raised. */
  function AfterFailure(tree: Tree, slots: seq<Slot>, disk: Disk, k: nat, j: nat): Content
    requires k < |slots| && j < |slots| && Present(tree, slots)
  {
    var before := tree[slots[j].change.path];
    var rest := k - Completed(k, disk.undo);
    if j > k then before
    else if j == k then Residue(tree, slots, disk, k)
    else if j >= rest then before
    else if j == rest - 1 then disk.undo.value.torn
    else slots[j].change.newContent
  }

  /** Whatever the disk does, a raising write loop and its undo leave exactly these contents behind. */
  lemma FailedWrites(tree: Tree, slots: seq<Slot>, disk: Disk)
    requires Separate(slots) && Present(tree, slots)
    requires WriteFrom(tree, slots, disk, 0).failed < |slots|
    ensures var w := WriteFrom(tree, slots, disk, 0);
            var t := Undo(w.tree, slots, w.failed, disk.undo);
            && Present(t, slots)
            && (forall j :: 0 <= j < |slots| ==> t[slots[j].change.path] == AfterFailure(tree, slots, disk, w.failed, j))
            && (forall q :: Untouched(slots, 0, q) ==> SameAt(t, tree, q))
  {
    var w := WriteFrom(tree, slots, disk, 0);
    forall j | 0 <= j < |slots|
      ensures slots[j].change.path in w.tree && (j < w.failed ==> slots[j].backup in w.tree)
    {
      WriteFromEffect(tree, slots, disk, 0, j);
    }
    var t := Undo(w.tree, slots, w.failed, disk.undo);
    forall j | 0 <= j < |slots|
      ensures slots[j].change.path in t && t[slots[j].change.path] == AfterFailure(tree, slots, disk, w.failed, j)
    {
      WriteFromEffect(tree, slots, disk, 0, j);
      if j < w.failed {
        UndoEffect(w.tree, slots, w.failed, disk.undo, j);
      } else {
        UndoFrame(w.tree, slots, w.failed, disk.undo, slots[j].change.path);
      }
    }
    forall q | Untouched(slots, 0, q) ensures SameAt(t, tree, q) {
      WriteFromFrame(tree, slots, disk, 0, q);
      UndoFrame(w.tree, slots, w.failed, disk.undo, q);
    }
  }

  /** The disk's misbehaviour happens to leave every file with its old bytes. */
  ghost predicate Harmless(tree: Tree, slots: seq<Slot>, disk: Disk, k: nat)
    requires k < |slots| && Present(tree, slots)
  {
    var rest := k - Completed(k, disk.undo);
    && Residue(tree, slots, disk, k) == tree[slots[k].change.path]
    && (rest > 0 ==> disk.undo.value.torn == tree[slots[rest - 1].change.path])
    && (forall j :: 0 <= j < rest - 1 ==> slots[j].change.newContent == tree[slots[j].change.path])
  }

  lemma HarmlessMeansSame(tree: Tree, slots: seq<Slot>, disk: Disk, k: nat)
    requires k < |slots| && Present(tree, slots)
    ensures Harmless(tree, slots, disk, k)
            <==> forall j :: 0 <= j < |slots| ==> AfterFailure(tree, slots, disk, k, j) == tree[slots[j].change.path]
  {
    if forall j :: 0 <= j < |slots| ==> AfterFailure(tree, slots, disk, k, j) == tree[slots[j].change.path] {
      assert AfterFailure(tree, slots, disk, k, k) == tree[slots[k].change.path];
      forall j | 0 <= j < k - Completed(k, disk.undo)
        ensures AfterFailure(tree, slots, disk, k, j) == tree[slots[j].change.path]
      {
      }
    }
  }

  /** An apply that was let through raises exactly at the first write where the disk faults; it then restores the sources
      exactly when neither that file nor the undo is left with new bytes. */
  lemma ApplyIsAllOrNothingIff(s: State, id: Id, token: string, disk: Disk)
    requires ReadyToApply(s, id, token).Ok?
    requires WellFormed(ReadyToApply(s, id, token).value.changes)
    ensures var slots := Slots(id, ReadyToApply(s, id, token).value.changes);
            var k := FirstFault(slots, disk, 0);
            var call := ApplyImplementation(s, id, token, disk);
            && Present(s.tree, slots)
            && (call.Succeeds() <==> k == |slots|)
            && (k < |slots| ==>
                  && call.after == s.(tree := call.after.tree)
                  && (SameSources(s.tree, call.after.tree) <==> Harmless(s.tree, slots, disk, k)))
  {
    hide ReadyToApply, UnderBackups, BackupPath, BlockedFile;
    var changes := ReadyToApply(s, id, token).value.changes;
    ReadyTargets(s, id, token);
    SlotsAreSeparate(id, changes);
    WriteFromStopsAtFirstFault(s.tree, Slots(id, changes), disk);
    if !ApplyImplementation(s, id, token, disk).Succeeds() { RaisingApply(s, id, token, disk); }
  }

  lemma RaisingApply(s: State, id: Id, token: string, disk: Disk)
    requires ReadyToApply(s, id, token).Ok?
    requires WellFormed(ReadyToApply(s, id, token).value.changes)
    requires !ApplyImplementation(s, id, token, disk).Succeeds()
    ensures var slots := Slots(id, ReadyToApply(s, id, token).value.changes);
            var k := WriteFrom(s.tree, slots, disk, 0).failed;
            var call := ApplyImplementation(s, id, token, disk);
            && k < |slots|
            && call.after == s.(tree := call.after.tree)
            && (SameSources(s.tree, call.after.tree) <==> Harmless(s.tree, slots, disk, k))
  {
    hide ReadyToApply, UnderBackups, BlockedFile, Undo, WriteFrom, SameSources, Harmless, SafeTarget;
    var changes := ReadyToApply(s, id, token).value.changes;
    ReadyTargets(s, id, token);
    SlotsAreSeparate(id, changes);
    ReadyIsPresent(s, id, token);
    if WriteFrom(s.tree, Slots(id, changes), disk, 0).failed < |changes| { FailedSourcesIff(s.tree, id, changes, disk); }
  }

  lemma ReadyIsPresent(s: State, id: Id, token: string)
    requires ReadyToApply(s, id, token).Ok?
    ensures Present(s.tree, Slots(id, ReadyToApply(s, id, token).value.changes))
  {
    hide ReadyToApply, BlockedFile, Suffix, Lower;
    var changes := ReadyToApply(s, id, token).value.changes;
    forall j | 0 <= j < |changes| ensures changes[j].path in s.tree { assert Holds(s.tree, changes[j].path, changes[j].preimage); }
  }

  /** What a raising write loop and its undo leave is what there was exactly if the residue is harmless. */
  lemma FailedSourcesIff(tree: Tree, id: Id, changes: seq<Change>, disk: Disk)
    requires var slots := Slots(id, changes);
             && Separate(slots) && Present(tree, slots) && WriteFrom(tree, slots, disk, 0).failed < |slots|
             && forall i :: 0 <= i < |changes| ==> !UnderBackups(changes[i].path)
    ensures var slots := Slots(id, changes);
            var w := WriteFrom(tree, slots, disk, 0);
            SameSources(tree, Undo(w.tree, slots, w.failed, disk.undo)) <==> Harmless(tree, slots, disk, w.failed)
  {
    hide UnderBackups, BackupPath, BlockedFile;
    var slots := Slots(id, changes);
    FailedWrites(tree, slots, disk);
    var w := WriteFrom(tree, slots, disk, 0);
    var t := Undo(w.tree, slots, w.failed, disk.undo);
    HarmlessMeansSame(tree, slots, disk, w.failed);
    if SameSources(tree, t) {
      forall j | 0 <= j < |slots|
        ensures AfterFailure(tree, slots, disk, w.failed, j) == tree[slots[j].change.path]
      {
        assert !UnderBackups(changes[j].path);
      }
    }
    if Harmless(tree, slots, disk, w.failed) {
      forall p: Path | !UnderBackups(p) ensures SameAt(tree, t, p) {
        forall j | 0 <= j < |slots| ensures p != slots[j].backup {
          BackupsNeverAlias(id, changes[j].path, id, p);
        }
        if j :| 0 <= j < |slots| && slots[j].change.path == p {
        } else {
          assert Untouched(slots, 0, p);
        }
      }
    }
  }

  /** The disk may raise, but a completed write reads back as written and the undo completes. */
  ghost predicate Honest(slots: seq<Slot>, disk: Disk) {
    && disk.undo == None
    && forall i :: 0 <= i < |slots| ==>
         IoAt(disk, slots, i).RaisesBefore? || IoAt(disk, slots, i) == Lands(slots[i].change.newContent)
  }

  /** On an honest disk an apply that raises anywhere leaves every source file as before. */
  lemma HonestApplyIsAllOrNothing(s: State, id: Id, token: string, disk: Disk)
    requires ReadyToApply(s, id, token).Ok? ==>
               && WellFormed(ReadyToApply(s, id, token).value.changes)
               && Honest(Slots(id, ReadyToApply(s, id, token).value.changes), disk)
    requires !ApplyImplementation(s, id, token, disk).Succeeds()
    ensures SameSources(s.tree, ApplyImplementation(s, id, token, disk).after.tree)
  {
    hide ReadyToApply, UnderBackups, BackupPath, BlockedFile;
    if ReadyToApply(s, id, token).Ok? {
      var changes := ReadyToApply(s, id, token).value.changes;
      ReadyTargets(s, id, token);
      SlotsAreSeparate(id, changes);
      ApplyIsAllOrNothingIff(s, id, token, disk);
    }
  }

  /** A file whose read-back raises is not on the undo list: it keeps its new bytes. */
  lemma ReadBackFailureLeavesItsFile(s: State, id: Id, token: string)
    requires ReadyToApply(s, id, token).Ok?
    requires WellFormed(ReadyToApply(s, id, token).value.changes)
    requires var c := ReadyToApply(s, id, token).value.changes[0];
             c.path in s.tree ==> s.tree[c.path] != c.newContent
    ensures var c := ReadyToApply(s, id, token).value.changes[0];
            var call := ApplyImplementation(s, id, token, Disk([RaisesAfter(c.newContent)], None));
            !call.Succeeds() && !SameSources(s.tree, call.after.tree)
  {
    hide ReadyToApply, UnderBackups, BackupPath, BlockedFile, SameSources;
    var c := ReadyToApply(s, id, token).value.changes[0];
    var disk := Disk([RaisesAfter(c.newContent)], None);
    var slots := Slots(id, ReadyToApply(s, id, token).value.changes);
    assert IoAt(disk, slots, 0) == RaisesAfter(c.newContent);
    ApplyIsAllOrNothingIff(s, id, token, disk);
  }

  /** A successful apply writes exactly the proposal's changes and keeps every preimage. */
  lemma AppliedTree(s: State, id: Id, token: string, disk: Disk)
    requires ReadyToApply(s, id, token).Ok?
    requires WellFormed(ReadyToApply(s, id, token).value.changes)
    requires ApplyImplementation(s, id, token, disk).Succeeds()
    ensures var slots := Slots(id, ReadyToApply(s, id, token).value.changes);
            var t := ApplyImplementation(s, id, token, disk).after.tree;
            && Separate(slots) && Present(s.tree, slots)
            && (forall j :: 0 <= j < |slots| ==> SlotWritten(t, s.tree, slots, disk, |slots|, j))
            && BackedUp(t, slots, 0)
            && (forall q :: Untouched(slots, 0, q) ==> SameAt(t, s.tree, q))
  {
    hide ReadyToApply, UnderBackups, BackupPath, BlockedFile;
    var changes := ReadyToApply(s, id, token).value.changes;
    var slots := Slots(id, changes);
    ReadyTargets(s, id, token);
    SlotsAreSeparate(id, changes);
    var t := ApplyImplementation(s, id, token, disk).after.tree;
    forall j | 0 <= j < |slots|
      ensures SlotWritten(t, s.tree, slots, disk, |slots|, j)
      ensures slots[j].backup in t && Sha256(t[slots[j].backup]) == slots[j].change.preimage
    {
      WriteFromEffect(s.tree, slots, disk, 0, j);
      assert Sha256(s.tree[changes[j].path]) == changes[j].preimage;
    }
    forall q | Untouched(slots, 0, q) ensures SameAt(t, s.tree, q) {
      WriteFromFrame(s.tree, slots, disk, 0, q);
    }
  }

  /* ---------- Rollback ---------- */

  /** The backups hold the preimages of changes i... */
  ghost predicate BackedUp(tree: Tree, slots: seq<Slot>, i: nat) {
    forall j :: i <= j < |slots| ==>
      slots[j].backup in tree && Sha256(tree[slots[j].backup]) == slots[j].change.preimage
  }

  ghost predicate AllSafe(tree: Tree, slots: seq<Slot>, i: nat) {
    forall j :: i <= j < |slots| ==> SafeTarget(tree, slots[j].change.path).Ok?
  }

  /** The restore write of change c lands and puts the preimage back. */
  predicate LandsAt(disk: Restorer, i: nat, c: Change) {
    i < |disk| ==> disk[i].Restores? && Sha256(disk[i].onDisk) == c.preimage
  }

  /** The first restore write from i on that does not, or the number of changes. */
  function FirstLost(slots: seq<Slot>, disk: Restorer, i: nat): (k: nat)
    requires i <= |slots|
    ensures i <= k <= |slots|
    ensures forall j :: i <= j < k ==> LandsAt(disk, j, slots[j].change)
    ensures k < |slots| ==> !LandsAt(disk, k, slots[k].change)
    decreases |slots| - i
  {
    if i < |slots| && LandsAt(disk, i, slots[i].change) then FirstLost(slots, disk, i + 1) else i
  }

  /** One turn writes its own target or nothing. */
  lemma RestoreOneFrame(tree: Tree, slot: Slot, disk: Restorer, i: nat, q: Path)
    requires q != slot.change.path
    ensures SameAt(RestoreOne(tree, slot, disk, i).0, tree, q)
  {
    hide SafeTarget;
  }

  lemma {:induction false} RestoreFromFrame(tree: Tree, slots: seq<Slot>, disk: Restorer, i: nat, q: Path)
    requires i <= |slots| && OffTargets(slots, i, |slots|, q)
    ensures SameAt(RestoreFrom(tree, slots, disk, i).0, tree, q)
    decreases |slots| - i
  {
    hide RestoreOne;
    if i < |slots| {
      RestoreOneFrame(tree, slots[i], disk, i, q);
      RestoreFromFrame(RestoreOne(tree, slots[i], disk, i).0, slots, disk, i + 1, q);
    }
  }

  /** What target j holds after the restore loop over tree stopped at slot k. */
  function AfterRestore(tree: Tree, slots: seq<Slot>, disk: Restorer, k: nat, j: nat): Content
    requires j < |slots| && slots[j].change.path in tree && slots[j].backup in tree
  {
    if j < k then tree[slots[j].backup]
    else if j > k then tree[slots[j].change.path]
    else
      match RestoreIoAt(disk, j, tree[slots[j].backup])
      case RaisesUnwritten => tree[slots[j].change.path]
      case RaisesTorn(onDisk) => onDisk
      case Restores(onDisk) => onDisk
  }

  /** The errors of a restore that the disk stops. */
  predicate RestoreError(error: Error) {
    error == WriteFailed || error == RollbackPreimageHashMismatch
  }

  /** One turn over an admissible target with a whole backup goes on exactly if its write lands. */
  lemma RestoreOneEffect(tree: Tree, slots: seq<Slot>, disk: Restorer, i: nat)
    requires i < |slots| && BackedUp(tree, slots, i) && AllSafe(tree, slots, i)
    ensures var (t, error) := RestoreOne(tree, slots[i], disk, i);
            && (error == None <==> LandsAt(disk, i, slots[i].change))
            && (error.Some? ==> RestoreError(error.value))
            && slots[i].change.path in tree && slots[i].change.path in t
            && t[slots[i].change.path] == AfterRestore(tree, slots, disk, if error == None then i + 1 else i, i)
  {
    hide BlockedFile, Suffix;
    assert SafeTarget(tree, slots[i].change.path).Ok?;
    assert slots[i].backup in tree && Sha256(tree[slots[i].backup]) == slots[i].change.preimage;
  }

  /** The turn leaves the later targets and backups in order. */
  lemma RestoreOneKeepsRest(tree: Tree, slots: seq<Slot>, disk: Restorer, i: nat)
    requires i < |slots| && Separate(slots) && BackedUp(tree, slots, i) && AllSafe(tree, slots, i)
    ensures var t := RestoreOne(tree, slots[i], disk, i).0;
            && BackedUp(t, slots, i + 1) && AllSafe(t, slots, i + 1)
            && forall j :: i < j < |slots| ==> SameAt(t, tree, slots[j].change.path) && SameAt(t, tree, slots[j].backup)
  {
    hide BlockedFile, Suffix, RestoreOne;
    var t := RestoreOne(tree, slots[i], disk, i).0;
    forall j | i < j < |slots|
      ensures SameAt(t, tree, slots[j].change.path) && SameAt(t, tree, slots[j].backup)
    {
      RestoreOneFrame(tree, slots[i], disk, i, slots[j].change.path);
      RestoreOneFrame(tree, slots[i], disk, i, slots[j].backup);
    }
    forall j | i < j < |slots| ensures SafeTarget(t, slots[j].change.path).Ok? {
      assert SafeTarget(tree, slots[j].change.path).Ok?;
    }
  }

  /** Target j after turn i of the loop. */
  lemma RestoreTurn(tree: Tree, slots: seq<Slot>, disk: Restorer, i: nat, j: nat)
    requires i <= j < |slots| && Separate(slots)
    requires BackedUp(tree, slots, i) && AllSafe(tree, slots, i)
    ensures slots[j].change.path in tree && slots[j].backup in tree && OffTargets(slots, i + 1, |slots|, slots[i].change.path)
    ensures var (t, error) := RestoreOne(tree, slots[i], disk, i);
            && (error == None <==> LandsAt(disk, i, slots[i].change))
            && (error.Some? ==> RestoreError(error.value))
            && BackedUp(t, slots, i + 1) && AllSafe(t, slots, i + 1)
            && (j > i ==> SameAt(t, tree, slots[j].change.path) && SameAt(t, tree, slots[j].backup))
            && slots[j].change.path in t
            && (error.Some? || j == i ==>
                  t[slots[j].change.path] == AfterRestore(tree, slots, disk, if error == None then i + 1 else i, j))
  {
    hide RestoreOne, LandsAt, BlockedFile, Suffix, Lower, FileName;
    RestoreOneEffect(tree, slots, disk, i);
    RestoreOneKeepsRest(tree, slots, disk, i);
    assert SafeTarget(tree, slots[j].change.path).Ok?;
  }

  lemma AfterRestoreAgrees(a: Tree, b: Tree, slots: seq<Slot>, disk: Restorer, k: nat, j: nat)
    requires j < |slots| && slots[j].change.path in b && slots[j].backup in b
    requires SameAt(a, b, slots[j].change.path) && SameAt(a, b, slots[j].backup)
    ensures AfterRestore(a, slots, disk, k, j) == AfterRestore(b, slots, disk, k, j)
  {
  }

  lemma RestoreFromEnds(tree: Tree, slots: seq<Slot>, disk: Restorer)
    ensures RestoreFrom(tree, slots, disk, |slots|) == (tree, None) && FirstLost(slots, disk, |slots|) == |slots|
  {
  }

  /** The loop and its first lost write, one turn at a time. */
  lemma RestoreFromUnfolds(tree: Tree, slots: seq<Slot>, disk: Restorer, i: nat)
    requires i < |slots|
    requires RestoreOne(tree, slots[i], disk, i).1 == None <==> LandsAt(disk, i, slots[i].change)
    ensures var (t, error) := RestoreOne(tree, slots[i], disk, i);
            if error.Some? then RestoreFrom(tree, slots, disk, i) == (t, error) && FirstLost(slots, disk, i) == i
            else RestoreFrom(tree, slots, disk, i) == RestoreFrom(t, slots, disk, i + 1)
                 && FirstLost(slots, disk, i) == FirstLost(slots, disk, i + 1)
  {
    hide RestoreOne, LandsAt;
  }

  /** Once the targets pass and the backups are whole, the loop stops only where the disk fails it. */
  lemma {:induction false} RestoreFromStops(tree: Tree, slots: seq<Slot>, disk: Restorer, i: nat)
    requires i <= |slots| && Separate(slots)
    requires BackedUp(tree, slots, i) && AllSafe(tree, slots, i)
    ensures var error := RestoreFrom(tree, slots, disk, i).1;
            && (error == None <==> FirstLost(slots, disk, i) == |slots|)
            && (error.Some? ==> RestoreError(error.value))
    decreases |slots| - i
  {
    hide *;
    if i < |slots| {
      RestoreTurn(tree, slots, disk, i, i);
      RestoreFromUnfolds(tree, slots, disk, i);
      var (t, error) := RestoreOne(tree, slots[i], disk, i);
      if error == None { RestoreFromStops(t, slots, disk, i + 1); }
    } else {
      RestoreFromEnds(tree, slots, disk);
    }
  }

  /** It leaves exactly these contents. */
  lemma {:induction false} RestoreFromEffect(tree: Tree, slots: seq<Slot>, disk: Restorer, i: nat, j: nat)
    requires i <= j < |slots| && Separate(slots)
    requires BackedUp(tree, slots, i) && AllSafe(tree, slots, i)
    ensures slots[j].change.path in tree && slots[j].backup in tree
    ensures var t := RestoreFrom(tree, slots, disk, i).0;
            && slots[j].change.path in t
            && t[slots[j].change.path] == AfterRestore(tree, slots, disk, FirstLost(slots, disk, i), j)
    decreases |slots| - i
  {
    hide *;
    RestoreTurn(tree, slots, disk, i, j);
    RestoreFromUnfolds(tree, slots, disk, i);
    var (t, error) := RestoreOne(tree, slots[i], disk, i);
    if error == None {
      if j > i {
        RestoreFromEffect(t, slots, disk, i + 1, j);
        AfterRestoreAgrees(t, tree, slots, disk, FirstLost(slots, disk, i), j);
      } else {
        RestoreFromFrame(t, slots, disk, i + 1, slots[i].change.path);
        SameAtReads(RestoreFrom(t, slots, disk, i + 1).0, t, slots[i].change.path);
        AfterRestoreBelow(tree, slots, disk, i + 1, FirstLost(slots, disk, i), i);
      }
    }
  }

  lemma SameAtReads(a: Tree, b: Tree, q: Path)
    requires SameAt(a, b, q) && q in b
    ensures q in a && a[q] == b[q]
  {
  }

  lemma AfterRestoreBelow(tree: Tree, slots: seq<Slot>, disk: Restorer, k: nat, k': nat, j: nat)
    requires j < |slots| && slots[j].change.path in tree && slots[j].backup in tree && j < k && j < k'
    ensures AfterRestore(tree, slots, disk, k, j) == AfterRestore(tree, slots, disk, k', j)
  {
  }

  /** Every target still holds the applied bytes and may still be a target. */
  ghost predicate StillApplied(tree: Tree, slots: seq<Slot>) {
    forall j :: 0 <= j < |slots| ==>
      SafeTarget(tree, slots[j].change.path) == Ok(slots[j].change.newContent)
  }

  /** A rollback that does not find the applied bytes is refused and changes nothing, whatever the disk does. */
  lemma RollbackIsRefused(s: State, id: Id, disk: Restorer)
    requires id in s.implementations && s.implementations[id].status == AppliedAwaitingReview
    requires s.implementations[id].proposalId in s.proposals
    requires WellFormed(s.proposals[s.implementations[id].proposalId].changes)
    ensures var changes := s.proposals[s.implementations[id].proposalId].changes;
            var stale := CheckTargets(s.tree, changes, true, RollbackPostimageChanged);
            && (stale.None? <==> StillApplied(s.tree, Slots(id, changes)))
            && (stale.Some? ==> ReviewImplementation(s, id, RollBack, disk) == Refuse(s, stale.value))
  {
    hide UnderBackups, BackupPath, SafeTarget, BlockedFile, RestoreFrom;
    var changes := s.proposals[s.implementations[id].proposalId].changes;
    var slots := Slots(id, changes);
    CheckTargetsMeaning(s.tree, changes, true, RollbackPostimageChanged);
    forall j | 0 <= j < |slots|
      ensures SafeTarget(s.tree, slots[j].change.path) == Ok(slots[j].change.newContent)
              <==> Holds(s.tree, changes[j].path, Wanted(changes[j], true))
    {
    }
  }

  /** With whole backups: a rollback succeeds exactly when every target still holds the applied bytes and every restore write
      lands; the exact contents it leaves behind when one does not; and nothing else changes. */
  lemma RollbackExactly(s: State, id: Id, disk: Restorer)
    requires id in s.implementations && s.implementations[id].status == AppliedAwaitingReview
    requires s.implementations[id].proposalId in s.proposals
    requires var changes := s.proposals[s.implementations[id].proposalId].changes;
             WellFormed(changes) && BackedUp(s.tree, Slots(id, changes), 0)
    ensures var slots := Slots(id, s.proposals[s.implementations[id].proposalId].changes);
            var call := ReviewImplementation(s, id, RollBack, disk);
            var k := FirstLost(slots, disk, 0);
            && (call.Succeeds() <==> StillApplied(s.tree, slots) && k == |slots|)
            && (!StillApplied(s.tree, slots) ==> call.after == s)
            && (!call.Succeeds() ==> call.after == s.(tree := call.after.tree))
            && (StillApplied(s.tree, slots) ==>
                  && Separate(slots) && (call.error.Some? ==> RestoreError(call.error.value))
                  && (forall j :: 0 <= j < |slots| ==>
                        && slots[j].change.path in s.tree && slots[j].change.path in call.after.tree
                        && call.after.tree[slots[j].change.path] == AfterRestore(s.tree, slots, disk, k, j))
                  && (forall q :: OffTargets(slots, 0, |slots|, q) ==> SameAt(call.after.tree, s.tree, q)))
  {
    hide UnderBackups, BackupPath, SafeTarget, BlockedFile, CheckTargets, StillApplied;
    var changes := s.proposals[s.implementations[id].proposalId].changes;
    var slots := Slots(id, changes);
    RollbackIsRefused(s, id, disk);
    if StillApplied(s.tree, slots) {
      StillAppliedIsSafe(s.tree, id, changes);
      var t := RestoreFrom(s.tree, slots, disk, 0).0;
      RestoreFromStops(s.tree, slots, disk, 0);
      var k := FirstLost(slots, disk, 0);
      forall j | 0 <= j < |slots|
        ensures slots[j].change.path in s.tree && slots[j].change.path in t
        ensures t[slots[j].change.path] == AfterRestore(s.tree, slots, disk, k, j)
      {
        RestoreFromEffect(s.tree, slots, disk, 0, j);
      }
      forall q | OffTargets(slots, 0, |slots|, q) ensures SameAt(t, s.tree, q) {
        RestoreFromFrame(s.tree, slots, disk, 0, q);
      }
    }
  }

  lemma StillAppliedIsSafe(tree: Tree, id: Id, changes: seq<Change>)
    requires WellFormed(changes) && StillApplied(tree, Slots(id, changes))
    ensures Separate(Slots(id, changes)) && AllSafe(tree, Slots(id, changes), 0)
    ensures forall j :: 0 <= j < |changes| ==> !BlockedFile(changes[j].path)
  {
    hide UnderBackups, BackupPath, BlockedFile;
    var slots := Slots(id, changes);
    forall j | 0 <= j < |changes| ensures !BlockedFile(changes[j].path) {
      assert SafeTarget(tree, slots[j].change.path).Ok?;
    }
    SlotsAreSeparate(id, changes);
  }

  /** Stopped at change k, a rollback has put back nothing that it changes: the changes before it are no changes, and its file
      was left as it was. */
  predicate RestoredNothing(changes: seq<Change>, disk: Restorer, k: nat)
    requires k < |changes|
  {
    && (forall j :: 0 <= j < k ==> changes[j].preimage == changes[j].postimage)
    && match RestoreIoAt(disk, k, [])
       case RaisesUnwritten => true
       case RaisesTorn(onDisk) => onDisk == changes[k].newContent
       case Restores(onDisk) => onDisk == changes[k].newContent
  }

  /** A rollback that the disk stops is all or nothing exactly when it had put nothing back. */
  lemma RollbackIsAllOrNothingIff(s: State, id: Id, disk: Restorer)
    requires id in s.implementations && s.implementations[id].status == AppliedAwaitingReview
    requires s.implementations[id].proposalId in s.proposals
    requires var changes := s.proposals[s.implementations[id].proposalId].changes;
             WellFormed(changes) && BackedUp(s.tree, Slots(id, changes), 0) && StillApplied(s.tree, Slots(id, changes))
    ensures var changes := s.proposals[s.implementations[id].proposalId].changes;
            var call := ReviewImplementation(s, id, RollBack, disk);
            var k := FirstLost(Slots(id, changes), disk, 0);
            && (call.Succeeds() <==> k == |changes|)
            && (k < |changes| ==> (SameSources(s.tree, call.after.tree) <==> RestoredNothing(changes, disk, k)))
  {
    hide UnderBackups, BackupPath, BlockedFile, ReviewImplementation, CheckTargets, Separate;
    var changes := s.proposals[s.implementations[id].proposalId].changes;
    var slots := Slots(id, changes);
    RollbackExactly(s, id, disk);
    StillAppliedIsSafe(s.tree, id, changes);
    var t := ReviewImplementation(s, id, RollBack, disk).after.tree;
    var k := FirstLost(slots, disk, 0);
    if k < |slots| {
      forall j | 0 <= j < |slots|
        ensures !UnderBackups(changes[j].path)
        ensures slots[j].change == changes[j] && s.tree[changes[j].path] == changes[j].newContent
      {
        BackupsNeverAlias(id, changes[j].path, id, changes[j].path);
        assert SafeTarget(s.tree, slots[j].change.path) == Ok(slots[j].change.newContent);
      }
      RestoredNothingMeans(s.tree, slots, changes, disk, k);
      if SameSources(s.tree, t) {
        forall j | 0 <= j < |slots| ensures AfterRestore(s.tree, slots, disk, k, j) == changes[j].newContent {
          assert SameAt(s.tree, t, changes[j].path);
        }
      }
      if RestoredNothing(changes, disk, k) {
        forall p: Path | !UnderBackups(p) ensures SameAt(s.tree, t, p) {
          if j :| 0 <= j < |slots| && slots[j].change.path == p {
            assert changes[j].path == p;
          } else {
            assert OffTargets(slots, 0, |slots|, p);
          }
        }
      }
    }
  }

  lemma RestoredNothingMeans(tree: Tree, slots: seq<Slot>, changes: seq<Change>, disk: Restorer, k: nat)
    requires |slots| == |changes| && k < |slots| && BackedUp(tree, slots, 0) && k == FirstLost(slots, disk, 0)
    requires forall j :: 0 <= j < |slots| ==>
               && slots[j].change == changes[j] && changes[j].postimage == Sha256(changes[j].newContent)
               && changes[j].path in tree && tree[changes[j].path] == changes[j].newContent
    ensures RestoredNothing(changes, disk, k) <==>
            forall j :: 0 <= j < |slots| ==> AfterRestore(tree, slots, disk, k, j) == changes[j].newContent
  {
    assert k < |disk|;
    if forall j :: 0 <= j < |slots| ==> AfterRestore(tree, slots, disk, k, j) == changes[j].newContent {
      assert AfterRestore(tree, slots, disk, k, k) == changes[k].newContent;
      forall j | 0 <= j < k ensures changes[j].preimage == changes[j].postimage {
        assert AfterRestore(tree, slots, disk, k, j) == changes[j].newContent;
      }
    }
  }
}
