/**
 What an execution leaves for the next one: every interruption its checkpoint, from which the same request goes on as if it
 had not been interrupted.
 */
module RuntimeResumes {
  import opened Common
  import opened Scan
  import opened Runtime

  /** The checkpoint exists, is one of this runtime for this very request, and holds a manifest and an index in range. */
  predicate Resumable(checkpoints: map<Id, Stored>, world: World, request: Request, name: Id) {
    && name in checkpoints && checkpoints[name].Document?
    && var d := checkpoints[name];
       && d.schema == "palwakf.agentic.runtime.checkpoint.v1" && d.binding.preimage == request
       && d.status.Is? && d.manifest.Some? && d.nextIndex.Some? && 0 <= d.nextIndex.value <= |world(request.patterns)|
  }

  /** A new execution starts with nothing taken and nothing spent; one that resumes starts exactly from a resumable
      checkpoint, with what it holds. */
  lemma StartsIff(checkpoints: map<Id, Stored>, world: World, request: Request, place: Place)
    ensures Begin(checkpoints, world, request, None) == Ok((Cursor(0, [], 0, 0), None))
    ensures var begin := Begin(checkpoints, world, request, Some(place));
            && (begin.Ok? <==> place.Evidence? && Resumable(checkpoints, world, request, place.name))
            && (begin.Ok? ==>
                  && var d := checkpoints[place.name];
                     begin.value == (Cursor(d.nextIndex.value, d.manifest.value, d.bytes, d.retries), Some(d.runId)))
  {
  }

  /** Why a resume is refused: a place outside the evidence, no readable document, another schema, another request, a status
      that is not one of the three interruptions, no manifest, no index, an index out of range. */
  lemma ResumeRefusal(checkpoints: map<Id, Stored>, world: World, request: Request, place: Place)
    ensures var begin := Begin(checkpoints, world, request, Some(place));
            var readable := place.Evidence? && place.name in checkpoints && checkpoints[place.name].Document?;
            && (begin == Err(CheckpointOutsideEvidenceRoot) <==> place.OutsideEvidenceRoot?)
            && (begin == Err(CheckpointUnreadable) <==> place.Evidence? && !readable)
            && (readable ==>
                  && var d := checkpoints[place.name];
                     var ours := d.schema == "palwakf.agentic.runtime.checkpoint.v1";
                     var bound := ours && d.binding.preimage == request;
                     && (begin == Err(CheckpointSchemaMismatch) <==> !ours)
                     && (begin == Err(BindingMismatch) <==> ours && !bound)
                     && (begin == Err(CheckpointNotResumable) <==> bound && d.status.NotResumable?)
                     && (begin == Err(CheckpointManifestInvalid) <==> bound && d.status.Is? && d.manifest.None?)
                     && (begin == Err(CheckpointIndexInvalid) <==>
                           bound && d.status.Is? && d.manifest.Some? && d.nextIndex.None?)
                     && (begin == Err(CheckpointIndexOutOfRange) <==>
                           && bound && d.status.Is? && d.manifest.Some? && d.nextIndex.Some?
                           && !(0 <= d.nextIndex.value <= |world(request.patterns)|)))
  {
  }

  /** What is on record after an execution that starts: its receipt, and exactly if it was interrupted a checkpoint under its
      own id that says why and from which the same request goes on where it stopped. Nothing else changes. */
  ghost predicate LeavesItsRecords(
    s: State, world: World, request: Request, runId: Id, from: Option<Id>, after: State, receipt: Receipt)
  {
    && after.receipts == s.receipts[runId := receipt]
    && receipt.request == request && receipt.resumedFrom == from
    && (receipt.outcome.Pass? ==> after.checkpoints == s.checkpoints)
    && (receipt.outcome.Interrupted? ==>
          && after.checkpoints.Keys == s.checkpoints.Keys + {runId}
          && (forall id :: id in s.checkpoints && id != runId ==> after.checkpoints[id] == s.checkpoints[id])
          && after.checkpoints[runId].Document? && after.checkpoints[runId].status == Is(receipt.outcome.why)
          && after.checkpoints[runId].runId == runId
          && Begin(after.checkpoints, world, request, Some(Evidence(runId))) == Ok((receipt.outcome.at, Some(runId)))
          && forall other :: other != request ==>
               Begin(after.checkpoints, world, other, Some(Evidence(runId))) == Err(BindingMismatch))
  }

  lemma InterruptionLeavesItsCheckpoint(
    s: State, world: World, request: Request, weather: Weather, runId: Id, resume: Option<Place>)
    ensures var begin := Begin(s.checkpoints, world, request, resume);
            var (after, r) := Executed(s, world, request, weather, runId, resume);
            && (begin.Err? ==> r == Err(begin.error) && after == s)
            && (begin.Ok? ==>
                  && r.Ok? && LeavesItsRecords(s, world, request, runId, begin.value.1, after, r.value)
                  && r.value.outcome == ScanFrom(world(request.patterns), request.budget, weather, begin.value.0))
  {
    var begin := Begin(s.checkpoints, world, request, resume);
    if begin.Ok? { InterruptedInRange(world(request.patterns), request.budget, weather, begin.value.0); }
    hide ScanFrom;
  }

  /** An execution, and as long as it is interrupted another that resumes the checkpoint just left. */
  function Resumes(s: State, world: World, request: Request, weathers: seq<Weather>, ids: seq<Id>, resume: Option<Place>)
    : (State, Result<Receipt, AuthorityError>)
    requires weathers != [] && |ids| == |weathers|
    decreases |weathers|
  {
    var (after, r) := Executed(s, world, request, weathers[0], ids[0], resume);
    if r.Err? || r.value.outcome.Pass? || |weathers| == 1 then (after, r)
    else Resumes(after, world, request, weathers[1..], ids[1..], Some(Evidence(ids[0])))
  }

  /** Through its checkpoints the runtime carries a request on as the scan does in memory. */
  lemma {:induction false} ResumesAreTheChain(
    s: State, world: World, request: Request, weathers: seq<Weather>, ids: seq<Id>, resume: Option<Place>)
    requires weathers != [] && |ids| == |weathers| && Begin(s.checkpoints, world, request, resume).Ok?
    ensures var r := Resumes(s, world, request, weathers, ids, resume).1;
            var c := Begin(s.checkpoints, world, request, resume).value.0;
            r.Ok? && r.value.request == request
            && r.value.outcome == Chain(world(request.patterns), request.budget, weathers, c).outcome
    decreases |weathers|
  {
    hide ScanFrom, Begin, Executed;
    InterruptionLeavesItsCheckpoint(s, world, request, weathers[0], ids[0], resume);
    var (after, r) := Executed(s, world, request, weathers[0], ids[0], resume);
    if r.value.outcome.Interrupted? && |weathers| > 1 {
      ResumesAreTheChain(after, world, request, weathers[1..], ids[1..], Some(Evidence(ids[0])));
    }
  }

  /** A request interrupted any number of times, resumed each time from the checkpoint it left, and calm at last, ends with a
      PASS on record that has the manifest and bytes of the scan that was never interrupted. */
  lemma InterruptedRequestsEndLikeOneShot(
    s: State, world: World, request: Request, weathers: seq<Weather>, ids: seq<Id>, oneShot: Weather)
    requires weathers != [] && |ids| == |weathers|
    requires Calm(world(request.patterns), request.budget, weathers[|weathers| - 1])
    requires Calm(world(request.patterns), request.budget, oneShot)
    ensures var (after, r) := Resumes(s, world, request, weathers, ids, None);
            var direct := ScanFrom(world(request.patterns), request.budget, oneShot, START);
            && r.Ok? && r.value.outcome.Pass? && direct.Pass?
            && r.value.outcome.manifest == direct.manifest && r.value.outcome.bytes == direct.bytes
            && IsAnswer(world(request.patterns), request.budget, direct.manifest, direct.bytes)
            && exists id :: id in ids && id in after.receipts && after.receipts[id] == r.value
  {
    var candidates := world(request.patterns);
    assert Faithful(candidates, request.budget, START) by { StartIsFaithful(candidates, request.budget); }
    hide ScanFrom, Executed, IsAnswer, Faithful, Calm, Resumes, Chain;
    ResumesAreTheChain(s, world, request, weathers, ids, None);
    ChainEndsLikeOneShot(candidates, request.budget, weathers, START, oneShot);
    ScanIsFaithful(candidates, request.budget, oneShot, START);
    ReceiptIsOnRecord(s, world, request, weathers, ids, None);
  }

  lemma StartIsFaithful(candidates: seq<Entry>, budget: Budget)
    ensures Faithful(candidates, budget, START)
  {
  }

  lemma {:induction false} ReceiptIsOnRecord(
    s: State, world: World, request: Request, weathers: seq<Weather>, ids: seq<Id>, resume: Option<Place>)
    requires weathers != [] && |ids| == |weathers|
    ensures var (after, r) := Resumes(s, world, request, weathers, ids, resume);
            r.Ok? ==> exists id :: id in ids && id in after.receipts && after.receipts[id] == r.value
    decreases |weathers|
  {
    hide ScanFrom, Begin, Executed;
    InterruptionLeavesItsCheckpoint(s, world, request, weathers[0], ids[0], resume);
    var (after, r) := Executed(s, world, request, weathers[0], ids[0], resume);
    if r.Ok? && r.value.outcome.Interrupted? && |weathers| > 1 {
      ReceiptIsOnRecord(after, world, request, weathers[1..], ids[1..], Some(Evidence(ids[0])));
      assert forall id :: id in ids[1..] ==> id in ids;
    } else if r.Ok? {
      assert ids[0] in ids;
    }
  }

  lemma {:induction false} RunFirst(s: State, world: World, c: Call, calls: seq<Call>)
    ensures Run(s, world, [c] + calls) ==
            Run(Executed(s, world, c.request, c.weather, c.runId, c.resume).0, world, calls)
  {
    hide Executed;
    var all := [c] + calls;
    if calls == [] {
      assert all == [c] && all[..0] == [];
      assert Run(s, world, all) == Executed(Run(s, world, all[..0]), world, c.request, c.weather, c.runId, c.resume).0;
    } else {
      var n := |calls| - 1;
      RunFirst(s, world, c, calls[..n]);
      assert all[..|all| - 1] == [c] + calls[..n] && all[|all| - 1] == calls[n];
    }
  }

  /** Resuming is a run like any other: what holds of every run holds of it. */
  lemma {:induction false} ResumingIsARun(
    s: State, world: World, request: Request, weathers: seq<Weather>, ids: seq<Id>, resume: Option<Place>) returns (calls: seq<Call>)
    requires weathers != [] && |ids| == |weathers|
    ensures Resumes(s, world, request, weathers, ids, resume).0 == Run(s, world, calls)
    ensures calls != [] && calls[0] == Call(request, weathers[0], ids[0], resume)
    decreases |weathers|
  {
    hide Executed, Run;
    var (after, r) := Executed(s, world, request, weathers[0], ids[0], resume);
    var c := Call(request, weathers[0], ids[0], resume);
    if r.Err? || r.value.outcome.Pass? || |weathers| == 1 {
      calls := [c];
      RunFirst(s, world, c, []);
      NoCalls(after, world);
      assert [c] + [] == [c];
    } else {
      var more := ResumingIsARun(after, world, request, weathers[1..], ids[1..], Some(Evidence(ids[0])));
      calls := [c] + more;
      RunFirst(s, world, c, more);
    }
  }

  lemma NoCalls(s: State, world: World)
    ensures Run(s, world, []) == s
  {
  }
}
