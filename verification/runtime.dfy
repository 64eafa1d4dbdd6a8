/**
 The runtime around the scan: checkpoints and receipts in the evidence folder, and the
 execution that resumes from a checkpoint only under the request that wrote it.
 */
module Runtime {
  import opened Common
  import opened Scan

  const CHECKPOINT_SCHEMA := "palwakf.agentic.runtime.checkpoint.v1"

  datatype Request = Request(objective: string, patterns: seq<string>, budget: Budget)

  /** The sorted candidates that a list of patterns selects in the fixed tree. */
  type World = seq<string> -> seq<Entry>

  datatype Status = Is(why: Interruption) | NotResumable(text: string)

  /** A file of the evidence folder as read back: not JSON, or an object with these keys. */
  datatype Stored =
    | Garbled
    | Document(schema: string, runId: Id, status: Status, binding: Digest<Request>,
               nextIndex: Option<int>, manifest: Option<seq<Entry>>, bytes: nat, retries: nat)

  /** Where a resume request points. */
  datatype Place = OutsideEvidenceRoot | Evidence(name: Id)

  datatype AuthorityError =
    | CheckpointOutsideEvidenceRoot | CheckpointUnreadable | CheckpointSchemaMismatch | BindingMismatch
    | CheckpointNotResumable | CheckpointManifestInvalid | CheckpointIndexInvalid | CheckpointIndexOutOfRange

  datatype Receipt = Receipt(request: Request, outcome: Outcome, resumedFrom: Option<Id>)

  function CheckpointOf(request: Request, runId: Id, why: Interruption, at: Cursor): Stored {
    Document(CHECKPOINT_SCHEMA, runId, Is(why), Sha256(request), Some(at.next), Some(at.manifest), at.bytes, at.retries)
  }

  /** The cursor and run a checkpoint restores. */
  datatype Restored = Restored(nextIndex: int, manifest: seq<Entry>, bytes: nat, retries: nat, runId: Id)

  function LoadCheckpoint(checkpoints: map<Id, Stored>, request: Request, place: Place): Result<Restored, AuthorityError> {
    if place.OutsideEvidenceRoot? then Err(CheckpointOutsideEvidenceRoot)
    else if place.name !in checkpoints || checkpoints[place.name].Garbled? then Err(CheckpointUnreadable)
    else
      var d := checkpoints[place.name];
      if d.schema != CHECKPOINT_SCHEMA then Err(CheckpointSchemaMismatch)
      else if d.binding != Sha256(request) then Err(BindingMismatch)
      else if d.status.NotResumable? then Err(CheckpointNotResumable)
      else if d.manifest.None? then Err(CheckpointManifestInvalid)
      else if d.nextIndex.None? then Err(CheckpointIndexInvalid)
      else Ok(Restored(d.nextIndex.value, d.manifest.value, d.bytes, d.retries, d.runId))
  }

  /** Where an execution starts, and the run it continues. */
  function Begin(checkpoints: map<Id, Stored>, world: World, request: Request, resume: Option<Place>)
    : (r: Result<(Cursor, Option<Id>), AuthorityError>)
    ensures r.Ok? ==> r.value.0.next <= |world(request.patterns)|
  {
    if resume.None? then Ok((START, None))
    else
      var loaded := LoadCheckpoint(checkpoints, request, resume.value);
      if loaded.Err? then Err(loaded.error)
      else
        var d := loaded.value;
        if d.nextIndex < 0 || d.nextIndex > |world(request.patterns)| then Err(CheckpointIndexOutOfRange)
        else Ok((Cursor(d.nextIndex, d.manifest, d.bytes, d.retries), Some(d.runId)))
  }

  datatype State = State(checkpoints: map<Id, Stored>, receipts: map<Id, Receipt>)

  /** One execution under a fresh run id. */
  function Executed(s: State, world: World, request: Request, weather: Weather, runId: Id, resume: Option<Place>)
    : (State, Result<Receipt, AuthorityError>)
  {
    var begin := Begin(s.checkpoints, world, request, resume);
    if begin.Err? then (s, Err(begin.error))
    else
      var outcome := ScanFrom(world(request.patterns), request.budget, weather, begin.value.0);
      var receipt := Receipt(request, outcome, begin.value.1);
      var checkpoints :=
        if outcome.Interrupted?
        then s.checkpoints[runId := CheckpointOf(request, runId, outcome.why, outcome.at)]
        else s.checkpoints;
      (State(checkpoints, s.receipts[runId := receipt]), Ok(receipt))
  }

  class AgenticRuntime {
    var checkpoints: map<Id, Stored>
    var receipts: map<Id, Receipt>

    constructor ()
      ensures checkpoints == map[] && receipts == map[]
    {
      checkpoints, receipts := map[], map[];
    }

    method Execute(world: World, request: Request, weather: Weather, runId: Id, resume: Option<Place>)
      returns (r: Result<Receipt, AuthorityError>)
      modifies this
      ensures (State(checkpoints, receipts), r)
              == Executed(old(State(checkpoints, receipts)), world, request, weather, runId, resume)
    {
      var begin := Begin(checkpoints, world, request, resume);
      if begin.Err? { return Err(begin.error); }
      var outcome := ScanLoop(world(request.patterns), request.budget, weather, begin.value.0);
      if outcome.Interrupted? {
        checkpoints := checkpoints[runId := CheckpointOf(request, runId, outcome.why, outcome.at)];
      }
      var receipt := Receipt(request, outcome, begin.value.1);
      receipts := receipts[runId := receipt];
      r := Ok(receipt);
    }

    /** The loop over the candidates, from the cursor on. */
    method ScanLoop(candidates: seq<Entry>, budget: Budget, weather: Weather, start: Cursor) returns (outcome: Outcome)
      requires start.next <= |candidates|
      ensures outcome == ScanFrom(candidates, budget, weather, start)
    {
      hide StatWithRetry;
      var manifest, bytes: nat, retries: nat := start.manifest, start.bytes, start.retries;
      for index := start.next to |candidates|
        invariant ScanFrom(candidates, budget, weather, start)
                  == ScanFrom(candidates, budget, weather, Cursor(index, manifest, bytes, retries))
      {
        if weather.cancelled(index) {
          return Interrupted(Cancelled, Cursor(index, manifest, bytes, retries));
        }
        if weather.clock(index) - weather.started >= budget.timeoutSeconds {
          return Interrupted(TimedOut, Cursor(index, manifest, bytes, retries));
        }
        if |manifest| >= budget.maxFiles { return Pass(manifest, bytes, retries); }
        var tried := Stat(weather, index, budget.maxRetries);
        if tried.None? {
          return Interrupted(FailedRetryable, Cursor(index, manifest, bytes, retries + budget.maxRetries));
        }
        retries := retries + tried.value;
        var e := candidates[index];
        if e.regular {
          if bytes + e.size > budget.maxBytes { return Pass(manifest, bytes, retries); }
          bytes := bytes + e.size;
          manifest := manifest + [e];
        }
      }
      outcome := Pass(manifest, bytes, retries);
    }

    /** The retry loop around one stat. */
    method Stat(weather: Weather, index: nat, maxRetries: nat) returns (tried: Option<nat>)
      ensures tried == StatWithRetry(weather.raises, index, 0, maxRetries)
    {
      var retries := 0;
      while true
        invariant retries <= maxRetries
        invariant StatWithRetry(weather.raises, index, 0, maxRetries) == StatWithRetry(weather.raises, index, retries, maxRetries)
        decreases maxRetries - retries
      {
        if !weather.raises(index, retries) { return Some(retries); }
        if retries >= maxRetries { return None; }
        retries := retries + 1;
      }
    }
  }

  /* ---------- Any tree of executions and resumes ---------- */

  datatype Call = Call(request: Request, weather: Weather, runId: Id, resume: Option<Place>)

  function Run(s: State, world: World, calls: seq<Call>): State {
    if calls == [] then s
    else
      var before := Run(s, world, calls[..|calls| - 1]);
      var c := calls[|calls| - 1];
      Executed(before, world, c.request, c.weather, c.runId, c.resume).0
  }

  /** A checkpoint the runtime wrote: it restores a faithful cursor of the request it is bound to. */
  ghost predicate Genuine(world: World, d: Stored) {
    && d.Document? && d.schema == CHECKPOINT_SCHEMA && d.status.Is?
    && d.nextIndex.Some? && d.nextIndex.value >= 0 && d.manifest.Some?
    && var request := d.binding.preimage;
    && Faithful(world(request.patterns), request.budget,
                Cursor(d.nextIndex.value, d.manifest.value, d.bytes, d.retries))
  }

  ghost predicate Inv(world: World, s: State) {
    && (forall id :: id in s.checkpoints ==> Genuine(world, s.checkpoints[id]))
    && (forall id :: id in s.receipts && s.receipts[id].outcome.Pass? ==>
          var r := s.receipts[id];
          IsAnswer(world(r.request.patterns), r.request.budget, r.outcome.manifest, r.outcome.bytes))
  }

  lemma ExecuteKeeps(s: State, world: World, request: Request, weather: Weather, runId: Id, resume: Option<Place>)
    requires Inv(world, s)
    ensures Inv(world, Executed(s, world, request, weather, runId, resume).0)
  {
    hide ScanFrom, IsAnswer, Exhausted;
    var begin := Begin(s.checkpoints, world, request, resume);
    if begin.Ok? {
      assert Faithful(world(request.patterns), request.budget, begin.value.0) by {
        if resume.Some? { assert Genuine(world, s.checkpoints[resume.value.name]); }
      }
      ScanIsFaithful(world(request.patterns), request.budget, weather, begin.value.0);
    }
  }

  /** However often executions are interrupted and whichever checkpoints are resumed, in whatever order
      and however many times, every PASS receipt holds the one answer of its request. */
  lemma {:induction false} EveryPassIsTheAnswer(world: World, calls: seq<Call>)
    ensures Inv(world, Run(State(map[], map[]), world, calls))
    decreases |calls|
  {
    hide Inv, Executed;
    if calls == [] {
      EmptyInv(world);
    } else {
      EveryPassIsTheAnswer(world, calls[..|calls| - 1]);
      var c := calls[|calls| - 1];
      ExecuteKeeps(Run(State(map[], map[]), world, calls[..|calls| - 1]), world, c.request, c.weather, c.runId, c.resume);
    }
  }

  lemma EmptyInv(world: World)
    ensures Inv(world, State(map[], map[]))
  {
  }

  /** Whatever was interrupted and resumed, every checkpoint and every PASS receipt on record is within the budgets of the
      request it belongs to. */
  lemma RecordsAreWithinBudgets(world: World, calls: seq<Call>)
    ensures var s := Run(State(map[], map[]), world, calls);
            && (forall id :: id in s.checkpoints ==> Restorable(world, s.checkpoints[id]))
            && (forall id :: id in s.receipts && s.receipts[id].outcome.Pass? ==>
                  var r := s.receipts[id];
                  InBudget(world(r.request.patterns), r.request.budget, r.outcome.manifest, r.outcome.bytes))
  {
    EveryPassIsTheAnswer(world, calls);
    hide Run, Faithful, IsAnswer, InBudget;
    var s := Run(State(map[], map[]), world, calls);
    forall id | id in s.checkpoints ensures Restorable(world, s.checkpoints[id]) {
      GenuineIsRestorable(world, s.checkpoints[id]);
    }
    forall id | id in s.receipts && s.receipts[id].outcome.Pass?
      ensures InBudget(world(s.receipts[id].request.patterns), s.receipts[id].request.budget,
                       s.receipts[id].outcome.manifest, s.receipts[id].outcome.bytes)
    {
      var r := s.receipts[id];
      AnswerWithinBudgets(world(r.request.patterns), r.request.budget, r.outcome.manifest, r.outcome.bytes);
    }
  }

  /** What a checkpoint restores is within the budgets of its request. */
  ghost predicate Restorable(world: World, d: Stored) {
    && d.Document? && d.manifest.Some?
    && InBudget(world(d.binding.preimage.patterns), d.binding.preimage.budget, d.manifest.value, d.bytes)
  }

  lemma GenuineIsRestorable(world: World, d: Stored)
    requires Genuine(world, d)
    ensures Restorable(world, d)
  {
    hide Faithful, InBudget;
    var request := d.binding.preimage;
    CursorWithinBudgets(world(request.patterns), request.budget,
                        Cursor(d.nextIndex.value, d.manifest.value, d.bytes, d.retries));
  }

  /** Two PASS receipts of one request agree, whatever checkpoints they came from. */
  lemma SameRequestSameAnswer(world: World, calls: seq<Call>, a: Id, b: Id)
    requires var s := Run(State(map[], map[]), world, calls);
             && a in s.receipts && b in s.receipts && s.receipts[a].request == s.receipts[b].request
             && s.receipts[a].outcome.Pass? && s.receipts[b].outcome.Pass?
    ensures var s := Run(State(map[], map[]), world, calls);
            && s.receipts[a].outcome.manifest == s.receipts[b].outcome.manifest
            && s.receipts[a].outcome.bytes == s.receipts[b].outcome.bytes
  {
    EveryPassIsTheAnswer(world, calls);
    hide Run;
    var s := Run(State(map[], map[]), world, calls);
    var r := s.receipts[a].request;
    AnswerIsUnique(world(r.patterns), r.budget, s.receipts[a].outcome.manifest, s.receipts[a].outcome.bytes,
                   s.receipts[b].outcome.manifest, s.receipts[b].outcome.bytes);
  }

  /** A checkpoint written by the runtime resumes under the request that wrote it and under no other,
      exactly where it stopped. */
  lemma ResumeRequiresTheSameBinding(world: World, calls: seq<Call>, request: Request, id: Id)
    requires id in Run(State(map[], map[]), world, calls).checkpoints
    ensures var checkpoints := Run(State(map[], map[]), world, calls).checkpoints;
            var begin := Begin(checkpoints, world, request, Some(Evidence(id)));
            && Genuine(world, checkpoints[id])
            && var d := checkpoints[id];
            if d.binding == Sha256(request)
            then begin == Ok((Cursor(d.nextIndex.value, d.manifest.value, d.bytes, d.retries), Some(d.runId)))
            else begin == Err(BindingMismatch)
  {
    EveryPassIsTheAnswer(world, calls);
    hide Run;
    assert Genuine(world, Run(State(map[], map[]), world, calls).checkpoints[id]);
  }
}
