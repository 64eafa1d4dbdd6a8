/**
 The governed live probe: a fixed order of requests and checks that stops at the first failure,
 followed in every case by the restoration of the settings and the proof that no source changed.

 Replies and snapshots are arbitrary; every verdict is read off the replies.
 */
module LiveProbe {
  import opened Common
  import opened JsonValues
  import opened OpenapiSchema
  import opened RequestBody
  import opened ProbeSettings
  import opened LiveProbeVerdicts

  datatype Endpoint =
    | OpenApi | OllamaTags | Health | Contract | Providers | Settings | RunsLatest | CandidatesLatest | Probe | Generate

  datatype Request = Read(at: Endpoint) | Post(at: Endpoint, body: Json)

  /** A request gets a reply, raises, or is cut short by the operator. */
  datatype Reply = Http(status: int, payload: Json) | Raised | Interrupted

  datatype Exchange = Exchange(request: Request, reply: Reply)

  type Snapshot = map<string, Digest<string>>

  /** Everything a run depends on; paths are those of the API, of which only the ones posted to matter. A snapshot is None
      when taking it raises; replies beyond the list raise. */
  datatype Env = Env(
    args: Args, paths: Endpoint -> string, reader: Reader, before: Option<Snapshot>, after: Option<Snapshot>,
    replies: seq<Reply>, values: Values, depth: nat)

  /* ---------- Steps ---------- */

  datatype Wanted = Anything | Ok200 | Ok200Object | Ok2xx

  /** What is checked between requests, on the replies so far. */
  datatype Test =
    | SourceTaken
    | LimitsAllow
    | ModelIsLocal
    | NoApplyEndpoint
    | BodiesResolve
    | ProbeIsProven
    | CandidateIsNew(before: Json)
    | GatesHold
    | RestoreResolves(original: Json)

  datatype Action = Ask(request: Request, wanted: Wanted) | Check(test: Test)

  datatype End = Going | Failed | CutShort

  /** What was exchanged so far, and whether the procedure is still going. */
  datatype Session = Session(trace: seq<Exchange>, end: End)

  const START := Session([], Going)

  predicate Meets(reply: Reply, wanted: Wanted) {
    && reply.Http?
    && match wanted
       case Anything => true
       case Ok200 => reply.status == 200
       case Ok200Object => reply.status == 200 && reply.payload.Obj?
       case Ok2xx => 200 <= reply.status < 300
  }

  function ReplyAt(env: Env, i: nat): Reply {
    if i < |env.replies| then env.replies[i] else Raised
  }

  function PayloadOf(reply: Reply): Json {
    if reply.Http? then reply.payload else Null
  }

  /** The payload of the reply with k more after it. */
  function Payload(trace: seq<Exchange>, k: nat): Json {
    if k < |trace| then PayloadOf(trace[|trace| - 1 - k].reply) else Null
  }

  /** The first reply is the OpenAPI document. */
  function Document(trace: seq<Exchange>): Json {
    if trace != [] then PayloadOf(trace[0].reply) else Null
  }

  predicate Holds(env: Env, trace: seq<Exchange>, test: Test) {
    match test
    case SourceTaken => env.before.Some? && env.before.value != map[]
    case LimitsAllow => WithinLimits(env.reader, env.args, Document(trace), env.paths(Settings))
    case ModelIsLocal => LocalModel(env.args.model, Payload(trace, 0))
    case NoApplyEndpoint => NoApplyPath(Document(trace))
    case BodiesResolve => AllResolved(env, Document(trace))
    case ProbeIsProven => ProbeProven(env.args.provider, Payload(trace, 0))
    case CandidateIsNew(before) => NewCandidate(before, Payload(trace, 2), Payload(trace, 1), Payload(trace, 0))
    case GatesHold => GatesOf(env.args.model, Payload(trace, 2), Payload(trace, 1), Payload(trace, 0)).All()
    case RestoreResolves(original) => Resolved(RestoreBody(env, Document(trace), original))
  }

  function Perform(env: Env, s: Session, a: Action): Session {
    if s.end != Going then s
    else
      match a
      case Check(test) => s.(end := if Holds(env, s.trace, test) then Going else Failed)
      case Ask(request, wanted) =>
        var reply := ReplyAt(env, |s.trace|);
        Session(s.trace + [Exchange(request, reply)],
                if reply.Interrupted? then CutShort else if Meets(reply, wanted) then Going else Failed)
  }

  function RunScript(env: Env, s: Session, script: seq<Action>): Session {
    if script == [] then s
    else Perform(env, RunScript(env, s, script[..|script| - 1]), script[|script| - 1])
  }

  /* ---------- Bodies ---------- */

  predicate Resolved(body: Option<Built>) { body.Some? && body.value.missing == [] }

  /** The body posted at an endpoint. */
  function BodyFor(env: Env, openapi: Json, at: Endpoint): Option<Built> {
    BuildBody(PostSchema(openapi, env.paths(at)), env.values, ComponentsOf(openapi), env.depth)
  }

  predicate AllResolved(env: Env, openapi: Json) {
    Resolved(BodyFor(env, openapi, Settings)) && Resolved(BodyFor(env, openapi, Probe)) && Resolved(BodyFor(env, openapi, Generate))
  }

  /** The settings object of the reply read in preparation. */
  function OriginalObject(original: Json): Json { Obj(DeepFindSettings(original)) }

  function RestoreBody(env: Env, openapi: Json, original: Json): Option<Built> {
    BuildBody(PostSchema(openapi, env.paths(Settings)), env.values + Direct(DeepFindSettings(OriginalObject(original)), map[]),
              ComponentsOf(openapi), env.depth)
  }

  function Posting(at: Endpoint, body: Option<Built>): Action {
    Ask(Post(at, if body.Some? then body.value.value else Null), Ok2xx)
  }

  /* ---------- The procedure ---------- */

  predicate UsesOllama(env: Env) { env.args.provider == Ollama }

  /** Reads and checks before anything is posted. */
  function Preparation(env: Env): seq<Action> {
    [Check(SourceTaken), Ask(Read(OpenApi), Ok200Object), Check(LimitsAllow)]
    + (if UsesOllama(env) then [Ask(Read(OllamaTags), Ok200Object), Check(ModelIsLocal)] else [])
    + [Check(NoApplyEndpoint),
       Ask(Read(Health), Ok200), Ask(Read(Contract), Ok200), Ask(Read(Providers), Ok200), Ask(Read(Settings), Ok200),
       Ask(Read(RunsLatest), Anything), Ask(Read(CandidatesLatest), Anything),
       Check(BodiesResolve)]
  }

  /** What a run remembers of its preparation: the document, the settings, and the candidates there were. */
  datatype Known = Known(openapi: Json, original: Json, candidates: Json)

  function Recall(trace: seq<Exchange>): Known {
    Known(Document(trace), Payload(trace, 2), Payload(trace, 0))
  }

  /** The settings that the arguments ask for. */
  function TargetOf(args: Args): Critical {
    Critical(Str(ProviderName(args.provider)), Str(args.baseUrl), Str(args.model), Num(args.timeoutSeconds as real),
             Num(args.maxOutput as real), Num(args.temperature), Str("PALWAKF_LOCAL_AGENTS_MODEL_API_KEY"))
  }

  predicate AlreadyMatched(env: Env, original: Json) {
    Match(CriticalSettings(OriginalObject(original)), TargetOf(env.args))
  }

  function Enable(env: Env, known: Known): seq<Action> {
    [Posting(Settings, BodyFor(env, known.openapi, Settings))]
  }

  function Generation(env: Env, known: Known): seq<Action> {
    [Posting(Probe, BodyFor(env, known.openapi, Probe)), Check(ProbeIsProven),
     Posting(Generate, BodyFor(env, known.openapi, Generate)),
     Ask(Read(RunsLatest), Ok200), Ask(Read(CandidatesLatest), Ok200),
     Check(CandidateIsNew(known.candidates)), Check(GatesHold)]
  }

  function Restoration(env: Env, known: Known): seq<Action> {
    [Check(RestoreResolves(known.original)), Posting(Settings, RestoreBody(env, known.openapi, known.original)),
     Ask(Read(Settings), Ok200)]
  }

  /** The settings read back are those there were. */
  predicate RestoredTo(original: Json, readBack: Json) {
    Match(CriticalOf(OriginalObject(original)), CriticalOf(readBack))
  }

  /** The guarded part of a run: what it did, what it knew before posting, and whether it changed the settings. */
  datatype Attempted = Attempted(session: Session, known: Known, changed: bool)

  function Attempt(env: Env): Attempted {
    var prepared := RunScript(env, START, Preparation(env));
    var known := Recall(prepared.trace);
    if prepared.end != Going || !env.args.live then Attempted(prepared, known, false)
    else if AlreadyMatched(env, known.original) then Attempted(RunScript(env, prepared, Generation(env, known)), known, false)
    else
      var enabled := RunScript(env, prepared, Enable(env, known));
      Attempted(RunScript(env, enabled, Generation(env, known)), known, enabled.end == Going)
  }

  predicate MustRestore(env: Env, a: Attempted) {
    env.args.live && a.changed && a.known.original != Null
  }

  /** The restoration; it goes on from the trace whatever ended the guarded part. */
  function Restore(env: Env, a: Attempted): Session {
    var s := RunScript(env, Session(a.session.trace, Going), Restoration(env, a.known));
    if s.end == Going && !RestoredTo(a.known.original, Payload(s.trace, 0)) then s.(end := Failed) else s
  }

  datatype Result =
    | Pass | PassPreflight | FailClosed | RestoreFailed | SourceMutationDetected | SourcePostimageError

  /** The final record; no result is written when the operator interrupts the restoration itself. */
  datatype Outcome = Outcome(result: Option<Result>, exitsZero: bool, trace: seq<Exchange>)

  function SourceBefore(env: Env): Snapshot {
    if env.before.Some? then env.before.value else map[]
  }

  predicate SourceUnchanged(env: Env) {
    env.after.Some? && env.after.value == SourceBefore(env) && SourceBefore(env) != map[]
  }

  /** The result after the source proof; an error still stands, a run still in progress has passed. */
  function Concluded(env: Env, a: Attempted, restored: End): Result {
    if env.after.None? then SourcePostimageError
    else if !SourceUnchanged(env) then SourceMutationDetected
    else if restored == Failed then RestoreFailed
    else if a.session.end == Failed then FailClosed
    else if a.session.end == Going && !env.args.live then PassPreflight
    else Pass
  }

  function Run(env: Env): Outcome {
    var a := Attempt(env);
    var closing := if MustRestore(env, a) then Restore(env, a) else Session(a.session.trace, Going);
    if closing.end == CutShort then Outcome(None, false, closing.trace)
    else
      var result := Concluded(env, a, closing.end);
      var returnsInTry := a.session.end == Going && !env.args.live;
      Outcome(Some(result), returnsInTry || (a.session.end != CutShort && (result == Pass || result == PassPreflight)),
              closing.trace)
  }
}
