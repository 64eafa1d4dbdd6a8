/**
 The live probe as a function of its replies alone: where it stops, what it has sent by then, and what is
 recorded. Nothing here is defined by running it; RecordIs says that running it agrees.
 */
module LiveProbeOutcome {
  import opened Common
  import opened JsonValues
  import opened RequestBody
  import opened ProbeSettings
  import opened LiveProbeVerdicts
  import opened LiveProbe

  /* ---------- Scripts ---------- */

  function Requests(trace: seq<Exchange>): (r: seq<Request>)
    ensures |r| == |trace|
  {
    seq(|trace|, i requires 0 <= i < |trace| => trace[i].request)
  }

  function Asks(script: seq<Action>): seq<Request> {
    if script == [] then []
    else
      var last := script[|script| - 1];
      Asks(script[..|script| - 1]) + (if last.Ask? then [last.request] else [])
  }

  /** What has been exchanged once the whole script is sent: each request with the reply that comes in its turn. */
  function Exchanges(env: Env, sent: seq<Exchange>, script: seq<Action>): (r: seq<Exchange>)
    ensures sent <= r
  {
    if script == [] then sent
    else
      var before := Exchanges(env, sent, script[..|script| - 1]);
      var last := script[|script| - 1];
      if last.Ask? then before + [Exchange(last.request, ReplyAt(env, |before|))] else before
  }

  /** The action goes through after these exchanges. */
  predicate Passes(env: Env, sent: seq<Exchange>, a: Action) {
    match a
    case Ask(_, wanted) => Meets(ReplyAt(env, |sent|), wanted)
    case Check(test) => Holds(env, sent, test)
  }

  /** The first action that does not go through, or the number of actions. */
  function Stop(env: Env, sent: seq<Exchange>, script: seq<Action>): (k: nat)
    ensures k <= |script|
  {
    if script == [] then 0
    else
      var n := |script| - 1;
      var k := Stop(env, sent, script[..n]);
      if k < n then k else if Passes(env, Exchanges(env, sent, script[..n]), script[n]) then n + 1 else n
  }

  /** What is sent up to and including the action where the script stops. */
  function SentOf(env: Env, sent: seq<Exchange>, script: seq<Action>): seq<Exchange> {
    var k := Stop(env, sent, script);
    Exchanges(env, sent, if k < |script| then script[..k + 1] else script)
  }

  /** The script stops at a request that the operator interrupts. */
  predicate IsCut(env: Env, sent: seq<Exchange>, script: seq<Action>) {
    var k := Stop(env, sent, script);
    k < |script| && script[k].Ask? && ReplyAt(env, |Exchanges(env, sent, script[..k])|).Interrupted?
  }

  lemma {:induction false} StopIsFirst(env: Env, sent: seq<Exchange>, script: seq<Action>, j: nat)
    requires j < |script|
    ensures var k := Stop(env, sent, script);
            && (j < k ==> Passes(env, Exchanges(env, sent, script[..j]), script[j]))
            && (j == k ==> !Passes(env, Exchanges(env, sent, script[..j]), script[j]))
  {
    hide Passes, Exchanges;
    var n := |script| - 1;
    assert script[..n][..j] == script[..j];
    if j < n { StopIsFirst(env, sent, script[..n], j); }
  }

  lemma PerformIs(env: Env, sent: seq<Exchange>, a: Action)
    ensures Perform(env, Session(sent, Going), a) ==
            Session(if a.Ask? then sent + [Exchange(a.request, ReplyAt(env, |sent|))] else sent,
                    if Passes(env, sent, a) then Going
                    else if a.Ask? && ReplyAt(env, |sent|).Interrupted? then CutShort else Failed)
  {
    hide Holds;
  }

  lemma PerformsNothing(env: Env, s: Session, a: Action)
    requires s.end != Going
    ensures Perform(env, s, a) == s
  {
    hide Holds;
  }

  lemma {:induction false} ScriptOutcome(env: Env, sent: seq<Exchange>, script: seq<Action>)
    ensures RunScript(env, Session(sent, Going), script) ==
            Session(SentOf(env, sent, script),
                    if Stop(env, sent, script) == |script| then Going else if IsCut(env, sent, script) then CutShort else Failed)
  {
    hide Holds, Meets, Perform, Passes;
    if script != [] {
      var n := |script| - 1;
      var init := script[..n];
      ScriptOutcome(env, sent, init);
      PerformIs(env, Exchanges(env, sent, init), script[n]);
      var k := Stop(env, sent, init);
      if k < n {
        assert init[..k + 1] == script[..k + 1] && init[..k] == script[..k];
        PerformsNothing(env, RunScript(env, Session(sent, Going), init), script[n]);
      } else {
        assert script[..n + 1] == script;
      }
    }
  }

  lemma {:induction false} AsksOfTwo(a: seq<Action>, b: seq<Action>)
    ensures Asks(a + b) == Asks(a) + Asks(b)
  {
    if b == [] {
      assert a + b == a;
    } else {
      AsksOfTwo(a, b[..|b| - 1]);
      assert (a + b)[..|a + b| - 1] == a + b[..|b| - 1];
    }
  }

  lemma {:induction false} ExchangesAsk(env: Env, sent: seq<Exchange>, script: seq<Action>)
    ensures Requests(Exchanges(env, sent, script)) == Requests(sent) + Asks(script)
  {
    if script != [] {
      var init, last := script[..|script| - 1], script[|script| - 1];
      ExchangesAsk(env, sent, init);
      var before := Exchanges(env, sent, init);
      if last.Ask? {
        assert Requests(before + [Exchange(last.request, ReplyAt(env, |before|))]) == Requests(before) + [last.request];
      }
    }
  }

  lemma {:induction false} ExchangesOfTwo(env: Env, sent: seq<Exchange>, a: seq<Action>, b: seq<Action>)
    ensures Exchanges(env, sent, a + b) == Exchanges(env, Exchanges(env, sent, a), b)
  {
    if b == [] {
      assert a + b == a;
    } else {
      ExchangesOfTwo(env, sent, a, b[..|b| - 1]);
      assert (a + b)[..|a + b| - 1] == a + b[..|b| - 1];
    }
  }

  lemma {:induction false} StopOfTwo(env: Env, sent: seq<Exchange>, a: seq<Action>, b: seq<Action>)
    ensures Stop(env, sent, a + b) ==
            if Stop(env, sent, a) < |a| then Stop(env, sent, a) else |a| + Stop(env, Exchanges(env, sent, a), b)
  {
    hide Passes;
    if b == [] {
      assert a + b == a;
    } else {
      var init := b[..|b| - 1];
      StopOfTwo(env, sent, a, init);
      ExchangesOfTwo(env, sent, a, init);
      assert (a + b)[..|a + b| - 1] == a + init;
    }
  }

  lemma {:induction false} RunScriptInTwo(env: Env, s: Session, a: seq<Action>, b: seq<Action>)
    ensures RunScript(env, s, a + b) == RunScript(env, RunScript(env, s, a), b)
  {
    hide Perform;
    if b == [] {
      assert a + b == a;
    } else {
      RunScriptInTwo(env, s, a, b[..|b| - 1]);
      assert (a + b)[..|a + b| - 1] == a + b[..|b| - 1];
    }
  }

  lemma {:induction false} StoppedStays(env: Env, s: Session, script: seq<Action>)
    requires s.end != Going
    ensures RunScript(env, s, script) == s
  {
    if script != [] { StoppedStays(env, s, script[..|script| - 1]); }
  }

  /* ---------- The guarded part ---------- */

  /** What the preparation's replies tell. */
  function KnownOf(env: Env): Known { Recall(Exchanges(env, [], Preparation(env))) }

  predicate MustEnable(env: Env) { env.args.live && !AlreadyMatched(env, KnownOf(env).original) }

  /** The preparation, and the write of the settings if there is to be one. */
  function UpToEnable(env: Env): seq<Action> {
    Preparation(env) + if MustEnable(env) then Enable(env, KnownOf(env)) else []
  }

  /** Everything the guarded part is to do. */
  function Plan(env: Env): seq<Action> {
    UpToEnable(env) + if env.args.live then Generation(env, KnownOf(env)) else []
  }

  function Halt(env: Env): nat { Stop(env, [], Plan(env)) }

  /** Every request of the plan was met, and every check held. */
  predicate Completed(env: Env) { Halt(env) == |Plan(env)| }

  predicate Interruption(env: Env) { IsCut(env, [], Plan(env)) }

  function Sent(env: Env): seq<Exchange> { SentOf(env, [], Plan(env)) }

  /** The write of the settings was due and met with success. */
  predicate WriteConfirmed(env: Env) {
    MustEnable(env) && Stop(env, [], UpToEnable(env)) == |UpToEnable(env)|
  }

  lemma PreparedKnown(env: Env)
    ensures RunScript(env, START, Preparation(env)).end == Going ==>
              Recall(RunScript(env, START, Preparation(env)).trace) == KnownOf(env)
  {
    hide RunScript, Preparation, Recall, Stop, Exchanges;
    ScriptOutcome(env, [], Preparation(env));
  }

  lemma AttemptIsPlan(env: Env)
    ensures var a := Attempt(env);
            && a.session == RunScript(env, START, Plan(env))
            && (a.changed <==> MustEnable(env) && RunScript(env, START, UpToEnable(env)).end == Going)
            && (a.changed ==> a.known == KnownOf(env))
  {
    hide RunScript, Preparation, Enable, Generation, AlreadyMatched, Recall, KnownOf;
    var known := KnownOf(env);
    var prepared := RunScript(env, START, Preparation(env));
    PreparedKnown(env);
    RunScriptInTwo(env, START, Preparation(env), Enable(env, known));
    RunScriptInTwo(env, START, UpToEnable(env), Generation(env, known));
    assert Preparation(env) + [] == Preparation(env) && UpToEnable(env) + [] == UpToEnable(env);
    if prepared.end != Going {
      StoppedStays(env, prepared, Enable(env, known));
      StoppedStays(env, prepared, Generation(env, known));
    }
  }

  /** The guarded part as a function of the replies. */
  lemma AttemptIs(env: Env)
    ensures var a := Attempt(env);
            && a.session == Session(Sent(env), if Completed(env) then Going else if Interruption(env) then CutShort else Failed)
            && (a.changed <==> WriteConfirmed(env))
            && (a.changed ==> a.known == KnownOf(env))
  {
    hide Attempt, RunScript, Stop, SentOf, IsCut, Plan, UpToEnable, MustEnable, KnownOf;
    AttemptIsPlan(env);
    ScriptOutcome(env, [], Plan(env));
    ScriptOutcome(env, [], UpToEnable(env));
  }

  /* ---------- The restoration ---------- */

  /** Settings are to be restored. */
  predicate RestoreDue(env: Env) { WriteConfirmed(env) && KnownOf(env).original != Null }

  function BackBody(env: Env): Option<Built> { RestoreBody(env, KnownOf(env).openapi, KnownOf(env).original) }

  /** The next two replies accept the old settings and show them. */
  predicate RestorePasses(env: Env) {
    var n := |Sent(env)|;
    && Resolved(BackBody(env))
    && Meets(ReplyAt(env, n), Ok2xx) && Meets(ReplyAt(env, n + 1), Ok200)
    && RestoredTo(KnownOf(env).original, PayloadOf(ReplyAt(env, n + 1)))
  }

  /** The operator interrupts one of them. */
  predicate RestoreCut(env: Env) {
    var n := |Sent(env)|;
    && Resolved(BackBody(env))
    && (ReplyAt(env, n).Interrupted? || (Meets(ReplyAt(env, n), Ok2xx) && ReplyAt(env, n + 1).Interrupted?))
  }

  /** What the restoration sends: nothing when its body is unresolved, and the read only after an accepted write. */
  function RestoreExchanges(env: Env): seq<Exchange> {
    var n := |Sent(env)|;
    var written := Exchange(Posting(Settings, BackBody(env)).request, ReplyAt(env, n));
    if !Resolved(BackBody(env)) then []
    else if !Meets(ReplyAt(env, n), Ok2xx) then [written]
    else [written, Exchange(Read(Settings), ReplyAt(env, n + 1))]
  }

  lemma {:induction false} DocumentStays(env: Env, sent: seq<Exchange>, script: seq<Action>)
    requires sent != []
    ensures Document(Exchanges(env, sent, script)) == Document(sent)
  {
    if script != [] { DocumentStays(env, sent, script[..|script| - 1]); }
  }

  lemma PreparationReads(env: Env)
    ensures Exchanges(env, [], Preparation(env)) != []
  {
    ExchangesAsk(env, [], Preparation(env));
    AsksTheDocument(env);
    hide Preparation, Exchanges, Asks;
    assert |Requests(Exchanges(env, [], Preparation(env)))| == |Exchanges(env, [], Preparation(env))|;
  }

  lemma AsksTheDocument(env: Env)
    ensures Asks(Preparation(env)) != []
  {
    var script := Preparation(env);
    assert script[|script| - 2] == Ask(Read(CandidatesLatest), Anything);
    assert Asks(script[..|script| - 1]) != [] by {
      var init := script[..|script| - 1];
      assert init[|init| - 1] == script[|script| - 2];
    }
  }

  /** A confirmed write comes after the whole preparation, so the document is the one read there. */
  lemma SentDocument(env: Env)
    requires WriteConfirmed(env)
    ensures Document(Sent(env)) == KnownOf(env).openapi
  {
    hide Preparation, Enable, Generation, AlreadyMatched, Exchanges, Stop, Document;
    PreparationReads(env);
    var known := KnownOf(env);
    var rest := Generation(env, known);
    StopOfTwo(env, [], UpToEnable(env), rest);
    var k := Halt(env);
    var end := if k < |Plan(env)| then k + 1 else k;
    var tail := Plan(env)[|Preparation(env)|..end];
    assert Plan(env)[..end] == Preparation(env) + tail;
    assert k == |Plan(env)| ==> Plan(env)[..end] == Plan(env);
    ExchangesOfTwo(env, [], Preparation(env), tail);
    DocumentStays(env, Exchanges(env, [], Preparation(env)), tail);
  }

  lemma ThreeActions(env: Env, s: Session, a: Action, b: Action, c: Action)
    ensures RunScript(env, s, [a, b, c]) == Perform(env, Perform(env, Perform(env, s, a), b), c)
  {
    hide Perform;
    assert [a, b, c][..2] == [a, b] && [a, b][..1] == [a] && [a][..0] == [];
    assert RunScript(env, s, [a]) == Perform(env, s, a);
    assert RunScript(env, s, [a, b]) == Perform(env, Perform(env, s, a), b);
  }

  /** A check, a post and a read. */
  lemma CheckPostRead(env: Env, sent: seq<Exchange>, test: Test, post: Request)
    ensures var r := RunScript(env, Session(sent, Going), [Check(test), Ask(post, Ok2xx), Ask(Read(Settings), Ok200)]);
            var ok, first, second := Holds(env, sent, test), ReplyAt(env, |sent|), ReplyAt(env, |sent| + 1);
            && (r.end == Going <==> ok && Meets(first, Ok2xx) && Meets(second, Ok200))
            && (r.end == CutShort <==> ok && (first.Interrupted? || (Meets(first, Ok2xx) && second.Interrupted?)))
            && r.trace == sent + (if !ok then [] else if !Meets(first, Ok2xx) then [Exchange(post, first)]
                                  else [Exchange(post, first), Exchange(Read(Settings), second)])
  {
    hide Holds, RunScript;
    ThreeActions(env, Session(sent, Going), Check(test), Ask(post, Ok2xx), Ask(Read(Settings), Ok200));
  }

  lemma RestoreFrom(env: Env, a: Attempted)
    requires Document(a.session.trace) == a.known.openapi
    ensures var body := RestoreBody(env, a.known.openapi, a.known.original); var post := Posting(Settings, body).request;
            var r, sent := Restore(env, a), a.session.trace;
            var ok, first, second := Resolved(body), ReplyAt(env, |sent|), ReplyAt(env, |sent| + 1);
            && (r.end == Going <==>
                  ok && Meets(first, Ok2xx) && Meets(second, Ok200) && RestoredTo(a.known.original, PayloadOf(second)))
            && (r.end == CutShort <==> ok && (first.Interrupted? || (Meets(first, Ok2xx) && second.Interrupted?)))
            && r.trace == sent + (if !ok then [] else if !Meets(first, Ok2xx) then [Exchange(post, first)]
                                  else [Exchange(post, first), Exchange(Read(Settings), second)])
  {
    hide RunScript, RestoreBody, RestoredTo, Resolved, Posting, Meets, ReplyAt;
    var body := RestoreBody(env, a.known.openapi, a.known.original);
    PostingAsks(Settings, body);
    var post := Posting(Settings, body).request;
    CheckPostRead(env, a.session.trace, RestoreResolves(a.known.original), post);
    assert Holds(env, a.session.trace, RestoreResolves(a.known.original)) <==> Resolved(body);
    hide Holds;
    assert Restoration(env, a.known) == [Check(RestoreResolves(a.known.original)), Ask(post, Ok2xx), Ask(Read(Settings), Ok200)];
  }

  /** The restoration as a function of the replies. */
  lemma RestoreIs(env: Env)
    requires RestoreDue(env)
    ensures var r := Restore(env, Attempt(env));
            && (r.end == Going <==> RestorePasses(env)) && (r.end == CutShort <==> RestoreCut(env))
            && r.trace == Sent(env) + RestoreExchanges(env)
  {
    hide Attempt, Restore, WriteConfirmed, Sent, KnownOf, RestoreBody, RestoredTo, Resolved, Posting, Meets, ReplyAt, Completed,
         Interruption, Document, PayloadOf;
    AttemptIs(env);
    SentDocument(env);
    RestoreFrom(env, Attempt(env));
  }

  lemma PostingAsks(at: Endpoint, body: Option<Built>)
    ensures Posting(at, body).Ask? && Posting(at, body).wanted == Ok2xx
    ensures Posting(at, body).request.Post? && Posting(at, body).request.at == at
  {
  }

  /* ---------- The record and the exit code ---------- */

  lemma RestoreIsDue(env: Env)
    ensures MustRestore(env, Attempt(env)) <==> RestoreDue(env)
  {
    hide Attempt, KnownOf, Stop, UpToEnable, Sent, Completed, Interruption;
    AttemptIs(env);
  }

  function RecordOf(env: Env): Option<LiveProbe.Result> {
    if RestoreDue(env) && RestoreCut(env) then None
    else if env.after.None? then Some(SourcePostimageError)
    else if !SourceUnchanged(env) then Some(SourceMutationDetected)
    else if RestoreDue(env) && !RestorePasses(env) then Some(RestoreFailed)
    else if !Completed(env) && !Interruption(env) then Some(FailClosed)
    else if Completed(env) && !env.args.live then Some(PassPreflight)
    else Some(Pass)
  }

  lemma InterruptedIsIncomplete(env: Env)
    requires Interruption(env)
    ensures !Completed(env)
  {
    hide Stop, Plan;
  }

  lemma ConcludedIs(env: Env, a: Attempted, restored: End)
    ensures Concluded(env, a, restored) ==
            if env.after.None? then SourcePostimageError
            else if !SourceUnchanged(env) then SourceMutationDetected
            else if restored == Failed then RestoreFailed
            else if a.session.end == Failed then FailClosed
            else if a.session.end == Going && !env.args.live then PassPreflight
            else Pass
  {
    hide SourceUnchanged;
  }

  /** The record, read off the replies and the snapshots. */
  lemma RecordIs(env: Env)
    ensures Run(env).result == RecordOf(env)
    ensures Run(env).exitsZero <==>
            || (Completed(env) && !env.args.live)
            || (Completed(env) && RecordOf(env) == Some(Pass))
  {
    hide Attempt, Restore, MustRestore, RestoreDue, RestorePasses, RestoreCut, RestoreExchanges, Sent, Completed, Interruption,
         SourceUnchanged, Concluded, KnownOf, BackBody, WriteConfirmed, Plan, SourceBefore;
    RestoreIsDue(env);
    ConcludedIs(env, Attempt(env), if RestoreDue(env) then Restore(env, Attempt(env)).end else Going);
    AttemptIs(env);
    if RestoreDue(env) { RestoreIs(env); }
    if Interruption(env) { InterruptedIsIncomplete(env); }
    if !env.args.live { NotLiveIsNotDue(env); }
  }

  lemma NotLiveIsNotDue(env: Env)
    requires !env.args.live
    ensures !RestoreDue(env)
  {
  }

  /** Everything exchanged in a run. */
  lemma TraceIs(env: Env)
    ensures Run(env).trace == if RestoreDue(env) then Restore(env, Attempt(env)).trace else Sent(env)
  {
    hide Attempt, Restore, MustRestore, RestoreDue, Sent, Completed, Interruption;
    RestoreIsDue(env);
    AttemptIs(env);
  }
}
