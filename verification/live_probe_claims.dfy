/**
 What the final record of a probe proves about the run, for arbitrary replies.
 */
module LiveProbeClaims {
  import opened Common
  import opened JsonValues
  import opened RequestBody
  import opened ProbeSettings
  import opened LiveProbeVerdicts
  import opened LiveProbe
  import opened LiveProbeOutcome

  /* ---------- How often a run posts ---------- */

  function Posts(requests: seq<Request>, at: Endpoint): nat {
    if requests == [] then 0
    else
      var last := requests[|requests| - 1];
      Posts(requests[..|requests| - 1], at) + if last.Post? && last.at == at then 1 else 0
  }

  lemma {:induction false} PostsOfTwo(a: seq<Request>, b: seq<Request>, at: Endpoint)
    ensures Posts(a + b, at) == Posts(a, at) + Posts(b, at)
  {
    if b == [] {
      assert a + b == a;
    } else {
      PostsOfTwo(a, b[..|b| - 1], at);
      assert (a + b)[..|a + b| - 1] == a + b[..|b| - 1];
    }
  }

  lemma PostsOfPrefix(a: seq<Request>, b: seq<Request>, at: Endpoint)
    requires a <= b
    ensures Posts(a, at) <= Posts(b, at)
  {
    PostsOfTwo(a, b[|a|..], at);
    assert a + b[|a|..] == b;
  }

  function PostsIn(script: seq<Action>, at: Endpoint): nat {
    if script == [] then 0
    else
      var last := script[|script| - 1];
      PostsIn(script[..|script| - 1], at) + if last.Ask? && last.request.Post? && last.request.at == at then 1 else 0
  }

  lemma {:induction false} PostsOfScript(script: seq<Action>, at: Endpoint)
    ensures Posts(Asks(script), at) == PostsIn(script, at)
  {
    if script != [] {
      var init, last := script[..|script| - 1], script[|script| - 1];
      PostsOfScript(init, at);
      hide Posts;
      if last.Ask? {
        PostsOfTwo(Asks(init), [last.request], at);
        PostsOfOne(last.request, at);
      } else {
        assert Asks(script) == Asks(init);
      }
    }
  }

  lemma PostsOfOne(r: Request, at: Endpoint)
    ensures Posts([r], at) == if r.Post? && r.at == at then 1 else 0
  {
    assert [r][..0] == [];
  }

  lemma {:induction false} PostsInTwo(a: seq<Action>, b: seq<Action>, at: Endpoint)
    ensures PostsIn(a + b, at) == PostsIn(a, at) + PostsIn(b, at)
  {
    if b == [] {
      assert a + b == a;
    } else {
      PostsInTwo(a, b[..|b| - 1], at);
      assert (a + b)[..|a + b| - 1] == a + b[..|b| - 1];
    }
  }

  lemma PostsInOne(a: Action, at: Endpoint)
    ensures PostsIn([a], at) == if a.Ask? && a.request.Post? && a.request.at == at then 1 else 0
  {
    assert [a][..0] == [];
  }

  lemma {:induction false} ReadsPostNothing(script: seq<Action>, at: Endpoint)
    requires forall i :: 0 <= i < |script| && script[i].Ask? ==> script[i].request.Read?
    ensures PostsIn(script, at) == 0
  {
    if script != [] { ReadsPostNothing(script[..|script| - 1], at); }
  }

  lemma PreparationPostsNothing(env: Env, at: Endpoint)
    ensures Posts(Asks(Preparation(env)), at) == 0
  {
    hide UsesOllama;
    ReadsPostNothing(Preparation(env), at);
    PostsOfScript(Preparation(env), at);
  }

  lemma EnablePosts(env: Env, at: Endpoint)
    ensures Posts(Asks(Enable(env, KnownOf(env))), at) == if at == Settings then 1 else 0
  {
    hide KnownOf, BodyFor, Posting;
    var a := Posting(Settings, BodyFor(env, KnownOf(env).openapi, Settings));
    PostingAsks(Settings, BodyFor(env, KnownOf(env).openapi, Settings));
    PostsOfScript([a], at);
    PostsInOne(a, at);
  }

  lemma GenerationPosts(env: Env, at: Endpoint)
    ensures Posts(Asks(Generation(env, KnownOf(env))), at) == if at == Probe || at == Generate then 1 else 0
  {
    hide KnownOf, BodyFor, Posting;
    var script := Generation(env, KnownOf(env));
    var rest := script[3..];
    PostingAsks(Probe, BodyFor(env, KnownOf(env).openapi, Probe));
    PostingAsks(Generate, BodyFor(env, KnownOf(env).openapi, Generate));
    PostsOfScript(script, at);
    ReadsPostNothing(rest, at);
    PostsInOne(script[0], at);
    PostsInOne(script[1], at);
    PostsInOne(script[2], at);
    PostsInTwo([script[0]], [script[1]], at);
    PostsInTwo([script[0]] + [script[1]], [script[2]], at);
    PostsInTwo([script[0]] + [script[1]] + [script[2]], rest, at);
    hide PostsIn;
    assert script == [script[0]] + [script[1]] + [script[2]] + rest;
  }

  lemma PlanPosts(env: Env, at: Endpoint)
    ensures Posts(Asks(Plan(env)), at) ==
            if !env.args.live then 0
            else if at == Generate || at == Probe then 1
            else if at == Settings && MustEnable(env) then 1 else 0
  {
    PreparationPostsNothing(env, at);
    EnablePosts(env, at);
    GenerationPosts(env, at);
    hide Asks, Preparation, Enable, Generation, AlreadyMatched, KnownOf, Posts;
    var known := KnownOf(env);
    AsksOfTwo(Preparation(env), Enable(env, known));
    AsksOfTwo(UpToEnable(env), Generation(env, known));
    PostsOfTwo(Asks(Preparation(env)), Asks(Enable(env, known)), at);
    PostsOfTwo(Asks(UpToEnable(env)), Asks(Generation(env, known)), at);
    assert Preparation(env) + [] == Preparation(env) && UpToEnable(env) + [] == UpToEnable(env);
  }

  /** The guarded part sends a prefix of what its plan asks, and all of it when it completes. */
  lemma SentFollowsThePlan(env: Env)
    ensures Requests(Sent(env)) <= Asks(Plan(env))
    ensures Completed(env) ==> Sent(env) == Exchanges(env, [], Plan(env)) && Requests(Sent(env)) == Asks(Plan(env))
    ensures Requests(Attempt(env).session.trace) == Requests(Sent(env))
  {
    hide Plan, Stop, Attempt, Exchanges, Asks;
    AttemptIs(env);
    var k := Halt(env);
    var part := if k < |Plan(env)| then Plan(env)[..k + 1] else Plan(env);
    ExchangesAsk(env, [], part);
    AsksOfTwo(part, Plan(env)[|part|..]);
    assert part + Plan(env)[|part|..] == Plan(env);
    assert Requests([]) == [];
    assert [] + Asks(part) == Asks(part);
  }

  lemma RestorePosts(env: Env, at: Endpoint)
    ensures Posts(Requests(RestoreExchanges(env)), at) <= if at == Settings then 1 else 0
    ensures RestorePasses(env) ==> Posts(Requests(RestoreExchanges(env)), at) == if at == Settings then 1 else 0
  {
    hide Sent, BackBody, Resolved, RestoredTo, Posting, KnownOf;
    PostingAsks(Settings, BackBody(env));
    var r := Requests(RestoreExchanges(env));
    var post := Posting(Settings, BackBody(env)).request;
    PostsOfOne(post, at);
    PostsOfOne(Read(Settings), at);
    PostsOfTwo([post], [Read(Settings)], at);
    hide Posts;
    if |r| == 1 { assert r == [post]; }
    if |r| == 2 { assert r == [post] + [Read(Settings)]; }
    if |r| == 0 { assert r == []; NoPosts(at); }
  }

  lemma NoPosts(at: Endpoint)
    ensures Posts([], at) == 0
  {
  }

  /** A run asks for at most one generation and one provider probe, and writes the settings at most twice; a preflight run
      posts nothing at all. */
  lemma PostsAreBounded(env: Env, at: Endpoint)
    ensures Posts(Requests(Run(env).trace), at) <=
            if !env.args.live then 0 else if at == Generate || at == Probe then 1 else if at == Settings then 2 else 0
  {
    TraceIs(env);
    SentFollowsThePlan(env);
    PlanPosts(env, at);
    RestorePosts(env, at);
    hide Run, Attempt, Restore, Plan, Asks, Posts, Sent, RestoreExchanges, MustEnable, RestorePasses, RestoreDue, RestoreCut;
    PostsOfPrefix(Requests(Sent(env)), Asks(Plan(env)), at);
    PostsOfTwo(Requests(Sent(env)), Requests(RestoreExchanges(env)), at);
    if RestoreDue(env) {
      RestoreIs(env);
      assert env.args.live by { if !env.args.live { NotLiveIsNotDue(env); } }
      assert Requests(Run(env).trace) == Requests(Sent(env)) + Requests(RestoreExchanges(env));
    }
  }

  /* ---------- When the record is PASS, and when the exit code is zero ---------- */

  lemma RestoreCutFails(env: Env)
    requires RestoreCut(env)
    ensures !RestorePasses(env)
  {
    hide Sent, BackBody, Resolved, RestoredTo;
  }

  /** A live run is recorded as PASS exactly when no source changed, any settings to restore were restored and read back
      equal, and it went through all it planned, or the operator interrupted it. */
  lemma LivePassIff(env: Env)
    requires env.args.live
    ensures Run(env).result == Some(Pass) <==>
            SourceUnchanged(env) && (Completed(env) || Interruption(env)) && (RestoreDue(env) ==> RestorePasses(env))
  {
    hide Run, Completed, Interruption, RestoreDue, RestorePasses, RestoreCut;
    RecordIs(env);
    if RestoreCut(env) { RestoreCutFails(env); }
  }

  /** The record says PASS without everything having gone through exactly when the operator interrupted the run, no source
      changed, and any settings to restore were restored. The exit code is then not zero. */
  lemma PassWithoutProofIff(env: Env)
    ensures Run(env).result == Some(Pass) && !Completed(env) <==>
            Interruption(env) && SourceUnchanged(env) && (RestoreDue(env) ==> RestorePasses(env))
    ensures Run(env).result == Some(Pass) && !Completed(env) ==> !Run(env).exitsZero
  {
    hide Run, Completed, Interruption, RestoreDue, RestorePasses, RestoreCut;
    RecordIs(env);
    if RestoreCut(env) { RestoreCutFails(env); }
    if Interruption(env) { InterruptedIsIncomplete(env); }
    if !env.args.live { NotLiveIsNotDue(env); }
  }

  /** The exit code of a live run is sound: it is zero exactly when everything went through, no source changed and any
      settings to restore were restored; and then the record says PASS. */
  lemma LiveExitZeroIff(env: Env)
    requires env.args.live
    ensures Run(env).exitsZero <==> Completed(env) && SourceUnchanged(env) && (RestoreDue(env) ==> RestorePasses(env))
    ensures Run(env).exitsZero ==> Run(env).result == Some(Pass)
  {
    hide Run, Completed, Interruption, RestoreDue, RestorePasses, RestoreCut;
    RecordIs(env);
    if RestoreCut(env) { RestoreCutFails(env); }
    if Interruption(env) { InterruptedIsIncomplete(env); }
  }

  /** The exit code of a preflight run is zero exactly when everything went through; so it contradicts the record exactly
      when the source then turns out to be changed, or cannot be read. */
  lemma PreflightExitIff(env: Env)
    requires !env.args.live
    ensures Run(env).exitsZero <==> Completed(env)
    ensures Run(env).exitsZero && Run(env).result != Some(PassPreflight) <==> Completed(env) && !SourceUnchanged(env)
  {
    hide Run, Completed, Interruption, RestoreDue, RestorePasses, RestoreCut;
    RecordIs(env);
    NotLiveIsNotDue(env);
  }

  /* ---------- What going through means ---------- */

  /** No reply that the plan waits for is an interruption. */
  predicate Uninterrupted(env: Env) {
    forall i :: 0 <= i < |Asks(Plan(env))| ==> !ReplyAt(env, i).Interrupted?
  }

  lemma CutIsAnInterruptedReply(env: Env) returns (i: nat)
    requires Interruption(env)
    ensures i < |Asks(Plan(env))| && ReplyAt(env, i).Interrupted?
  {
    hide Plan, Stop, Exchanges;
    var script, k := Plan(env), Halt(env);
    ExchangesAsk(env, [], script[..k]);
    AsksOfTwo(script[..k + 1], script[k + 1..]);
    assert script[..k + 1] + script[k + 1..] == script && script[..k + 1][..k] == script[..k];
    i := |Asks(script[..k])|;
    assert |Requests(Exchanges(env, [], script[..k]))| == i;
  }

  lemma UninterruptedIsNotCut(env: Env)
    requires Uninterrupted(env)
    ensures !Interruption(env)
  {
    hide Interruption, Plan;
    if Interruption(env) { var i := CutIsAnInterruptedReply(env); }
  }

  lemma CheckHeld(env: Env, j: nat)
    requires Completed(env) && j < |Plan(env)| && Plan(env)[j].Check?
    ensures Holds(env, Exchanges(env, [], Plan(env)[..j]), Plan(env)[j].test)
  {
    hide Plan, Exchanges, Holds;
    StopIsFirst(env, [], Plan(env), j);
  }

  lemma PreparationStarts(env: Env)
    ensures var script := Preparation(env);
            && |script| >= 11 && script[0] == Check(SourceTaken) && script[1] == Ask(Read(OpenApi), Ok200Object)
            && script[2] == Check(LimitsAllow)
            && (UsesOllama(env) ==> script[3] == Ask(Read(OllamaTags), Ok200Object) && script[4] == Check(ModelIsLocal))
            && script[if UsesOllama(env) then 5 else 3] == Check(NoApplyEndpoint)
            && script[|script| - 1] == Check(BodiesResolve)
  {
    hide UsesOllama;
  }

  lemma FirstExchanges(env: Env, script: seq<Action>)
    requires |script| >= 2 && script[0].Check? && script[1] == Ask(Read(OpenApi), Ok200Object)
    ensures Exchanges(env, [], script[..2]) == [Exchange(Read(OpenApi), ReplyAt(env, 0))]
  {
    assert script[..2][..1] == script[..1] && script[..1][..0] == [];
    assert Exchanges(env, [], script[..1]) == [];
  }

  lemma DocumentIsFirst(env: Env, script: seq<Action>, j: nat)
    requires 2 <= j <= |script| && script[0].Check? && script[1] == Ask(Read(OpenApi), Ok200Object)
    ensures Document(Exchanges(env, [], script[..j])) == PayloadOf(ReplyAt(env, 0))
  {
    hide Exchanges;
    FirstExchanges(env, script);
    assert script[..j] == script[..2] + script[2..j];
    ExchangesOfTwo(env, [], script[..2], script[2..j]);
    DocumentStays(env, Exchanges(env, [], script[..2]), script[2..j]);
  }

  lemma OllamaReply(env: Env, script: seq<Action>)
    requires |script| >= 4 && script[0].Check? && script[1] == Ask(Read(OpenApi), Ok200Object) && script[2].Check?
    requires script[3] == Ask(Read(OllamaTags), Ok200Object)
    ensures Payload(Exchanges(env, [], script[..4]), 0) == PayloadOf(ReplyAt(env, 1))
  {
    FirstExchanges(env, script);
    assert script[..4][..3] == script[..3] && script[..3][..2] == script[..2];
    assert Exchanges(env, [], script[..3]) == Exchanges(env, [], script[..2]);
  }

  /** What held before anything was posted, read off the replies. */
  predicate Prepared(env: Env) {
    var openapi := PayloadOf(ReplyAt(env, 0));
    && env.before.Some? && env.before.value != map[]
    && WithinLimits(env.reader, env.args, openapi, env.paths(Settings)) && NoApplyPath(openapi) && AllResolved(env, openapi)
    && (UsesOllama(env) ==> LocalModel(env.args.model, PayloadOf(ReplyAt(env, 1))))
  }

  lemma CompletedIsPrepared(env: Env)
    requires Completed(env)
    ensures Prepared(env) && KnownOf(env).openapi == PayloadOf(ReplyAt(env, 0))
  {
    hide Preparation, Generation, Enable, Exchanges, MustEnable, Completed, WithinLimits, NoApplyPath, AllResolved,
         LocalModel, UsesOllama;
    PreparationStarts(env);
    var script, plan := Preparation(env), Plan(env);
    assert forall i :: 0 <= i < |script| ==> plan[i] == script[i];
    var safe := if UsesOllama(env) then 5 else 3;
    CheckHeld(env, 0);
    CheckHeld(env, 2);
    DocumentIsFirst(env, plan, 2);
    CheckHeld(env, safe);
    DocumentIsFirst(env, plan, safe);
    CheckHeld(env, |script| - 1);
    DocumentIsFirst(env, plan, |script| - 1);
    DocumentIsFirst(env, script, |script|);
    assert script[..|script|] == script;
    if UsesOllama(env) {
      CheckHeld(env, 4);
      OllamaReply(env, plan);
    }
  }

  /** The replies to the probe, the generation and the two reads after it, from the n-th reply on, prove everything. */
  predicate ProvenFrom(env: Env, n: nat) {
    var generation, runs := PayloadOf(ReplyAt(env, n + 1)), PayloadOf(ReplyAt(env, n + 2));
    var candidates := PayloadOf(ReplyAt(env, n + 3));
    && ProbeProven(env.args.provider, PayloadOf(ReplyAt(env, n)))
    && NewCandidate(KnownOf(env).candidates, generation, runs, candidates)
    && GatesOf(env.args.model, generation, runs, candidates).All()
  }

  lemma PostExchanges(env: Env, sent: seq<Exchange>, script: seq<Action>)
    requires |script| >= 3 && script[0].Ask? && script[1].Check? && script[2].Ask?
    ensures var n := |sent|; var one := sent + [Exchange(script[0].request, ReplyAt(env, n))];
            && Exchanges(env, sent, script[..1]) == one
            && Exchanges(env, sent, script[..3]) == one + [Exchange(script[2].request, ReplyAt(env, n + 1))]
  {
    hide *;
    NothingExchanged(env, sent, script);
    ExchangesStep(env, sent, script, 0);
    CheckStep(env, sent, script, 1);
    ExchangesStep(env, sent, script, 2);
  }

  lemma GenerationExchanges(env: Env, sent: seq<Exchange>, script: seq<Action>)
    requires |script| == 7 && script[0].Ask? && script[1].Check? && script[2].Ask? && script[5].Check? && script[6].Check?
    requires script[3].Ask? && script[3].request == Read(RunsLatest)
    requires script[4].Ask? && script[4].request == Read(CandidatesLatest)
    ensures var n := |sent|; var one := sent + [Exchange(script[0].request, ReplyAt(env, n))];
            && Exchanges(env, sent, script[..1]) == one
            && Exchanges(env, sent, script[..5]) ==
               one + [Exchange(script[2].request, ReplyAt(env, n + 1))]
               + [Exchange(Read(RunsLatest), ReplyAt(env, n + 2))] + [Exchange(Read(CandidatesLatest), ReplyAt(env, n + 3))]
            && Exchanges(env, sent, script[..6]) == Exchanges(env, sent, script[..5])
            && Exchanges(env, sent, script) == Exchanges(env, sent, script[..5])
  {
    hide *;
    PostExchanges(env, sent, script);
    ExchangesStep(env, sent, script, 3);
    ExchangesStep(env, sent, script, 4);
    CheckStep(env, sent, script, 5);
    CheckStep(env, sent, script, 6);
    assert script[..7] == script;
  }

  lemma CheckStep(env: Env, sent: seq<Exchange>, script: seq<Action>, j: nat)
    requires j < |script| && script[j].Check?
    ensures Exchanges(env, sent, script[..j + 1]) == Exchanges(env, sent, script[..j])
  {
    assert script[..j + 1][..j] == script[..j];
  }

  lemma NothingExchanged(env: Env, sent: seq<Exchange>, script: seq<Action>)
    ensures Exchanges(env, sent, script[..0]) == sent
  {
  }

  lemma ExchangesStep(env: Env, sent: seq<Exchange>, script: seq<Action>, j: nat)
    requires j < |script|
    ensures var before := Exchanges(env, sent, script[..j]);
            Exchanges(env, sent, script[..j + 1]) ==
            if script[j].Ask? then before + [Exchange(script[j].request, ReplyAt(env, |before|))] else before
  {
    assert script[..j + 1][..j] == script[..j];
  }

  lemma CompletedIsProven(env: Env)
    requires Completed(env) && env.args.live
    ensures ProvenFrom(env, |Asks(UpToEnable(env))|)
    ensures |Sent(env)| == |Asks(UpToEnable(env))| + 4
  {
    hide Preparation, Enable, Exchanges, MustEnable, Completed, KnownOf, Posting, BodyFor, UpToEnable, GatesOf, ProbeProven, NewCandidate,
         Asks;
    var script, up, plan := Generation(env, KnownOf(env)), UpToEnable(env), Plan(env);
    var sent := Exchanges(env, [], up);
    ExchangesAsk(env, [], up);
    assert |Requests(sent)| == |Asks(up)|;
    PostingAsks(Probe, BodyFor(env, KnownOf(env).openapi, Probe));
    PostingAsks(Generate, BodyFor(env, KnownOf(env).openapi, Generate));
    GenerationExchanges(env, sent, script);
    SentFollowsThePlan(env);
    ExchangesOfTwo(env, [], up, script);
    assert plan == up + script;
    ExchangesOfTwo(env, [], up, script[..1]);
    ExchangesOfTwo(env, [], up, script[..5]);
    ExchangesOfTwo(env, [], up, script[..6]);
    assert plan[..|up| + 1] == up + script[..1] && plan[..|up| + 5] == up + script[..5] && plan[..|up| + 6] == up + script[..6];
    CheckHeld(env, |up| + 1);
    CheckHeld(env, |up| + 5);
    CheckHeld(env, |up| + 6);
  }

  /** Every request of the plan gets the reply that is wanted there. */
  predicate RepliesMeet(env: Env) {
    forall j :: 0 <= j < |Plan(env)| && Plan(env)[j].Ask? ==>
      Meets(ReplyAt(env, |Asks(Plan(env)[..j])|), Plan(env)[j].wanted)
  }

  lemma {:induction false} AllPassing(env: Env, script: seq<Action>)
    requires forall j :: 0 <= j < |script| ==> Passes(env, Exchanges(env, [], script[..j]), script[j])
    ensures Stop(env, [], script) == |script|
  {
    hide Passes, Exchanges;
    if script != [] {
      var init := script[..|script| - 1];
      forall j | 0 <= j < |init| ensures Passes(env, Exchanges(env, [], init[..j]), init[j]) { assert init[..j] == script[..j]; }
      AllPassing(env, init);
    }
  }

  lemma PreparationChecks(env: Env, j: nat)
    requires j < |Preparation(env)| && Preparation(env)[j].Check?
    ensures j == 0 || j == 2 || (UsesOllama(env) && j == 4) || j == (if UsesOllama(env) then 5 else 3) || j == |Preparation(env)| - 1
  {
    hide UsesOllama;
  }

  lemma PreparedHolds(env: Env, j: nat)
    requires Prepared(env) && j < |Preparation(env)| && Preparation(env)[j].Check?
    ensures Holds(env, Exchanges(env, [], Preparation(env)[..j]), Preparation(env)[j].test)
  {
    hide Preparation, Exchanges, WithinLimits, NoApplyPath, AllResolved, LocalModel, UsesOllama;
    PreparationStarts(env);
    PreparationChecks(env, j);
    var script := Preparation(env);
    if j >= 2 { DocumentIsFirst(env, script, j); }
    if UsesOllama(env) { OllamaReply(env, script); }
  }

  lemma ProvenHolds(env: Env, j: nat)
    requires env.args.live && ProvenFrom(env, |Asks(UpToEnable(env))|) && j < |Generation(env, KnownOf(env))|
    requires Generation(env, KnownOf(env))[j].Check?
    ensures Holds(env, Exchanges(env, [], Plan(env)[..|UpToEnable(env)| + j]), Generation(env, KnownOf(env))[j].test)
  {
    hide Preparation, Enable, Exchanges, MustEnable, KnownOf, Posting, BodyFor, UpToEnable, GatesOf, ProbeProven, NewCandidate, Asks;
    var script, up := Generation(env, KnownOf(env)), UpToEnable(env);
    var sent := Exchanges(env, [], up);
    PostingAsks(Probe, BodyFor(env, KnownOf(env).openapi, Probe));
    PostingAsks(Generate, BodyFor(env, KnownOf(env).openapi, Generate));
    assert j == 1 || j == 5 || j == 6;
    ExchangesAsk(env, [], up);
    assert |Requests(sent)| == |Asks(up)|;
    GenerationExchanges(env, sent, script);
    assert Plan(env)[..|up| + j] == up + script[..j];
    ExchangesOfTwo(env, [], up, script[..j]);
  }

  lemma EnableChecksNothing(env: Env, j: nat)
    requires |Preparation(env)| <= j < |UpToEnable(env)|
    ensures UpToEnable(env)[j].Ask?
  {
    hide Preparation, KnownOf, BodyFor, AlreadyMatched;
  }

  lemma PlanChecksHold(env: Env, j: nat)
    requires Prepared(env) && (env.args.live ==> ProvenFrom(env, |Asks(UpToEnable(env))|))
    requires j < |Plan(env)| && Plan(env)[j].Check?
    ensures Holds(env, Exchanges(env, [], Plan(env)[..j]), Plan(env)[j].test)
  {
    hide Preparation, Generation, Enable, Exchanges, MustEnable, KnownOf, Prepared, ProvenFrom, Holds, Asks;
    var prep, up, plan := Preparation(env), UpToEnable(env), Plan(env);
    if j < |prep| {
      assert plan[j] == prep[j] && plan[..j] == prep[..j];
      PreparedHolds(env, j);
    } else if j < |up| {
      assert plan[j] == up[j];
      EnableChecksNothing(env, j);
    } else {
      assert plan[j] == Generation(env, KnownOf(env))[j - |up|];
      ProvenHolds(env, j - |up|);
    }
  }

  /** A run goes through exactly when every reply is the wanted one and the replies prove everything. */
  lemma CompletedIff(env: Env)
    ensures Completed(env) <==>
            && RepliesMeet(env) && Prepared(env)
            && (env.args.live ==> ProvenFrom(env, |Asks(UpToEnable(env))|))
  {
    hide Plan, Exchanges, Prepared, ProvenFrom, Holds, Meets, UpToEnable, Asks;
    var plan := Plan(env);
    forall j | 0 <= j < |plan| ensures |Exchanges(env, [], plan[..j])| == |Asks(plan[..j])| {
      ExchangesAsk(env, [], plan[..j]);
      assert |Requests(Exchanges(env, [], plan[..j]))| == |Asks(plan[..j])|;
    }
    if Completed(env) {
      CompletedIsPrepared(env);
      if env.args.live { CompletedIsProven(env); }
      forall j | 0 <= j < |plan| && plan[j].Ask? ensures Meets(ReplyAt(env, |Asks(plan[..j])|), plan[j].wanted) {
        StopIsFirst(env, [], plan, j);
      }
    }
    if RepliesMeet(env) && Prepared(env) && (env.args.live ==> ProvenFrom(env, |Asks(UpToEnable(env))|)) {
      forall j | 0 <= j < |plan| ensures Passes(env, Exchanges(env, [], plan[..j]), plan[j]) {
        if plan[j].Check? { PlanChecksHold(env, j); }
      }
      AllPassing(env, plan);
    }
  }

  /** A live PASS that was not interrupted proves everything, by the replies themselves: the limits, the local model and the
      absence of an apply endpoint before anything was posted, then the provider, the new candidate and all eight gates; it
      sent exactly its plan, changed no source, and restored the settings it had changed unless those it had read were null. */
  lemma LivePassMeans(env: Env)
    requires env.args.live && Run(env).result == Some(Pass) && Uninterrupted(env)
    ensures Prepared(env) && ProvenFrom(env, |Asks(UpToEnable(env))|)
    ensures env.after == env.before
    ensures Requests(Run(env).trace) == Asks(Plan(env)) + if RestoreDue(env) then Requests(RestoreExchanges(env)) else []
    ensures RestoreDue(env) <==> MustEnable(env) && KnownOf(env).original != Null
    ensures RestoreDue(env) ==> RestorePasses(env)
  {
    hide Run, Completed, Interruption, RestorePasses, RestoreCut, RestoreExchanges, Attempt, Restore, Prepared, ProvenFrom, Sent,
         Plan, KnownOf, Uninterrupted, MustEnable, UpToEnable, RestoreDue, SourceUnchanged, Asks;
    UninterruptedIsNotCut(env);
    LivePassIff(env);
    CompletedIsPrepared(env);
    CompletedIsProven(env);
    SentFollowsThePlan(env);
    TraceIs(env);
    CompletedConfirms(env);
    SourceStands(env);
    if RestoreDue(env) {
      RestoreIs(env);
      assert Requests(Run(env).trace) == Requests(Sent(env)) + Requests(RestoreExchanges(env));
    }
  }

  lemma SourceStands(env: Env)
    requires SourceUnchanged(env) && Prepared(env)
    ensures env.after == env.before
  {
    hide WithinLimits, NoApplyPath, AllResolved, LocalModel, UsesOllama;
  }

  lemma CompletedConfirms(env: Env)
    requires Completed(env)
    ensures RestoreDue(env) <==> MustEnable(env) && KnownOf(env).original != Null
  {
    hide UpToEnable, Generation, MustEnable, KnownOf, Exchanges, Stop;
    StopOfTwo(env, [], UpToEnable(env), Generation(env, KnownOf(env)));
    assert UpToEnable(env) + [] == UpToEnable(env);
  }

  /** Endpoints whose reads must be answered with 200 before anything is posted. */
  predicate MustAnswer(at: Endpoint) {
    at == OpenApi || at == OllamaTags || at == Health || at == Contract || at == Providers || at == Settings
  }

  /** A reply came; a post was answered with success, and a required read with 200. */
  predicate Answered(x: Exchange) {
    && x.reply.Http?
    && (x.request.Post? ==> 200 <= x.reply.status < 300)
    && (x.request.Read? && MustAnswer(x.request.at) ==> x.reply.status == 200)
  }

  /** The script insists on those replies. */
  predicate Insists(script: seq<Action>) {
    forall i :: 0 <= i < |script| && script[i].Ask? ==>
      && (script[i].request.Post? ==> script[i].wanted == Ok2xx)
      && (script[i].request.Read? && MustAnswer(script[i].request.at) ==> script[i].wanted == Ok200 || script[i].wanted == Ok200Object)
  }

  lemma {:induction false} ScriptIsAnswered(env: Env, script: seq<Action>, i: nat)
    requires Insists(script) && Stop(env, [], script) == |script| && i < |Exchanges(env, [], script)|
    ensures Answered(Exchanges(env, [], script)[i])
  {
    hide Holds;
    var init := script[..|script| - 1];
    if i < |Exchanges(env, [], init)| { ScriptIsAnswered(env, init, i); }
  }

  lemma PlanInsists(env: Env)
    ensures Insists(Plan(env))
  {
    PreparationInsists(env);
    PostsInsist(env);
    hide Preparation, Enable, Generation, MustEnable, KnownOf;
  }

  lemma PreparationInsists(env: Env)
    ensures Insists(Preparation(env))
  {
    hide UsesOllama;
  }

  lemma PostsInsist(env: Env)
    ensures Insists(Enable(env, KnownOf(env))) && Insists(Generation(env, KnownOf(env)))
  {
    hide KnownOf, BodyFor;
  }

  /** In such a PASS every request of the guarded part was answered: posts with success, required reads with 200. */
  lemma LivePassIsAnswered(env: Env, i: nat)
    requires env.args.live && Run(env).result == Some(Pass) && Uninterrupted(env)
    requires i < |Sent(env)|
    ensures Answered(Sent(env)[i])
  {
    hide Run, Interruption, RestoreDue, RestorePasses, Plan, Uninterrupted, Answered, Insists, Exchanges, Stop;
    UninterruptedIsNotCut(env);
    LivePassIff(env);
    PlanInsists(env);
    SentFollowsThePlan(env);
    ScriptIsAnswered(env, Plan(env), i);
  }

  /* ---------- Settings ---------- */

  /** After a PASS that changed the settings they were written back exactly if the settings first read were not null. */
  lemma PassWritesSettingsBackIff(env: Env)
    requires env.args.live && Run(env).result == Some(Pass) && Uninterrupted(env) && MustEnable(env)
    ensures Posts(Requests(Run(env).trace), Settings) == if KnownOf(env).original != Null then 2 else 1
  {
    hide *;
    LivePassMeans(env);
    PlanPosts(env, Settings);
    RestorePosts(env, Settings);
    PostsOfTwo(Asks(Plan(env)), Requests(RestoreExchanges(env)), Settings);
    assert Asks(Plan(env)) + [] == Asks(Plan(env));
  }

  /** An enabling write that is not answered by success is never followed by a restoration, whatever the server did with it. */
  lemma UnconfirmedWriteIsNotRestored(env: Env)
    requires MustEnable(env) && Stop(env, [], Preparation(env)) == |Preparation(env)|
    requires !Meets(ReplyAt(env, |Asks(Preparation(env))|), Ok2xx)
    ensures Run(env).trace == Exchanges(env, [], UpToEnable(env)) && !Run(env).exitsZero
    ensures Posts(Requests(Run(env).trace), Settings) == 1
  {
    hide Run, Preparation, Generation, AlreadyMatched, KnownOf, Attempt, Restore, Posting, BodyFor, Posts;
    var prep, known := Preparation(env), KnownOf(env);
    PostingAsks(Settings, BodyFor(env, known.openapi, Settings));
    ExchangesAsk(env, [], prep);
    assert |Requests(Exchanges(env, [], prep))| == |Asks(prep)|;
    assert UpToEnable(env)[..|prep|] == prep;
    assert Stop(env, [], UpToEnable(env)) == |prep|;
    StopOfTwo(env, [], UpToEnable(env), Generation(env, known));
    assert Plan(env)[..|prep| + 1] == UpToEnable(env);
    TraceIs(env);
    RecordIs(env);
    EnablePosts(env, Settings);
    PreparationPostsNothing(env, Settings);
    ExchangesAsk(env, [], UpToEnable(env));
    AsksOfTwo(prep, Enable(env, known));
    PostsOfTwo(Asks(prep), Asks(Enable(env, known)), Settings);
    assert [] + Asks(UpToEnable(env)) == Asks(UpToEnable(env));
  }

  lemma {:induction false} ReplyInTurn(env: Env, script: seq<Action>, i: nat)
    requires i < |Exchanges(env, [], script)|
    ensures Exchanges(env, [], script)[i].reply == ReplyAt(env, i)
  {
    var init := script[..|script| - 1];
    if i < |Exchanges(env, [], init)| { ReplyInTurn(env, init, i); }
  }

  lemma {:induction false} UncountedPost(requests: seq<Request>, at: Endpoint, i: nat)
    requires Posts(requests, at) == 0 && i < |requests|
    ensures !(requests[i].Post? && requests[i].at == at)
  {
    if i < |requests| - 1 { UncountedPost(requests[..|requests| - 1], at, i); }
  }

  /** A write of the settings that the guarded part sees accepted is the confirmed one. */
  lemma AcceptedWriteIsConfirmed(env: Env, i: nat)
    requires i < |Sent(env)| && Sent(env)[i].request.Post? && Sent(env)[i].request.at == Settings
    requires Meets(Sent(env)[i].reply, Ok2xx)
    ensures WriteConfirmed(env)
  {
    hide Preparation, Generation, AlreadyMatched, KnownOf, Posting, BodyFor, Posts, Exchanges, Stop, Asks, Passes, Attempt;
    var prep, known, plan := Preparation(env), KnownOf(env), Plan(env);
    SentFollowsThePlan(env);
    PlanPosts(env, Settings);
    assert Requests(Sent(env))[i] == Asks(plan)[i];
    if !MustEnable(env) { UncountedPost(Asks(plan), Settings, i); }
    WriteIsAfterPreparation(env, i);
    var k := Halt(env);
    var part := if k < |plan| then plan[..k + 1] else plan;
    ReplyInTurn(env, part, i);
    StopOfTwo(env, [], prep, Enable(env, known));
    StopOfTwo(env, [], UpToEnable(env), Generation(env, known));
    ShortOfPreparation(env);
    EnableStops(env);
  }

  lemma ShortOfPreparation(env: Env)
    ensures Stop(env, [], Preparation(env)) < |Preparation(env)| ==> |Sent(env)| <= |Asks(Preparation(env))|
  {
    hide Preparation, Enable, Generation, MustEnable, KnownOf, Exchanges, Stop, Asks, Passes;
    var prep, plan, k := Preparation(env), Plan(env), Stop(env, [], Preparation(env));
    if k < |prep| {
      var rest := plan[|prep|..];
      assert plan == prep + rest;
      StopOfTwo(env, [], prep, rest);
      assert plan[..k + 1] == prep[..k + 1];
      ExchangesAsk(env, [], prep[..k + 1]);
      AsksOfTwo(prep[..k + 1], prep[k + 1..]);
      assert prep[..k + 1] + prep[k + 1..] == prep;
      assert |Requests(Sent(env))| == |Asks(prep[..k + 1])|;
    }
  }

  lemma WriteIsAfterPreparation(env: Env, i: nat)
    requires MustEnable(env) && i < |Asks(Plan(env))| && Asks(Plan(env))[i].Post? && Asks(Plan(env))[i].at == Settings
    ensures i == |Asks(Preparation(env))|
  {
    hide Preparation, Enable, Generation, AlreadyMatched, KnownOf, Asks, Posts, MustEnable;
    var known := KnownOf(env);
    AsksOfTwo(Preparation(env), Enable(env, known));
    AsksOfTwo(UpToEnable(env), Generation(env, known));
    PreparationPostsNothing(env, Settings);
    GenerationPosts(env, Settings);
    assert |Asks(Enable(env, known))| == 1 by { EnableAsks(env); }
    assert MustEnable(env) ==> env.args.live by { LiveWhenEnabling(env); }
    var prep, gen := Asks(Preparation(env)), Asks(Generation(env, known));
    if i < |prep| { UncountedPost(prep, Settings, i); }
    if i > |prep| { UncountedPost(gen, Settings, i - |prep| - 1); }
  }

  lemma LiveWhenEnabling(env: Env)
    ensures MustEnable(env) ==> env.args.live
  {
    hide KnownOf, AlreadyMatched;
  }

  lemma EnableAsks(env: Env)
    ensures |Asks(Enable(env, KnownOf(env)))| == 1
  {
    hide KnownOf, BodyFor;
    assert Enable(env, KnownOf(env))[..0] == [];
  }

  lemma EnableStops(env: Env)
    ensures Meets(ReplyAt(env, |Asks(Preparation(env))|), Ok2xx) ==>
              Stop(env, Exchanges(env, [], Preparation(env)), Enable(env, KnownOf(env))) == 1
  {
    hide Preparation, KnownOf, BodyFor, Posting, Asks;
    var prep := Preparation(env);
    ExchangesAsk(env, [], prep);
    assert |Requests(Exchanges(env, [], prep))| == |Asks(prep)|;
    PostingAsks(Settings, BodyFor(env, KnownOf(env).openapi, Settings));
    assert Enable(env, KnownOf(env))[..0] == [];
  }

  /** However a live run ends, a write of the settings that was accepted is followed by an attempt to restore those it had
      read, unless they were null; and when that does not go through, neither the record nor the exit code says that it did. */
  lemma AcceptedWriteIsRestored(env: Env, i: nat)
    requires KnownOf(env).original != Null && i < |Run(env).trace|
    requires var x := Run(env).trace[i]; x.request.Post? && x.request.at == Settings && Meets(x.reply, Ok2xx)
    ensures Run(env).trace == Sent(env) + RestoreExchanges(env)
    ensures Resolved(BackBody(env)) ==> Run(env).trace[|Sent(env)|..] != []
                                        && Run(env).trace[|Sent(env)|].request == Posting(Settings, BackBody(env)).request
    ensures !RestorePasses(env) ==> Run(env).result != Some(Pass) && !Run(env).exitsZero
  {
    hide Run, Attempt, Restore, RestorePasses, RestoreCut, Sent, KnownOf, BackBody, Posting, Completed, Interruption, Resolved,
         WriteConfirmed;
    TraceIs(env);
    if !RestoreDue(env) { AcceptedWriteIsConfirmed(env, i); }
    RestoreIs(env);
    RecordIs(env);
    if !env.args.live { NotLiveIsNotDue(env); }
  }

  /* ---------- An interrupted PASS ---------- */

  /** A run interrupted at its very first request is recorded as PASS, although no verdict can be drawn from what it saw. */
  lemma InterruptAtFirstRequestIsRecordedAsPass(env: Env)
    requires env.before.Some? && env.before.value != map[] && env.after == env.before
    requires env.replies != [] && env.replies[0] == Interrupted
    ensures var run := Run(env);
            && run.result == Some(Pass) && run.trace == [Exchange(Read(OpenApi), Interrupted)]
            && !Holds(env, run.trace, ProbeIsProven) && !Holds(env, run.trace, GatesHold)
            && forall before :: !Holds(env, run.trace, CandidateIsNew(before))
  {
    hide Run, Attempt, Restore, RestorePasses, RestoreCut, Completed, Holds, KnownOf;
    StopsAtFirstRequest(env);
    RecordIs(env);
    TraceIs(env);
    InterruptedIsIncomplete(env);
    assert SourceUnchanged(env);
    forall before ensures !Holds(env, Run(env).trace, CandidateIsNew(before)) { NothingSeen(env, before); }
    NothingSeen(env, Null);
  }

  lemma StopsAtFirstRequest(env: Env)
    requires env.before.Some? && env.before.value != map[]
    requires env.replies != [] && env.replies[0] == Interrupted
    ensures Interruption(env) && Sent(env) == [Exchange(Read(OpenApi), Interrupted)] && !WriteConfirmed(env)
  {
    hide Preparation, Enable, Generation, MustEnable, KnownOf;
    PreparationStarts(env);
    var prep, plan := Preparation(env), Plan(env);
    FirstExchanges(env, prep);
    var rest := prep[2..];
    assert prep == prep[..2] + rest;
    assert plan == prep[..2] + plan[2..] && UpToEnable(env) == prep[..2] + UpToEnable(env)[2..];
    assert prep[..2][..1] == prep[..1] && prep[..1][..0] == [];
    assert Stop(env, [], prep[..1]) == 1 && Exchanges(env, [], prep[..1]) == [];
    assert Stop(env, [], prep[..2]) == 1;
    StopOfTwo(env, [], prep[..2], plan[2..]);
    StopOfTwo(env, [], prep[..2], UpToEnable(env)[2..]);
    assert plan[..2] == prep[..2] && plan[..1] == prep[..1];
  }

  lemma NothingSeen(env: Env, before: Json)
    ensures var trace := [Exchange(Read(OpenApi), Interrupted)];
            && !Holds(env, trace, ProbeIsProven) && !Holds(env, trace, GatesHold) && !Holds(env, trace, CandidateIsNew(before))
  {
    hide ProbeProven, NewCandidate, GatesOf;
    NothingIsProven(env.args.provider, env.args.model, before);
  }
}
