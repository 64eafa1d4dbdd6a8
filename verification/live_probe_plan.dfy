/**
 The plan of a run, written out: its requests in order, the replies it needs by their place in the list of replies, and
 what it remembers of them.
 */
module LiveProbePlan {
  import opened Common
  import opened JsonValues
  import opened RequestBody
  import opened ProbeSettings
  import opened LiveProbeVerdicts
  import opened LiveProbe
  import opened LiveProbeOutcome
  import opened LiveProbeClaims

  /* ---------- What a script wants of each reply ---------- */

  function Wants(script: seq<Action>): seq<Wanted> {
    if script == [] then []
    else
      var last := script[|script| - 1];
      Wants(script[..|script| - 1]) + if last.Ask? then [last.wanted] else []
  }

  lemma {:induction false} OneWantPerAsk(script: seq<Action>)
    ensures |Wants(script)| == |Asks(script)|
  {
    if script != [] { OneWantPerAsk(script[..|script| - 1]); }
  }

  lemma {:induction false} WantsOfTwo(a: seq<Action>, b: seq<Action>)
    ensures Wants(a + b) == Wants(a) + Wants(b)
  {
    if b == [] {
      assert a + b == a;
    } else {
      WantsOfTwo(a, b[..|b| - 1]);
      assert (a + b)[..|a + b| - 1] == a + b[..|b| - 1];
    }
  }

  ghost predicate AllMeet(env: Env, wants: seq<Wanted>) {
    forall i :: 0 <= i < |wants| ==> Meets(ReplyAt(env, i), wants[i])
  }

  lemma {:induction false} WantsAreMet(env: Env, script: seq<Action>)
    ensures AllMeet(env, Wants(script)) <==>
            forall j :: 0 <= j < |script| && script[j].Ask? ==> Meets(ReplyAt(env, |Asks(script[..j])|), script[j].wanted)
  {
    hide Meets;
    if script != [] {
      var n := |script| - 1;
      var init := script[..n];
      WantsAreMet(env, init);
      OneWantPerAsk(init);
      var wants := Wants(script);
      assert forall i :: 0 <= i < |Wants(init)| ==> wants[i] == Wants(init)[i];
      forall j | 0 <= j < n ensures init[..j] == script[..j] && init[j] == script[j] {}
      assert script[n].Ask? ==> wants[|Asks(init)|] == script[n].wanted;
    }
  }

  /* ---------- The requests ---------- */

  /** The reads before anything is posted. */
  function FirstReads(env: Env): seq<Request> {
    [Read(OpenApi)] + (if env.args.provider == Ollama then [Read(OllamaTags)] else [])
    + [Read(Health), Read(Contract), Read(Providers), Read(Settings), Read(RunsLatest), Read(CandidatesLatest)]
  }

  /** What has to come back: the document and the models as objects, the records of earlier runs in any form. */
  function FirstWants(env: Env): seq<Wanted> {
    [Ok200Object] + (if env.args.provider == Ollama then [Ok200Object] else [])
    + [Ok200, Ok200, Ok200, Ok200, Anything, Anything]
  }

  /** The body built for an endpoint from the document that was read first. */
  function BodyAt(env: Env, at: Endpoint): Json {
    var openapi := PayloadOf(ReplyAt(env, 0));
    var built := BuildBody(PostSchema(openapi, env.paths(at)), env.values, ComponentsOf(openapi), env.depth);
    if built.Some? then built.value.value else Null
  }

  function EnableRequests(env: Env): seq<Request> {
    if MustEnable(env) then [Post(Settings, BodyAt(env, Settings))] else []
  }

  function EnableWants(env: Env): seq<Wanted> { if MustEnable(env) then [Ok2xx] else [] }

  function LiveRequests(env: Env): seq<Request> {
    EnableRequests(env)
    + [Post(Probe, BodyAt(env, Probe)), Post(Generate, BodyAt(env, Generate)), Read(RunsLatest), Read(CandidatesLatest)]
  }

  function LiveWants(env: Env): seq<Wanted> { EnableWants(env) + [Ok2xx, Ok2xx, Ok200, Ok200] }

  lemma OneAction(a: Action)
    ensures Asks([a]) == if a.Ask? then [a.request] else []
    ensures Wants([a]) == if a.Ask? then [a.wanted] else []
  {
    assert [a][..0] == [];
  }

  lemma Append(script: seq<Action>, a: Action)
    ensures Asks(script + [a]) == Asks(script) + if a.Ask? then [a.request] else []
    ensures Wants(script + [a]) == Wants(script) + if a.Ask? then [a.wanted] else []
  {
    assert (script + [a])[..|script|] == script;
  }

  lemma NoActions()
    ensures Asks([]) == [] && Wants([]) == []
  {
  }

  lemma FirstPart(env: Env)
    ensures var a := [Check(SourceTaken), Ask(Read(OpenApi), Ok200Object), Check(LimitsAllow)];
            Asks(a) == [Read(OpenApi)] && Wants(a) == [Ok200Object]
  {
    NoActions();
    Append([], Check(SourceTaken));
    Append([Check(SourceTaken)], Ask(Read(OpenApi), Ok200Object));
    Append([Check(SourceTaken), Ask(Read(OpenApi), Ok200Object)], Check(LimitsAllow));
    hide Asks, Wants;
    assert [] + [Check(SourceTaken)] == [Check(SourceTaken)];
    assert [Check(SourceTaken)] + [Ask(Read(OpenApi), Ok200Object)] == [Check(SourceTaken), Ask(Read(OpenApi), Ok200Object)];
    assert [Check(SourceTaken), Ask(Read(OpenApi), Ok200Object)] + [Check(LimitsAllow)]
           == [Check(SourceTaken), Ask(Read(OpenApi), Ok200Object), Check(LimitsAllow)];
  }

  lemma ModelPart(env: Env)
    ensures var a := [Ask(Read(OllamaTags), Ok200Object), Check(ModelIsLocal)];
            Asks(a) == [Read(OllamaTags)] && Wants(a) == [Ok200Object]
  {
    OneAction(Ask(Read(OllamaTags), Ok200Object));
    Append([Ask(Read(OllamaTags), Ok200Object)], Check(ModelIsLocal));
  }

  function LastPart(): seq<Action> {
    [Check(NoApplyEndpoint),
     Ask(Read(Health), Ok200), Ask(Read(Contract), Ok200), Ask(Read(Providers), Ok200), Ask(Read(Settings), Ok200),
     Ask(Read(RunsLatest), Anything), Ask(Read(CandidatesLatest), Anything),
     Check(BodiesResolve)]
  }

  lemma {:induction false} AsksFromLeft(script: seq<Action>)
    requires script != []
    ensures Asks(script) == (if script[0].Ask? then [script[0].request] else []) + Asks(script[1..])
    ensures Wants(script) == (if script[0].Ask? then [script[0].wanted] else []) + Wants(script[1..])
  {
    OneAction(script[0]);
    AsksOfTwo([script[0]], script[1..]);
    WantsOfTwo([script[0]], script[1..]);
    assert [script[0]] + script[1..] == script;
  }

  lemma LastPartIs()
    ensures Asks(LastPart())
            == [Read(Health), Read(Contract), Read(Providers), Read(Settings), Read(RunsLatest), Read(CandidatesLatest)]
    ensures Wants(LastPart()) == [Ok200, Ok200, Ok200, Ok200, Anything, Anything]
  {
    hide Asks, Wants;
    NoActions();
    var s := LastPart();
    AsksFromLeft(s);
    AsksFromLeft(s[1..]);
    AsksFromLeft(s[2..]);
    AsksFromLeft(s[3..]);
    AsksFromLeft(s[4..]);
    AsksFromLeft(s[5..]);
    AsksFromLeft(s[6..]);
    AsksFromLeft(s[7..]);
    assert s[8..] == [];
    assert s[1..][1..] == s[2..] && s[2..][1..] == s[3..] && s[3..][1..] == s[4..] && s[4..][1..] == s[5..];
    assert s[5..][1..] == s[6..] && s[6..][1..] == s[7..] && s[7..][1..] == s[8..];
  }

  lemma PreparationIs(env: Env)
    ensures Asks(Preparation(env)) == FirstReads(env) && Wants(Preparation(env)) == FirstWants(env)
  {
    hide Asks, Wants;
    FirstPart(env);
    ModelPart(env);
    LastPartIs();
    NoActions();
    var a, c := [Check(SourceTaken), Ask(Read(OpenApi), Ok200Object), Check(LimitsAllow)], LastPart();
    var b := if env.args.provider == Ollama then [Ask(Read(OllamaTags), Ok200Object), Check(ModelIsLocal)] else [];
    assert Preparation(env) == a + b + c;
    AsksOfTwo(a, b);
    AsksOfTwo(a + b, c);
    WantsOfTwo(a, b);
    WantsOfTwo(a + b, c);
  }

  /* ---------- What is remembered ---------- */

  /** Where the reads begin that do not depend on the provider. */
  function Base(env: Env): nat { if env.args.provider == Ollama then 2 else 1 }

  /** The document is the first reply, the settings the fourth of those reads, the earlier candidates the sixth. */
  lemma KnownIs(env: Env)
    ensures KnownOf(env) ==
            Known(PayloadOf(ReplyAt(env, 0)), PayloadOf(ReplyAt(env, Base(env) + 3)), PayloadOf(ReplyAt(env, Base(env) + 5)))
  {
    hide Preparation, Exchanges, Asks;
    PreparationIs(env);
    var trace := Exchanges(env, [], Preparation(env));
    ExchangesAsk(env, [], Preparation(env));
    assert |Requests(trace)| == |trace| == Base(env) + 6;
    ReplyInTurn(env, Preparation(env), 0);
    ReplyInTurn(env, Preparation(env), Base(env) + 3);
    ReplyInTurn(env, Preparation(env), Base(env) + 5);
  }

  lemma GenerationIs(env: Env)
    ensures Asks(Generation(env, KnownOf(env)))
            == [Post(Probe, BodyAt(env, Probe)), Post(Generate, BodyAt(env, Generate)), Read(RunsLatest), Read(CandidatesLatest)]
    ensures Wants(Generation(env, KnownOf(env))) == [Ok2xx, Ok2xx, Ok200, Ok200]
  {
    KnownIs(env);
    NoActions();
    hide Asks, Wants, KnownOf, PostSchema, BuildBody, ComponentsOf;
    var s := Generation(env, KnownOf(env));
    AsksFromLeft(s);
    AsksFromLeft(s[1..]);
    AsksFromLeft(s[2..]);
    AsksFromLeft(s[3..]);
    AsksFromLeft(s[4..]);
    AsksFromLeft(s[5..]);
    AsksFromLeft(s[6..]);
    assert s[7..] == [];
    assert s[1..][1..] == s[2..] && s[2..][1..] == s[3..] && s[3..][1..] == s[4..] && s[4..][1..] == s[5..];
    assert s[5..][1..] == s[6..] && s[6..][1..] == s[7..];
  }

  lemma EnableIs(env: Env)
    ensures Asks(Enable(env, KnownOf(env))) == [Post(Settings, BodyAt(env, Settings))] && Wants(Enable(env, KnownOf(env))) == [Ok2xx]
  {
    KnownIs(env);
    hide Asks, Wants, KnownOf, PostSchema, BuildBody, ComponentsOf;
    OneAction(Enable(env, KnownOf(env))[0]);
    assert Enable(env, KnownOf(env)) == [Enable(env, KnownOf(env))[0]];
  }

  lemma UpToEnableIs(env: Env)
    ensures Asks(UpToEnable(env)) == FirstReads(env) + EnableRequests(env)
    ensures Wants(UpToEnable(env)) == FirstWants(env) + EnableWants(env)
  {
    hide Asks, Wants, Preparation, Enable, MustEnable, KnownOf, BodyAt, FirstReads, FirstWants;
    PreparationIs(env);
    EnableIs(env);
    NoActions();
    var b := if MustEnable(env) then Enable(env, KnownOf(env)) else [];
    AsksOfTwo(Preparation(env), b);
    WantsOfTwo(Preparation(env), b);
  }

  lemma PlanUnfolds(env: Env)
    ensures Plan(env) == UpToEnable(env) + if env.args.live then Generation(env, KnownOf(env)) else []
    ensures !env.args.live ==> EnableRequests(env) == [] && EnableWants(env) == []
  {
    hide UpToEnable, Generation, KnownOf, AlreadyMatched;
  }

  /** The requests of a run, in order, with the bodies of its posts; and the replies it wants to each. */
  lemma PlanIs(env: Env)
    ensures Asks(Plan(env)) == FirstReads(env) + if env.args.live then LiveRequests(env) else []
    ensures Wants(Plan(env)) == FirstWants(env) + if env.args.live then LiveWants(env) else []
  {
    hide Asks, Wants, Generation, UpToEnable, Plan, KnownOf, BodyAt, FirstReads, FirstWants, EnableRequests, EnableWants;
    PlanUnfolds(env);
    UpToEnableIs(env);
    GenerationIs(env);
    NoActions();
    var c := if env.args.live then Generation(env, KnownOf(env)) else [];
    AsksOfTwo(UpToEnable(env), c);
    WantsOfTwo(UpToEnable(env), c);
  }

  /* ---------- The replies ---------- */

  predicate Answers200(r: Reply) { r.Http? && r.status == 200 }

  predicate Succeeds(r: Reply) { r.Http? && 200 <= r.status <= 299 }

  /** The replies of the preparation, by their place. */
  predicate Readable(env: Env) {
    var b := Base(env);
    && Answers200(ReplyAt(env, 0)) && ReplyAt(env, 0).payload.Obj?
    && (env.args.provider == Ollama ==> Answers200(ReplyAt(env, 1)) && ReplyAt(env, 1).payload.Obj?)
    && Answers200(ReplyAt(env, b)) && Answers200(ReplyAt(env, b + 1)) && Answers200(ReplyAt(env, b + 2))
    && Answers200(ReplyAt(env, b + 3))
    && ReplyAt(env, b + 4).Http? && ReplyAt(env, b + 5).Http?
  }

  /** The place of the reply to the provider probe. */
  function ProbePlace(env: Env): nat { Base(env) + 6 + if MustEnable(env) then 1 else 0 }

  predicate Accepted(env: Env) {
    var n := ProbePlace(env);
    && (MustEnable(env) ==> Succeeds(ReplyAt(env, n - 1)))
    && Succeeds(ReplyAt(env, n)) && Succeeds(ReplyAt(env, n + 1))
    && Answers200(ReplyAt(env, n + 2)) && Answers200(ReplyAt(env, n + 3))
  }

  lemma MeetsIs(r: Reply)
    ensures Meets(r, Ok200) == Answers200(r) && Meets(r, Ok2xx) == Succeeds(r) && Meets(r, Anything) == r.Http?
    ensures Meets(r, Ok200Object) == (Answers200(r) && r.payload.Obj?)
  {
  }

  lemma FirstWantsAreMet(env: Env)
    ensures AllMeet(env, FirstWants(env)) <==> Readable(env)
  {
    hide Meets, ReplyAt;
    var b, wants := Base(env), FirstWants(env);
    forall i: nat
      ensures var r := ReplyAt(env, i);
              && Meets(r, Ok200) == Answers200(r) && Meets(r, Anything) == r.Http?
              && Meets(r, Ok200Object) == (Answers200(r) && r.payload.Obj?)
    {
      MeetsIs(ReplyAt(env, i));
    }
    if env.args.provider == Ollama { assert wants[1] == Ok200Object; }
    assert wants[0] == Ok200Object && wants[b] == Ok200 && wants[b + 1] == Ok200 && wants[b + 2] == Ok200 && wants[b + 3] == Ok200;
    assert wants[b + 4] == Anything && wants[b + 5] == Anything;
  }

  lemma LiveWantsAreMet(env: Env)
    ensures (forall i :: 0 <= i < |LiveWants(env)| ==> Meets(ReplyAt(env, Base(env) + 6 + i), LiveWants(env)[i])) <==> Accepted(env)
  {
    hide Meets, Answers200, Succeeds, ReplyAt, MustEnable;
    var e, wants := if MustEnable(env) then 1 else 0, LiveWants(env);
    var b := Base(env) + 6;
    forall i: nat
      ensures Meets(ReplyAt(env, i), Ok200) == Answers200(ReplyAt(env, i))
      ensures Meets(ReplyAt(env, i), Ok2xx) == Succeeds(ReplyAt(env, i))
    {
      MeetsIs(ReplyAt(env, i));
    }
    if MustEnable(env) { assert wants[0] == Ok2xx; }
    assert wants[e] == Ok2xx && wants[e + 1] == Ok2xx && wants[e + 2] == Ok200 && wants[e + 3] == Ok200;
    assert |wants| == e + 4;
  }

  lemma AllMeetInTwo(env: Env, a: seq<Wanted>, b: seq<Wanted>)
    ensures AllMeet(env, a + b) <==>
            AllMeet(env, a) && forall i :: 0 <= i < |b| ==> Meets(ReplyAt(env, |a| + i), b[i])
  {
    hide Meets, ReplyAt;
    var all := a + b;
    assert forall i :: 0 <= i < |a| ==> all[i] == a[i];
    assert forall i :: 0 <= i < |b| ==> all[|a| + i] == b[i];
    if AllMeet(env, a) && forall i :: 0 <= i < |b| ==> Meets(ReplyAt(env, |a| + i), b[i]) {
      forall i | 0 <= i < |all| ensures Meets(ReplyAt(env, i), all[i]) {
        if i >= |a| { assert Meets(ReplyAt(env, |a| + (i - |a|)), b[i - |a|]); }
      }
    }
  }

  lemma RepliesMeetIs(env: Env)
    ensures RepliesMeet(env) <==> AllMeet(env, Wants(Plan(env)))
  {
    hide Plan, Asks, Wants, Meets, ReplyAt, AllMeet;
    WantsAreMet(env, Plan(env));
  }

  lemma RepliesMeetIff(env: Env)
    ensures RepliesMeet(env) <==> Readable(env) && (env.args.live ==> Accepted(env))
  {
    hide *;
    RepliesMeetIs(env);
    PlanIs(env);
    FirstWantsAreMet(env);
    LiveWantsAreMet(env);
    FirstWantsSize(env);
    AllMeetInTwo(env, FirstWants(env), LiveWants(env));
    assert FirstWants(env) + [] == FirstWants(env);
  }

  lemma FirstWantsSize(env: Env)
    ensures |FirstWants(env)| == Base(env) + 6
  {
  }

  /** A run goes through exactly when the replies at these places are there and prove everything. */
  lemma CompletedByReplies(env: Env)
    ensures Completed(env) <==>
            && Prepared(env) && Readable(env)
            && (env.args.live ==> Accepted(env) && ProvenFrom(env, ProbePlace(env)))
  {
    hide *;
    CompletedIff(env);
    RepliesMeetIff(env);
    ProbePlaceIs(env);
  }

  lemma ProbePlaceIs(env: Env)
    ensures |Asks(UpToEnable(env))| == ProbePlace(env)
  {
    hide Asks, UpToEnable, FirstReads, MustEnable, BodyAt;
    UpToEnableIs(env);
    FirstReadsSize(env);
  }

  lemma FirstReadsSize(env: Env)
    ensures |FirstReads(env)| == Base(env) + 6
  {
  }

  /* ---------- What the words of these claims stand for ---------- */

  /** A request gets the reply at its place in the list, and fails beyond its end; only an HTTP reply has a payload. */
  lemma RepliesAre(env: Env, i: nat)
    ensures i < |env.replies| ==> ReplyAt(env, i) == env.replies[i]
    ensures i >= |env.replies| ==> ReplyAt(env, i) == Raised
    ensures PayloadOf(ReplyAt(env, i)) ==
            if i < |env.replies| && env.replies[i].Http? then env.replies[i].payload else Null
  {
  }

  /** The bodies of all three posts can be built, with nothing missing. */
  lemma BodiesResolveIff(env: Env, openapi: Json)
    ensures AllResolved(env, openapi) <==>
            forall at :: at == Settings || at == Probe || at == Generate ==>
              var built := BuildBody(PostSchema(openapi, env.paths(at)), env.values, ComponentsOf(openapi), env.depth);
              built.Some? && built.value.missing == []
  {
    hide PostSchema, BuildBody, ComponentsOf;
    forall at
      ensures BodyFor(env, openapi, at) ==
              BuildBody(PostSchema(openapi, env.paths(at)), env.values, ComponentsOf(openapi), env.depth)
    {
    }
  }

  /** No source changed: both snapshots were taken, they agree, and there was something to take. */
  lemma SourceUnchangedIff(env: Env)
    ensures SourceUnchanged(env) <==> env.before.Some? && env.after == env.before && |env.before.value| > 0
  {
  }
}
