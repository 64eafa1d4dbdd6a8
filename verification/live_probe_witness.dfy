/**
 One concrete run of the live probe: recorded as PASS with exit code zero, it changed settings that it had read as
 null, and never wrote them back.
 */
module LiveProbeWitness {
  import opened Common
  import opened JsonValues
  import opened OpenapiSchema
  import opened RequestBody
  import opened ProbeSettings
  import opened LiveProbeVerdicts
  import opened LiveProbe
  import opened LiveProbeOutcome
  import opened LiveProbeClaims

  /* ---------- Paths ---------- */

  function Tail(at: Endpoint): string {
    match at
    case Settings => "/settings"
    case Probe => "/providers/probe"
    case Generate => "/candidates/generate"
    case _ => ""
  }

  /** The paths posted to. */
  function PathOf(at: Endpoint): string { "/api/v1/operational" + "-core/coding-" + "m" + ("odel" + Tail(at)) }

  /** Small letters only, none of them m, w or y. */
  predicate Quiet(s: string) { forall c :: c in s ==> c != 'm' && c != 'w' && c != 'y' && !('A' <= c <= 'Z') }

  lemma {:induction false} ContainsPair(s: string, p: string, i: nat) returns (k: nat)
    requires Contains(s, p) && i + 1 < |p|
    ensures k + 1 < |s| && s[k] == p[i] && s[k + 1] == p[i + 1]
  {
    if p <= s {
      assert s[i] == p[i] && s[i + 1] == p[i + 1];
      k := i;
    } else {
      k := ContainsPair(s[1..], p, i);
      k := k + 1;
    }
  }

  /** With a single m such a path cannot hold /commit, and without w and y neither /source-write nor /apply. */
  lemma QuietAppliesNothing(a: string, b: string)
    requires Quiet(a) && Quiet(b)
    ensures !AppliesSource(a + "m" + b)
  {
    hide Contains;
    var s := a + "m" + b;
    forall k | 0 <= k < |s| ensures Lower(s)[k] == s[k] != 'w' && s[k] != 'y' && (s[k] == 'm' ==> k == |a|) {
      if k < |a| { assert s[k] in a; }
      if k > |a| { assert s[k] == b[k - |a| - 1] && b[k - |a| - 1] in b; }
    }
    if Contains(Lower(s), "/apply") { ContainedCharacters(Lower(s), "/apply", 5); }
    if Contains(Lower(s), "/source-write") { ContainedCharacters(Lower(s), "/source-write", 8); }
    if Contains(Lower(s), "/commit") {
      var k := ContainsPair(Lower(s), "/commit", 3);
    }
  }

  lemma RootIsQuiet()
    ensures Quiet("/api/v1/operational" + "-core/coding-")
  {
    assert Quiet("/api/v1/operational") && Quiet("-core/coding-");
  }

  lemma TailIsQuiet(at: Endpoint)
    ensures Quiet("odel" + Tail(at))
  {
  }

  lemma PathAppliesNothing(at: Endpoint)
    ensures !AppliesSource(PathOf(at))
  {
    hide Quiet, AppliesSource, Tail;
    RootIsQuiet();
    TailIsQuiet(at);
    QuietAppliesNothing("/api/v1/operational" + "-core/coding-", "odel" + Tail(at));
  }

  /* ---------- A document that describes the three posts as empty objects ---------- */

  function One(key: string, value: Json): Json { Obj(Field(key, value, NoFields)) }

  function EmptyObject(): Json { One("type", Str("object")) }

  function Operation(): Json {
    One("post", One("requestBody", One("content", One("application/json", One("schema", EmptyObject())))))
  }

  /** An object from its fields. */
  function Pairs(fields: seq<(string, Json)>): Fields {
    if fields == [] then NoFields else Field(fields[0].0, fields[0].1, Pairs(fields[1..]))
  }

  function SomeDocument(): Json {
    One("paths", Obj(Pairs([(PathOf(Settings), Operation()), (PathOf(Probe), Operation()), (PathOf(Generate), Operation())])))
  }

  lemma MemberOfOne(key: string, value: Json)
    ensures Member(One(key, value), key) == value
  {
  }

  lemma {:induction false} KeyOfPairs(fields: seq<(string, Json)>, key: string, value: Json)
    requires forall i :: 0 <= i < |fields| ==> fields[i].1 == value
    ensures Has(Pairs(fields), key) <==> exists i :: 0 <= i < |fields| && fields[i].0 == key
    ensures Has(Pairs(fields), key) ==> Get(Pairs(fields), key) == Some(value)
  {
    if fields != [] {
      KeyOfPairs(fields[1..], key, value);
      assert forall i :: 1 <= i < |fields| ==> fields[i] == fields[1..][i - 1];
      if Has(Pairs(fields[1..]), key) {
        var i :| 0 <= i < |fields[1..]| && fields[1..][i].0 == key;
        assert fields[i + 1].0 == key;
      }
    }
  }

  lemma PostsEmptyObjects(at: Endpoint)
    requires at == Settings || at == Probe || at == Generate
    ensures PostSchema(SomeDocument(), PathOf(at)) == EmptyObject()
  {
    hide PathOf, One, EmptyObject, Get, Keys, Pairs, Has;
    var fields := [(PathOf(Settings), Operation()), (PathOf(Probe), Operation()), (PathOf(Generate), Operation())];
    KeyOfPairs(fields, PathOf(at), Operation());
    assert fields[0].0 == PathOf(Settings) && fields[1].0 == PathOf(Probe) && fields[2].0 == PathOf(Generate);
    MemberOfOne("paths", Obj(Pairs(fields)));
    MemberOfOne("post", One("requestBody", One("content", One("application/json", One("schema", EmptyObject())))));
    MemberOfOne("requestBody", One("content", One("application/json", One("schema", EmptyObject()))));
    MemberOfOne("content", One("application/json", One("schema", EmptyObject())));
    MemberOfOne("application/json", One("schema", EmptyObject()));
    MemberOfOne("schema", EmptyObject());
  }

  lemma DocumentAppliesNothing()
    ensures NoApplyPath(SomeDocument())
  {
    hide PathOf, AppliesSource, Operation, One, Member, Pairs, Has;
    var fields := [(PathOf(Settings), Operation()), (PathOf(Probe), Operation()), (PathOf(Generate), Operation())];
    MemberOfOne("paths", Obj(Pairs(fields)));
    forall path | path in Keys(Pairs(fields)) ensures !AppliesSource(path) {
      KeyOfPairs(fields, path, Operation());
      PathAppliesNothing(Settings);
      PathAppliesNothing(Probe);
      PathAppliesNothing(Generate);
    }
  }

  lemma EmptyObjectResolves(doc: Components)
    ensures EmptyObject().Obj? && EmptyObject().fields != NoFields
    ensures Resolve(EmptyObject(), doc, {}) == EmptyObject().fields
    ensures TypeOf(EmptyObject().fields) == Str("object") && GetOr(EmptyObject().fields, "type", Null) == Str("object")
    ensures PropertiesOf(EmptyObject().fields) == NoFields
  {
  }

  lemma EmptyObjectIsBuilt(values: Values, doc: Components, depth: nat)
    requires depth > 0
    ensures Resolved(BuildBody(EmptyObject(), values, doc, depth))
  {
    EmptyObjectResolves(doc);
    hide EmptyObject, Resolve, TypeOf, PropertiesOf, RequiredOf, NullKeys, Without;
    assert Fill(NoFields, RequiredOf(EmptyObject().fields), values, doc, "$", depth - 1, Filled(NoFields, []))
           == Some(Filled(NoFields, []));
  }

  lemma AbsentIsNull(key: string, doc: Components)
    ensures GetOr(NoFields, key, Null) == Null && Resolve(GetOr(NoFields, key, Null), doc, {}) == NoFields
  {
  }

  lemma NothingIsLimited(reader: Reader, args: Args)
    requires Authorised(args)
    ensures WithinLimits(reader, args, SomeDocument(), PathOf(Settings))
  {
    hide PathOf, SomeDocument, EmptyObject, Authorised, PostSchema, ComponentsOf, Resolve, GetOr;
    var doc := ComponentsOf(SomeDocument());
    PostsEmptyObjects(Settings);
    EmptyObjectResolves(doc);
    AbsentIsNull("properties", doc);
    AbsentIsNull("settings", doc);
    AbsentIsNull("timeout_seconds", doc);
    AbsentIsNull("max_output_tokens", doc);
    AbsentIsNull("temperature", doc);
    AbsentIsNull("maximum", doc);
    AbsentIsNull("minimum", doc);
  }

  /* ---------- Replies that prove everything ---------- */

  lemma {:induction false} PairIsFound(fields: seq<(string, Json)>, i: nat, patterns: seq<string>)
    requires i < |fields| && Matches(fields[i].0, patterns)
    ensures fields[i].1 in Find(Obj(Pairs(fields)), patterns)
  {
    hide Matches;
    if i > 0 { PairIsFound(fields[1..], i - 1, patterns); }
  }

  lemma {:induction false} PairIsMentioned(fields: seq<(string, Json)>, i: nat, word: string)
    requires i < |fields| && Mentions(fields[i].1, word)
    ensures Mentions(Obj(Pairs(fields)), word)
  {
    hide Says;
    if i > 0 { PairIsMentioned(fields[1..], i - 1, word); }
  }

  lemma {:induction false} SmallLettersStay(s: string)
    requires forall c :: c in s ==> 'a' <= c <= 'z'
    ensures NormalizeKey(s) == s
  {
    if s != "" {
      assert s[0] in s && forall c :: c in s[1..] ==> c in s;
      SmallLettersStay(s[1..]);
      assert s == [s[0]] + s[1..];
    }
  }

  lemma MatchesItself(key: string, patterns: seq<string>)
    requires key in patterns && forall c :: c in key ==> 'a' <= c <= 'z'
    ensures Matches(key, patterns)
  {
    SmallLettersStay(key);
    assert Contains(NormalizeKey(key), key);
  }

  lemma PlainMentionsItself(word: string)
    requires Plain(word)
    ensures Mentions(Str(word), word)
  {
    hide Says, Plain;
    SaysItself(word, word);
  }

  function ProbeFields(): seq<(string, Json)> {
    [("result", Bool(true)), ("loopbackonly", Bool(true)), ("secretvaluereturned", Bool(false)), ("provider", Str("openai_compatible"))]
  }

  lemma FalseDenies(j: Json)
    requires j == Bool(false)
    ensures Denies(j)
  {
    hide Trim, Upper;
  }

  lemma ProbeKeysMatch(patterns: seq<string>)
    ensures "result" in patterns ==> Matches("result", patterns)
    ensures "loopbackonly" in patterns ==> Matches("loopbackonly", patterns)
    ensures "secretvaluereturned" in patterns ==> Matches("secretvaluereturned", patterns)
  {
    hide Matches;
    if "result" in patterns { MatchesItself("result", patterns); }
    if "loopbackonly" in patterns { MatchesItself("loopbackonly", patterns); }
    if "secretvaluereturned" in patterns { MatchesItself("secretvaluereturned", patterns); }
  }

  lemma ProbeReplyProves()
    ensures ProbeProven(OpenaiCompatible, Obj(Pairs(ProbeFields())))
  {
    hide Matches, Find, Positive, Denies, Mentions, Pairs, Plain;
    var first, second, third := ["result", "success", "status", "probe", "reachable", "healthy"], ["loopbackonly"], ["secretvaluereturned"];
    ProbeKeysMatch(first);
    ProbeKeysMatch(second);
    ProbeKeysMatch(third);
    PairIsFound(ProbeFields(), 0, first);
    PairIsFound(ProbeFields(), 1, second);
    PairIsFound(ProbeFields(), 2, third);
    TrueIsPositive(Bool(true));
    FalseDenies(Bool(false));
    ProviderIsPlain();
    PlainMentionsItself("openai_compatible");
    PairIsMentioned(ProbeFields(), 3, "openai_compatible");
  }

  lemma ProviderIsPlain()
    ensures Plain("openai_compatible")
  {
  }

  function GenerationFields(model: string): seq<(string, Json)> {
    [("candidateid", Str("c")), ("astsafety", Bool(true)), ("tests", Bool(true)), ("diff", Null),
     ("prompt", Str(Text(PromptVersion))), ("model", Str(model)), ("state", Str(Text(ApplyIsBlocked))),
     ("review", Str(Text(ReviewIsRequired)))]
  }

  lemma GenerationKeysMatch()
    ensures Matches("candidateid", Patterns(Candidate)) && Matches("astsafety", Patterns(AstSafety))
    ensures Matches("tests", Patterns(ArgvTests)) && Matches("diff", Patterns(UnifiedDiff))
  {
    hide Matches;
    MatchesItself("candidateid", Patterns(Candidate));
    MatchesItself("astsafety", Patterns(AstSafety));
    MatchesItself("tests", Patterns(ArgvTests));
    MatchesItself("diff", Patterns(UnifiedDiff));
  }

  lemma GenerationReplyShows(model: string)
    ensures var reply := Obj(Pairs(GenerationFields(model)));
            && AnyPass(reply, Patterns(AstSafety)) && AnyPass(reply, Patterns(ArgvTests)) && Find(reply, Patterns(UnifiedDiff)) != []
  {
    hide Matches, Find, Positive, Patterns, Pairs, Text;
    GenerationKeysMatch();
    PairIsFound(GenerationFields(model), 1, Patterns(AstSafety));
    PairIsFound(GenerationFields(model), 2, Patterns(ArgvTests));
    PairIsFound(GenerationFields(model), 3, Patterns(UnifiedDiff));
    TrueIsPositive(Bool(true));
  }

  lemma PhrasesArePlain()
    ensures Plain(Text(ApplyIsBlocked)) && Plain(Text(ReviewIsRequired))
  {
  }

  lemma PlainOfTwo(a: string, b: string)
    requires Plain(a) && Plain(b)
    ensures Plain(a + b)
  {
  }

  lemma PromptStartsPlain()
    ensures Plain("PALWAKF_LOCAL_AGENTS" + "_GOVERNED_MODEL")
  {
  }

  lemma PromptEndsPlain()
    ensures Plain("_TIMEOUT_RETRY") && Plain("_PROMPT_V1")
  {
  }

  lemma PromptIsPlain()
    ensures Plain(Text(PromptVersion))
  {
    hide Plain;
    PromptStartsPlain();
    PromptEndsPlain();
    PlainOfTwo("PALWAKF_LOCAL_AGENTS" + "_GOVERNED_MODEL", "_TIMEOUT_RETRY");
    PlainOfTwo("PALWAKF_LOCAL_AGENTS" + "_GOVERNED_MODEL" + "_TIMEOUT_RETRY", "_PROMPT_V1");
  }

  lemma ModelIsPlain(args: Args)
    requires Authorised(args)
    ensures Plain(args.model)
  {
  }

  lemma GenerationReplyMentions(args: Args)
    requires Authorised(args)
    ensures var reply := Obj(Pairs(GenerationFields(args.model)));
            && Mentions(reply, Text(PromptVersion)) && Mentions(reply, args.model)
            && Mentions(reply, Text(ApplyIsBlocked)) && Mentions(reply, Text(ReviewIsRequired))
  {
    hide Mentions, Pairs, Text, Plain, Authorised;
    PromptIsPlain();
    PhrasesArePlain();
    ModelIsPlain(args);
    PlainMentionsItself(Text(PromptVersion));
    PlainMentionsItself(args.model);
    PlainMentionsItself(Text(ApplyIsBlocked));
    PlainMentionsItself(Text(ReviewIsRequired));
    PairIsMentioned(GenerationFields(args.model), 4, Text(PromptVersion));
    PairIsMentioned(GenerationFields(args.model), 5, args.model);
    PairIsMentioned(GenerationFields(args.model), 6, Text(ApplyIsBlocked));
    PairIsMentioned(GenerationFields(args.model), 7, Text(ReviewIsRequired));
  }

  lemma GenerationReplyNames(model: string)
    ensures CandidateId(Obj(Pairs(GenerationFields(model)))).Some? && CandidateId(Null) == None
  {
    hide Matches, Text, Patterns, Find, FindInFields;
    GenerationKeysMatch();
    var rest := Pairs(GenerationFields(model)[1..]);
    FoundFirst("candidateid", "c", rest, Patterns(Candidate));
    NothingIsNamed();
    assert Pairs(GenerationFields(model)) == Field("candidateid", Str("c"), rest);
    assert Trim("c") == "c";
    FirstTextOfTwo([Str("c")], FindInFields(rest, Patterns(Candidate)));
  }

  lemma FoundFirst(key: string, s: string, rest: Fields, patterns: seq<string>)
    requires Matches(key, patterns)
    ensures Find(Obj(Field(key, Str(s), rest)), patterns) == [Str(s)] + FindInFields(rest, patterns)
  {
    hide Matches;
    assert Find(Str(s), patterns) == [];
  }

  lemma NothingIsNamed()
    ensures CandidateId(Null) == None
  {
  }

  lemma GenerationReplyProves(args: Args)
    requires Authorised(args)
    ensures var reply := Obj(Pairs(GenerationFields(args.model)));
            GatesOf(args.model, reply, Null, Null).All() && NewCandidate(Null, reply, Null, Null)
  {
    hide Find, AnyPass, AnyFalse, CandidateId, Combine, Patterns, Mentions, Text, GatesOf, Pairs, Authorised, GenerationFields;
    GenerationReplyShows(args.model);
    GenerationReplyMentions(args);
    GenerationReplyNames(args.model);
    GatesAreExistential(args, Obj(Pairs(GenerationFields(args.model))), Null, Null);
    CandidateOfCombined(Obj(Pairs(GenerationFields(args.model))), Null, Null);
  }

  /* ---------- The run ---------- */

  function SomeArgs(): Args { Args(true, OpenaiCompatible, "http://127.0.0.1:11434", "qwen2.5:3b", 180, 1200, 0.0) }

  function Source(): Snapshot { map["backend/src/app.py" := Sha256("source")] }

  function Answer(payload: Json): Reply { Http(200, payload) }

  /** The document and six more reads, the settings among them null, the write of the settings, the probe, the generation,
      and whatever is asked after that. */
  function ReplyTo(i: nat): Reply {
    Answer(if i == 0 then SomeDocument() else if i == 8 then Obj(Pairs(ProbeFields()))
           else if i == 9 then Obj(Pairs(GenerationFields(SomeArgs().model))) else Null)
  }

  /** What the run does not depend on: the known values, how texts read as numbers, and the recursion left beyond one. */
  datatype Rest = Rest(values: Values, reader: Reader, deeper: nat)

  function NullSettingsEnv(rest: Rest): Env {
    Env(SomeArgs(), PathOf, rest.reader, Some(Source()), Some(Source()), seq(30, i requires 0 <= i < 30 => ReplyTo(i)),
        rest.values, rest.deeper + 1)
  }

  lemma EnvIs(rest: Rest)
    ensures var env := NullSettingsEnv(rest);
            && env.args == SomeArgs() && env.args.live && !UsesOllama(env) && (forall at :: env.paths(at) == PathOf(at))
            && env.before == Some(Source()) && env.after == Some(Source()) && env.depth > 0
            && (forall i: nat :: i < 30 ==> ReplyAt(env, i) == ReplyTo(i))
  {
    hide PathOf, Source, ReplyTo;
  }

  lemma ArgsAreAuthorised()
    ensures Authorised(SomeArgs())
  {
  }

  lemma SourceStays(rest: Rest)
    ensures SourceUnchanged(NullSettingsEnv(rest)) && Source() != map[]
  {
    hide NullSettingsEnv;
    EnvIs(rest);
    assert "backend/src/app.py" in Source();
  }

  lemma AsksStep(script: seq<Action>, j: nat)
    requires j < |script|
    ensures |Asks(script[..j + 1])| == |Asks(script[..j])| + if script[j].Ask? then 1 else 0
  {
    assert script[..j + 1][..j] == script[..j];
  }

  lemma {:induction false} AsksAtMost(script: seq<Action>)
    ensures |Asks(script)| <= |script|
  {
    if script != [] { AsksAtMost(script[..|script| - 1]); }
  }

  lemma PreparationShape(env: Env)
    requires !UsesOllama(env)
    ensures var script := Preparation(env);
            && |script| == 11 && script[0].Check? && script[1].Ask? && script[2].Check? && script[3].Check?
            && (forall j :: 4 <= j < 10 ==> script[j].Ask?) && script[10].Check?
            && (forall j :: 0 <= j < 11 && script[j].Ask? && j != 1 ==> script[j].wanted != Ok200Object)
  {
    hide UsesOllama;
  }

  lemma SevenReads(env: Env)
    requires !UsesOllama(env)
    ensures |Asks(Preparation(env))| == 7
  {
    hide *;
    PreparationShape(env);
    var script := Preparation(env);
    AsksAtMost(script[..0]);
    AsksStep(script, 0);
    AsksStep(script, 1);
    AsksStep(script, 2);
    AsksStep(script, 3);
    AsksStep(script, 4);
    AsksStep(script, 5);
    AsksStep(script, 6);
    AsksStep(script, 7);
    AsksStep(script, 8);
    AsksStep(script, 9);
    AsksStep(script, 10);
    assert script[..11] == script;
  }

  /** The settings it reads are null, and so are the candidates; the settings must be written. */
  lemma KnownIsNull(rest: Rest)
    ensures var env := NullSettingsEnv(rest); KnownOf(env) == Known(SomeDocument(), Null, Null) && MustEnable(env)
  {
    hide Preparation, Exchanges, SomeDocument, NullSettingsEnv, ReplyAt, SomeArgs, AlreadyMatched, Pairs, PathOf;
    var env := NullSettingsEnv(rest);
    EnvIs(rest);
    SevenReads(env);
    ExchangesAsk(env, [], Preparation(env));
    var trace := Exchanges(env, [], Preparation(env));
    assert |Requests(trace)| == 7;
    ReplyInTurn(env, Preparation(env), 0);
    ReplyInTurn(env, Preparation(env), 4);
    ReplyInTurn(env, Preparation(env), 6);
    NullIsNotMatched(env);
  }

  lemma NullIsNotMatched(env: Env)
    ensures !AlreadyMatched(env, Null)
  {
    assert Objects(Null) == [];
    assert DeepFindSettings(Null) == NoFields;
    assert Objects(Obj(NoFields)) == [NoFields] by { assert ObjectsInFields(NoFields) == []; }
    SearchOne(Best(NoFields, -1), NoFields);
    assert DeepFindSettings(Obj(NoFields)) == NoFields;
    assert Direct(NoFields, map[]) == map[];
    hide DeepFindSettings, Direct, ProviderName;
    assert FirstOf(map[], ["model", "modelname"]) == Null;
  }

  lemma EightBeforeTheProbe(rest: Rest)
    ensures |Asks(UpToEnable(NullSettingsEnv(rest)))| == 8 && |Plan(NullSettingsEnv(rest))| == 19
  {
    hide Preparation, NullSettingsEnv, KnownOf, MustEnable, BodyFor, Posting, Asks;
    var env := NullSettingsEnv(rest);
    EnvIs(rest);
    KnownIsNull(rest);
    EnableAsks(env);
    PreparationShape(env);
    SevenReads(env);
    AsksOfTwo(Preparation(env), Enable(env, KnownOf(env)));
  }

  lemma PostsWanted(env: Env, known: Known)
    ensures forall a :: a in Enable(env, known) + Generation(env, known) && a.Ask? ==> a.wanted != Ok200Object
  {
    hide BodyFor, Posting;
    PostingAsks(Settings, BodyFor(env, known.openapi, Settings));
    PostingAsks(Probe, BodyFor(env, known.openapi, Probe));
    PostingAsks(Generate, BodyFor(env, known.openapi, Generate));
  }

  lemma WantedInPlan(env: Env, j: nat)
    requires !UsesOllama(env) && j < |Plan(env)|
    ensures Plan(env)[0].Check? && (Plan(env)[j].Ask? && j != 1 ==> Plan(env)[j].wanted != Ok200Object)
  {
    hide Preparation, KnownOf, Enable, Generation, MustEnable;
    PreparationShape(env);
    PostsWanted(env, KnownOf(env));
    var prep, known, a := Preparation(env), KnownOf(env), Plan(env)[j];
    if j < |prep| {
      assert a == prep[j];
    } else {
      assert a in Enable(env, known) || a in Generation(env, known);
      assert a in Enable(env, known) + Generation(env, known);
    }
  }

  lemma AnswerMeets(i: nat, wanted: Wanted)
    requires wanted == Ok200Object ==> i == 0
    ensures Meets(ReplyTo(i), wanted)
  {
    hide PathOf, Pairs, Operation, SomeArgs, ProbeFields, GenerationFields;
  }

  lemma ReplyMeets(rest: Rest, j: nat)
    requires var plan := Plan(NullSettingsEnv(rest)); j < |plan| && plan[j].Ask?
    ensures var env := NullSettingsEnv(rest); Meets(ReplyAt(env, |Asks(Plan(env)[..j])|), Plan(env)[j].wanted)
  {
    hide *;
    var env := NullSettingsEnv(rest);
    var plan := Plan(env);
    EnvIs(rest);
    EightBeforeTheProbe(rest);
    AsksAtMost(plan[..j]);
    WantedInPlan(env, j);
    if j == 1 {
      AsksStep(plan, 0);
      AsksAtMost(plan[..0]);
    }
    AnswerMeets(|Asks(plan[..j])|, plan[j].wanted);
  }

  lemma AllRepliesMeet(rest: Rest)
    ensures RepliesMeet(NullSettingsEnv(rest))
  {
    hide NullSettingsEnv, Plan, Asks, ReplyAt, Meets;
    var plan := Plan(NullSettingsEnv(rest));
    forall j | 0 <= j < |plan| && plan[j].Ask?
      ensures Meets(ReplyAt(NullSettingsEnv(rest), |Asks(plan[..j])|), plan[j].wanted)
    {
      ReplyMeets(rest, j);
    }
  }

  lemma RunIsPrepared(rest: Rest)
    ensures Prepared(NullSettingsEnv(rest))
  {
    hide NullSettingsEnv, PathOf, WithinLimits, NoApplyPath, PostSchema, BuildBody, Resolved, ComponentsOf, UsesOllama, EmptyObject,
         ReplyAt, SomeDocument, SomeArgs, Source, Pairs, ProbeFields, GenerationFields;
    var env := NullSettingsEnv(rest);
    EnvIs(rest);
    ArgsAreAuthorised();
    SourceStays(rest);
    NothingIsLimited(env.reader, SomeArgs());
    DocumentAppliesNothing();
    PostsEmptyObjects(Settings);
    PostsEmptyObjects(Probe);
    PostsEmptyObjects(Generate);
    EmptyObjectIsBuilt(env.values, ComponentsOf(SomeDocument()), env.depth);
  }

  lemma RunIsProven(rest: Rest)
    ensures ProvenFrom(NullSettingsEnv(rest), 8)
  {
    hide NullSettingsEnv, KnownOf, ProbeFields, GenerationFields, ProbeProven, GatesOf, NewCandidate, ReplyAt, Pairs, SomeDocument;
    EnvIs(rest);
    KnownIsNull(rest);
    ArgsAreAuthorised();
    ProbeReplyProves();
    GenerationReplyProves(SomeArgs());
  }

  lemma NullIsNotDue(env: Env)
    requires KnownOf(env).original == Null
    ensures !RestoreDue(env)
  {
    hide KnownOf, WriteConfirmed;
  }

  /** PASS, exit code zero, and the settings written once: the run has left them changed. */
  lemma NullSettingsAreLeftChanged(rest: Rest)
    ensures var run := Run(NullSettingsEnv(rest));
            && run.result == Some(Pass) && run.exitsZero
            && Posts(Requests(run.trace), Settings) == 1
  {
    hide *;
    var env := NullSettingsEnv(rest);
    EnvIs(rest);
    SourceStays(rest);
    EightBeforeTheProbe(rest);
    AllRepliesMeet(rest);
    RunIsPrepared(rest);
    RunIsProven(rest);
    KnownIsNull(rest);
    CompletedIff(env);
    NullIsNotDue(env);
    LivePassIff(env);
    LiveExitZeroIff(env);
    TraceIs(env);
    SentFollowsThePlan(env);
    PlanPosts(env, Settings);
  }
}
