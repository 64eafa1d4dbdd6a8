/**
 The verdicts of the live probe on what was exchanged: which fields of a reply count, when they count as
 positive or negative, and what is concluded from them. Case and spaces are those of ASCII.
 */
module LiveProbeVerdicts {
  import opened Common
  import opened JsonValues
  import opened OpenapiSchema
  import opened RequestBody
  import opened ProbeSettings

  /* ---------- Texts ---------- */

  function UpperChar(c: char): char {
    if 'a' <= c <= 'z' then (c as int - 'a' as int + 'A' as int) as char else c
  }

  function LowerChar(c: char): char {
    if 'A' <= c <= 'Z' then (c as int - 'A' as int + 'a' as int) as char else c
  }

  function Upper(s: string): string {
    seq(|s|, i requires 0 <= i < |s| => UpperChar(s[i]))
  }

  function Lower(s: string): string {
    seq(|s|, i requires 0 <= i < |s| => LowerChar(s[i]))
  }

  predicate IsSpace(c: char) { c == ' ' || 9 <= c as int <= 13 || 28 <= c as int <= 31 }

  function TrimLeft(s: string): string {
    if s != "" && IsSpace(s[0]) then TrimLeft(s[1..]) else s
  }

  function TrimRight(s: string): string {
    if s != "" && IsSpace(s[|s| - 1]) then TrimRight(s[..|s| - 1]) else s
  }

  function Trim(s: string): string { TrimRight(TrimLeft(s)) }

  predicate Contains(s: string, p: string) {
    p <= s || (s != "" && Contains(s[1..], p))
  }

  predicate IsWordChar(c: char) { 'A' <= c <= 'Z' || '0' <= c <= '9' }

  /** The words of a text in capitals, after the letters of a word already begun. */
  function Words(s: string, begun: string): seq<string> {
    var ended := if begun == "" then [] else [begun];
    if s == "" then ended
    else if IsWordChar(s[0]) then Words(s[1..], begun + [s[0]])
    else ended + Words(s[1..], "")
  }

  predicate IsNegativeWord(w: string) {
    w in {"FAIL", "FAILED", "FALSE", "NO", "NOT", "BLOCKED", "ERROR", "DENIED", "REJECTED"}
  }

  predicate IsPositiveWord(w: string) { w in {"PASS", "PASSED", "SUCCESS", "OK", "TRUE"} }

  predicate IsDenial(s: string) { s in {"FALSE", "NONE", "NO", "BLOCKED"} }

  /** true, or a text with a positive word and no negative one. */
  predicate Positive(j: Json) {
    || j == Bool(true)
    || (j.Str? && var words := Words(Upper(j.s), "");
        && (forall w :: w in words ==> !IsNegativeWord(w))
        && exists w :: w in words && IsPositiveWord(w))
  }

  predicate Denies(j: Json) {
    j == Bool(false) || (j.Str? && IsDenial(Upper(Trim(j.s))))
  }

  /* ---------- Fields ---------- */

  predicate Matches(key: string, patterns: seq<string>) {
    exists p :: p in patterns && Contains(NormalizeKey(key), p)
  }

  /** The values under matching keys, at any depth, in document order. */
  function Find(j: Json, patterns: seq<string>): seq<Json> {
    match j
    case Obj(fields) => FindInFields(fields, patterns)
    case Arr(items) => FindInItems(items, patterns)
    case _ => []
  }

  function FindInFields(f: Fields, patterns: seq<string>): seq<Json> {
    if f.NoFields? then []
    else (if Matches(f.key, patterns) then [f.value] else []) + Find(f.value, patterns) + FindInFields(f.rest, patterns)
  }

  function FindInItems(items: Items, patterns: seq<string>): seq<Json> {
    if items.NoItems? then [] else Find(items.head, patterns) + FindInItems(items.tail, patterns)
  }

  predicate AnyPass(j: Json, patterns: seq<string>) {
    exists v :: v in Find(j, patterns) && Positive(v)
  }

  predicate AnyFalse(j: Json, patterns: seq<string>) {
    exists v :: v in Find(j, patterns) && Denies(v)
  }

  /** The first text among the values that is not blank. */
  function FirstText(values: seq<Json>): Option<string> {
    if values == [] then None
    else if values[0].Str? && Trim(values[0].s) != "" then Some(Trim(values[0].s))
    else FirstText(values[1..])
  }

  function CandidateId(j: Json): Option<string> { FirstText(Find(j, Patterns(Candidate))) }

  /* ---------- Mentions ---------- */

  function HexDigit(n: nat): char
    requires n < 16
  {
    if n < 10 then (n + '0' as int) as char else (n - 10 + 'a' as int) as char
  }

  /** A character as it stands in JSON text. */
  function EscapedChar(c: char): string {
    if c == '"' then ['\\', '"']
    else if c == '\\' then ['\\', '\\']
    else if c == '\n' then ['\\', 'n']
    else if c == '\r' then ['\\', 'r']
    else if c == '\t' then ['\\', 't']
    else if c as int == 8 then ['\\', 'b']
    else if c as int == 12 then ['\\', 'f']
    else if c as int < 32 then ['\\', 'u', '0', '0', HexDigit(c as int / 16), HexDigit(c as int % 16)]
    else [c]
  }

  function Escaped(s: string): string {
    if s == "" then "" else EscapedChar(s[0]) + Escaped(s[1..])
  }

  /** The JSON text of a string contains the word, whatever the case of either. */
  predicate Says(s: string, word: string) { Contains(Lower(Escaped(s)), Lower(word)) }

  /** The JSON text of a value mentions a word. The words looked for have a letter that is in none of the tokens true, false,
      null and the numbers, and no character that JSON puts between tokens: they stand in one key or one string. */
  predicate Mentions(j: Json, word: string) {
    match j
    case Str(s) => Says(s, word)
    case Obj(fields) => MentionsInFields(fields, word)
    case Arr(items) => MentionsInItems(items, word)
    case _ => false
  }

  predicate MentionsInFields(f: Fields, word: string) {
    f.Field? && (Says(f.key, word) || Mentions(f.value, word) || MentionsInFields(f.rest, word))
  }

  predicate MentionsInItems(items: Items, word: string) {
    items.Item? && (Mentions(items.head, word) || MentionsInItems(items.tail, word))
  }

  /* ---------- The gates ---------- */

  datatype Gates = Gates(
    structuredOutput: bool, astSafety: bool, directArgvTests: bool, unifiedDiff: bool, sourceApplyBlocked: bool,
    promptRecorded: bool, modelRecorded: bool, humanReview: bool)
  {
    predicate All() {
      && structuredOutput && astSafety && directArgvTests && unifiedDiff && sourceApplyBlocked
      && promptRecorded && modelRecorded && humanReview
    }
  }

  /** The phrases that count as evidence wherever they are. */
  datatype Phrase = PromptVersion | ApplyIsBlocked | NeedsSeparateAuthorization | ReviewIsRequired

  function Text(phrase: Phrase): string {
    match phrase
    case PromptVersion => "PALWAKF_LOCAL_AGENTS" + "_GOVERNED_MODEL" + "_TIMEOUT_RETRY" + "_PROMPT_V1"
    case ApplyIsBlocked => "source_apply_blocked"
    case NeedsSeparateAuthorization => "BLOCKED_REQUIRES_SEPARATE_CANDIDATE_AUTHORIZATION"
    case ReviewIsRequired => "HUMAN_REVIEW_REQUIRED"
  }

  /** The keys looked for, by what they tell. */
  datatype Topic = AstSafety | ArgvTests | UnifiedDiff | SourceApply | HumanReview | Candidate

  function Patterns(topic: Topic): seq<string> {
    match topic
    case AstSafety => ["astsafety", "astgate", "safetygate"]
    case ArgvTests => ["directargv", "tests", "testresult", "teststatus"]
    case UnifiedDiff => ["unifieddiff", "diff"]
    case SourceApply => ["sourceapply", "applyavailable", "applyallowed"]
    case HumanReview => ["humanreviewrequired"]
    case Candidate => ["candidateid"]
  }

  function PayloadKey(i: nat): string { if i == 0 then "payload_0" else if i == 1 then "payload_1" else "payload_2" }

  function Combine(generation: Json, runs: Json, candidates: Json): Json {
    Obj(Field(PayloadKey(0), generation, Field(PayloadKey(1), runs, Field(PayloadKey(2), candidates, NoFields))))
  }

  datatype Provider = Ollama | OpenaiCompatible

  function ProviderName(provider: Provider): string {
    match provider
    case Ollama => "ollama"
    case OpenaiCompatible => "openai_compatible"
  }

  /** The gates read off the generation reply and the two reads after it. */
  function GatesOf(model: string, generation: Json, runs: Json, candidates: Json): Gates {
    var all := Combine(generation, runs, candidates);
    Gates(generation.Obj? || generation.Arr?,
          AnyPass(all, Patterns(AstSafety)),
          AnyPass(all, Patterns(ArgvTests)),
          Find(all, Patterns(UnifiedDiff)) != [],
          || AnyFalse(all, Patterns(SourceApply))
          || Mentions(all, Text(ApplyIsBlocked))
          || Mentions(all, Text(NeedsSeparateAuthorization)),
          Mentions(all, Text(PromptVersion)),
          Mentions(all, model),
          Mentions(all, Text(ReviewIsRequired)) || AnyPass(all, Patterns(HumanReview)))
  }

  /** A candidate is recorded, and it is not the one there was. */
  predicate NewCandidate(before: Json, generation: Json, runs: Json, candidates: Json) {
    var id := CandidateId(Combine(generation, runs, candidates));
    id.Some? && id != CandidateId(before)
  }

  predicate ProbeProven(provider: Provider, reply: Json) {
    && AnyPass(reply, ["result", "success", "status", "probe", "reachable", "healthy"])
    && AnyPass(reply, ["loopbackonly"])
    && Mentions(reply, ProviderName(provider))
    && AnyFalse(reply, ["secretvaluereturned"])
  }

  /* ---------- The OpenAPI document and the model inventory ---------- */

  function Member(j: Json, key: string): Json { GetOr(FieldsOf(j), key, Null) }

  function ComponentsOf(openapi: Json): Components {
    var schemas := FieldsOf(Member(Member(openapi, "components"), "schemas"));
    map k | k in Keys(schemas) :: Get(schemas, k).value
  }

  /** The schema of what may be posted at a path. */
  function PostSchema(openapi: Json, path: string): Json {
    var operation := Member(Member(Member(openapi, "paths"), path), "post");
    Member(Member(Member(Member(operation, "requestBody"), "content"), "application/json"), "schema")
  }

  predicate AppliesSource(path: string) {
    && Contains(path, "/coding-model/")
    && (Contains(Lower(path), "/apply") || Contains(Lower(path), "/commit") || Contains(Lower(path), "/source-write"))
  }

  predicate NoApplyPath(openapi: Json) {
    forall path :: path in Keys(FieldsOf(Member(openapi, "paths"))) ==> !AppliesSource(path)
  }

  /** The number that a text reads as, if it is one. */
  type Reader = string -> Option<real>

  /** The number that a limit in a schema stands for. */
  function Number(reader: Reader, j: Json): Option<real> {
    match j
    case Num(n) => Some(n)
    case Bool(b) => Some(if b then 1.0 else 0.0)
    case Str(s) => reader(s)
    case _ => None
  }

  predicate AtMost(reader: Reader, value: real, limit: Json) {
    limit == Null || (Number(reader, limit).Some? && value <= Number(reader, limit).value)
  }

  predicate AtLeast(reader: Reader, value: real, limit: Json) {
    limit == Null || (Number(reader, limit).Some? && Number(reader, limit).value <= value)
  }

  /** What the operator asks for. */
  datatype Args = Args(
    live: bool, provider: Provider, baseUrl: string, model: string, timeoutSeconds: int, maxOutput: int, temperature: real)

  predicate Authorised(args: Args) {
    args.model == "qwen2.5:3b" && args.timeoutSeconds == 180 && args.maxOutput == 1200 && args.temperature == 0.0
  }

  /** The arguments are the authorised ones, and the limits in the document allow them. */
  predicate WithinLimits(reader: Reader, args: Args, openapi: Json, settingsPath: string) {
    var doc := ComponentsOf(openapi);
    var body := Resolve(PostSchema(openapi, settingsPath), doc, {});
    var settings := PropertiesOf(Resolve(GetOr(PropertiesOf(body), "settings", Null), doc, {}));
    && Authorised(args)
    && AtMost(reader, args.timeoutSeconds as real, GetOr(Resolve(GetOr(settings, "timeout_seconds", Null), doc, {}), "maximum", Null))
    && AtMost(reader, args.maxOutput as real, GetOr(Resolve(GetOr(settings, "max_output_tokens", Null), doc, {}), "maximum", Null))
    && AtLeast(reader, args.temperature, GetOr(Resolve(GetOr(settings, "temperature", Null), doc, {}), "minimum", Null))
  }

  /** A name as text; what is no text never names the authorised model. */
  function NameText(j: Json): string { if j.Str? then Trim(j.s) else "" }

  predicate Names(row: Json, model: string) {
    && row.Obj?
    && (|| NameText(if Truthy(Member(row, "name")) then Member(row, "name") else Member(row, "model")) == model
        || NameText(Member(row, "model")) == model)
  }

  /** The last row of the inventory that names the model. */
  function SelectedRow(rows: Items, model: string, found: Option<Json>): Option<Json> {
    match rows
    case NoItems => found
    case Item(head, tail) => SelectedRow(tail, model, if Names(head, model) then Some(head) else found)
  }

  predicate Lists(items: Items, j: Json) {
    items.Item? && (items.head == j || Lists(items.tail, j))
  }

  /** The model is in the inventory, and its last row is local and able to complete. */
  predicate LocalModel(model: string, tags: Json) {
    && Member(tags, "models").Arr?
    && var row := SelectedRow(Member(tags, "models").items, model, None);
    && row.Some?
    && !Truthy(Member(row.value, "remote_host")) && !Truthy(Member(row.value, "remote_model"))
    && var abilities := Member(row.value, "capabilities");
       (abilities.Arr? && abilities.items.Item? ==> Lists(abilities.items, Str("completion")))
  }

  /* ---------- What the verdicts mean ---------- */

  /** The object itself has the value under a matching key. */
  predicate Shows(f: Fields, patterns: seq<string>, v: Json) {
    f.Field? && ((Matches(f.key, patterns) && f.value == v) || Shows(f.rest, patterns, v))
  }

  /** Exactly the values that some object of the document, however deep, has under a matching key are found. */
  lemma {:induction false} FoundIffShown(j: Json, patterns: seq<string>, v: Json)
    ensures v in Find(j, patterns) <==> exists f :: f in Objects(j) && Shows(f, patterns, v)
    decreases j, 0
  {
    hide Matches;
    match j
    case Obj(fields) =>
      FoundInFieldsIffShown(fields, patterns, v);
      assert Objects(j)[0] == fields;
      if f :| f in ObjectsInFields(fields) && Shows(f, patterns, v) { assert f in Objects(j); }
    case Arr(items) => FoundInItemsIffShown(items, patterns, v);
    case _ =>
  }

  lemma {:induction false} FoundInFieldsIffShown(fields: Fields, patterns: seq<string>, v: Json)
    ensures v in FindInFields(fields, patterns) <==>
            Shows(fields, patterns, v) || exists f :: f in ObjectsInFields(fields) && Shows(f, patterns, v)
    decreases fields, 0
  {
    hide Matches;
    if fields.Field? {
      FoundIffShown(fields.value, patterns, v);
      FoundInFieldsIffShown(fields.rest, patterns, v);
      forall f ensures f in ObjectsInFields(fields) <==> f in Objects(fields.value) || f in ObjectsInFields(fields.rest) {}
    }
  }

  lemma {:induction false} FoundInItemsIffShown(items: Items, patterns: seq<string>, v: Json)
    ensures v in FindInItems(items, patterns) <==> exists f :: f in ObjectsInItems(items) && Shows(f, patterns, v)
    decreases items, 0
  {
    hide Matches;
    if items.Item? {
      FoundIffShown(items.head, patterns, v);
      FoundInItemsIffShown(items.tail, patterns, v);
      forall f ensures f in ObjectsInItems(items) <==> f in Objects(items.head) || f in ObjectsInItems(items.tail) {}
    }
  }

  /** None of the patterns is in the keys that Combine adds. */
  predicate Foreign(patterns: seq<string>) {
    !Matches(PayloadKey(0), patterns) && !Matches(PayloadKey(1), patterns) && !Matches(PayloadKey(2), patterns)
  }

  lemma FindPastKey(key: string, v: Json, rest: Fields, patterns: seq<string>)
    requires !Matches(key, patterns)
    ensures FindInFields(Field(key, v, rest), patterns) == Find(v, patterns) + FindInFields(rest, patterns)
  {
    hide Matches;
  }

  lemma FindOfObject(f: Fields, patterns: seq<string>)
    ensures Find(Obj(f), patterns) == FindInFields(f, patterns) && FindInFields(NoFields, patterns) == []
  {
    hide Matches;
  }

  lemma FindInCombined(patterns: seq<string>, a: Json, b: Json, c: Json)
    requires Foreign(patterns)
    ensures Find(Combine(a, b, c), patterns) == Find(a, patterns) + Find(b, patterns) + Find(c, patterns)
  {
    hide Matches, PayloadKey, Find, FindInFields;
    var f2 := Field(PayloadKey(2), c, NoFields);
    var f1 := Field(PayloadKey(1), b, f2);
    FindPastKey(PayloadKey(2), c, NoFields, patterns);
    FindPastKey(PayloadKey(1), b, f2, patterns);
    FindPastKey(PayloadKey(0), a, f1, patterns);
    FindOfObject(Field(PayloadKey(0), a, f1), patterns);
  }

  lemma AnyPassInCombined(patterns: seq<string>, a: Json, b: Json, c: Json)
    requires Foreign(patterns)
    ensures AnyPass(Combine(a, b, c), patterns) <==> AnyPass(a, patterns) || AnyPass(b, patterns) || AnyPass(c, patterns)
  {
    hide Find, Positive, Foreign, Combine;
    FindInCombined(patterns, a, b, c);
    forall v
      ensures v in Find(Combine(a, b, c), patterns) <==> v in Find(a, patterns) || v in Find(b, patterns) || v in Find(c, patterns)
    {
    }
  }

  lemma {:induction false} ContainedCharacters(s: string, p: string, i: nat)
    requires Contains(s, p) && i < |p|
    ensures p[i] in s
  {
    if p <= s { assert s[i] == p[i]; } else { ContainedCharacters(s[1..], p, i); }
  }

  predicate IsKeyCharacter(c: char) { c in {'p', 'a', 'y', 'l', 'o', 'd', '_', '0', '1', '2'} }

  lemma PayloadKeyCharacters(k: nat)
    ensures forall c :: c in PayloadKey(k) ==> IsKeyCharacter(c)
  {
  }

  lemma {:induction false} NormalizeKeeps(s: string)
    requires forall c :: c in s ==> IsKeyCharacter(c)
    ensures forall c :: c in NormalizeKey(s) ==> IsKeyCharacter(c)
  {
    if s != "" {
      NormalizeKeeps(s[1..]);
      assert s[0] in s && IsKeyCharacter(s[0]);
      assert !('A' <= s[0] <= 'Z');
      var head := if 'a' <= s[0] <= 'z' || '0' <= s[0] <= '9' then [s[0]] else "";
      assert NormalizeKey(s) == head + NormalizeKey(s[1..]);
      forall c | c in NormalizeKey(s) ensures IsKeyCharacter(c) { assert c in head || c in NormalizeKey(s[1..]); }
    }
  }

  /** A pattern with a letter that is not in any of the added keys is foreign to them. */
  lemma ForeignLetter(p: string, i: nat)
    requires i < |p| && !IsKeyCharacter(p[i])
    ensures forall k: nat :: !Contains(NormalizeKey(PayloadKey(k)), p)
  {
    hide IsKeyCharacter, PayloadKey, NormalizeKey, Contains;
    forall k: nat ensures !Contains(NormalizeKey(PayloadKey(k)), p) {
      PayloadKeyCharacters(k);
      NormalizeKeeps(PayloadKey(k));
      if Contains(NormalizeKey(PayloadKey(k)), p) { ContainedCharacters(NormalizeKey(PayloadKey(k)), p, i); }
    }
  }

  lemma StatusPatternsAreForeign()
    ensures Foreign(Patterns(AstSafety)) && Foreign(Patterns(ArgvTests))
  {
    hide Contains, NormalizeKey, PayloadKey;
    ForeignLetter("astsafety", 1);
    ForeignLetter("astgate", 1);
    ForeignLetter("safetygate", 0);
    ForeignLetter("directargv", 1);
    ForeignLetter("tests", 0);
    ForeignLetter("testresult", 0);
    ForeignLetter("teststatus", 0);
  }

  lemma OtherPatternsAreForeign()
    ensures Foreign(Patterns(UnifiedDiff)) && Foreign(Patterns(SourceApply))
    ensures Foreign(Patterns(HumanReview)) && Foreign(Patterns(Candidate))
  {
    hide Contains, NormalizeKey, PayloadKey;
    ForeignLetter("unifieddiff", 0);
    ForeignLetter("diff", 1);
    ForeignLetter("sourceapply", 0);
    ForeignLetter("applyavailable", 6);
    ForeignLetter("applyallowed", 9);
    ForeignLetter("humanreviewrequired", 0);
    ForeignLetter("candidateid", 0);
  }

  /** One of the three replies alone has a positive field on the topic, or any field at all. */
  predicate OnePasses(topic: Topic, generation: Json, runs: Json, candidates: Json) {
    AnyPass(generation, Patterns(topic)) || AnyPass(runs, Patterns(topic)) || AnyPass(candidates, Patterns(topic))
  }

  predicate OneShows(topic: Topic, generation: Json, runs: Json, candidates: Json) {
    Find(generation, Patterns(topic)) != [] || Find(runs, Patterns(topic)) != [] || Find(candidates, Patterns(topic)) != []
  }

  predicate OneDenies(topic: Topic, generation: Json, runs: Json, candidates: Json) {
    AnyFalse(generation, Patterns(topic)) || AnyFalse(runs, Patterns(topic)) || AnyFalse(candidates, Patterns(topic))
  }

  predicate OneMentions(word: string, generation: Json, runs: Json, candidates: Json) {
    Mentions(generation, word) || Mentions(runs, word) || Mentions(candidates, word)
  }

  /** A character that stands for itself in JSON text. */
  predicate IsPlain(c: char) { 32 <= c as int && c != '"' && c != '\\' }

  predicate Plain(s: string) { forall c :: c in s ==> IsPlain(c) }

  lemma {:induction false} PlainEscapes(s: string)
    requires Plain(s)
    ensures Escaped(s) == s
  {
    if s != "" {
      assert s[0] in s;
      PlainEscapes(s[1..]);
    }
  }

  /** A plain text says itself, in any case. */
  lemma SaysItself(s: string, word: string)
    requires Plain(s) && Lower(s) == Lower(word)
    ensures Says(s, word)
  {
    PlainEscapes(s);
  }

  lemma {:induction false} ContainedIsNoLonger(s: string, p: string)
    requires Contains(s, p)
    ensures |p| <= |s|
  {
    if !(p <= s) { ContainedIsNoLonger(s[1..], p); }
  }

  lemma PayloadKeyIsPlain(k: nat)
    ensures Plain(PayloadKey(k)) && |PayloadKey(k)| == 9
  {
  }

  lemma PayloadKeySaysNothing(k: nat, word: string)
    requires |word| > 9
    ensures !Says(PayloadKey(k), word)
  {
    hide PayloadKey, Escaped, Contains;
    PayloadKeyIsPlain(k);
    PlainEscapes(PayloadKey(k));
    if Says(PayloadKey(k), word) { ContainedIsNoLonger(Lower(PayloadKey(k)), Lower(word)); }
  }

  lemma MentionedInCombined(word: string, a: Json, b: Json, c: Json)
    requires |word| > 9
    ensures Mentions(Combine(a, b, c), word) <==> OneMentions(word, a, b, c)
  {
    hide PayloadKey, Says;
    PayloadKeySaysNothing(0, word);
    PayloadKeySaysNothing(1, word);
    PayloadKeySaysNothing(2, word);
    var f2 := Field(PayloadKey(2), c, NoFields);
    var f1 := Field(PayloadKey(1), b, f2);
    assert MentionsInFields(f2, word) <==> Mentions(c, word);
    assert MentionsInFields(f1, word) <==> Mentions(b, word) || Mentions(c, word);
    assert Combine(a, b, c) == Obj(Field(PayloadKey(0), a, f1));
  }

  lemma PhrasesAreLong(phrase: Phrase)
    ensures |Text(phrase)| > 9
  {
  }

  lemma PhraseInCombined(phrase: Phrase, a: Json, b: Json, c: Json)
    ensures Mentions(Combine(a, b, c), Text(phrase)) <==> OneMentions(Text(phrase), a, b, c)
  {
    hide *;
    PhrasesAreLong(phrase);
    MentionedInCombined(Text(phrase), a, b, c);
  }

  lemma AuthorisedModelIsLong(args: Args)
    requires Authorised(args)
    ensures |args.model| > 9
  {
  }

  lemma AnyFalseInCombined(patterns: seq<string>, a: Json, b: Json, c: Json)
    requires Foreign(patterns)
    ensures AnyFalse(Combine(a, b, c), patterns) <==> AnyFalse(a, patterns) || AnyFalse(b, patterns) || AnyFalse(c, patterns)
  {
    hide Find, Denies, Foreign, Combine;
    FindInCombined(patterns, a, b, c);
    forall v
      ensures v in Find(Combine(a, b, c), patterns) <==> v in Find(a, patterns) || v in Find(b, patterns) || v in Find(c, patterns)
    {
    }
  }

  /** The eight gates, exactly. All but the first are existential over the three replies: one positive field in any of them
      proves a status beside any contradictory one and in whichever record of the two lists, the diff gate asks for a key
      alone, and the others for a denial or for a phrase in any key or string. */
  lemma GatesAreExistential(args: Args, generation: Json, runs: Json, candidates: Json)
    requires Authorised(args)
    ensures var gates := GatesOf(args.model, generation, runs, candidates);
            && (gates.structuredOutput <==> generation.Obj? || generation.Arr?)
            && (gates.astSafety <==> OnePasses(AstSafety, generation, runs, candidates))
            && (gates.directArgvTests <==> OnePasses(ArgvTests, generation, runs, candidates))
            && (gates.unifiedDiff <==> OneShows(UnifiedDiff, generation, runs, candidates))
            && (gates.sourceApplyBlocked <==>
                  || OneDenies(SourceApply, generation, runs, candidates)
                  || OneMentions(Text(ApplyIsBlocked), generation, runs, candidates)
                  || OneMentions(Text(NeedsSeparateAuthorization), generation, runs, candidates))
            && (gates.promptRecorded <==> OneMentions(Text(PromptVersion), generation, runs, candidates))
            && (gates.modelRecorded <==> OneMentions(args.model, generation, runs, candidates))
            && (gates.humanReview <==>
                  || OneMentions(Text(ReviewIsRequired), generation, runs, candidates)
                  || OnePasses(HumanReview, generation, runs, candidates))
  {
    hide *;
    GatesUnfold(args.model, generation, runs, candidates);
    TopicInCombined(AstSafety, generation, runs, candidates);
    TopicInCombined(ArgvTests, generation, runs, candidates);
    TopicInCombined(UnifiedDiff, generation, runs, candidates);
    TopicInCombined(SourceApply, generation, runs, candidates);
    TopicInCombined(HumanReview, generation, runs, candidates);
    AuthorisedModelIsLong(args);
    MentionedInCombined(args.model, generation, runs, candidates);
    PhraseInCombined(ApplyIsBlocked, generation, runs, candidates);
    PhraseInCombined(NeedsSeparateAuthorization, generation, runs, candidates);
    PhraseInCombined(PromptVersion, generation, runs, candidates);
    PhraseInCombined(ReviewIsRequired, generation, runs, candidates);
  }

  /** The gates as they are read off the combined replies. */
  lemma GatesUnfold(model: string, generation: Json, runs: Json, candidates: Json)
    ensures var gates := GatesOf(model, generation, runs, candidates); var all := Combine(generation, runs, candidates);
            && gates.structuredOutput == (generation.Obj? || generation.Arr?)
            && gates.astSafety == AnyPass(all, Patterns(AstSafety)) && gates.directArgvTests == AnyPass(all, Patterns(ArgvTests))
            && gates.unifiedDiff == (Find(all, Patterns(UnifiedDiff)) != [])
            && gates.sourceApplyBlocked == (AnyFalse(all, Patterns(SourceApply)) || Mentions(all, Text(ApplyIsBlocked))
                                            || Mentions(all, Text(NeedsSeparateAuthorization)))
            && gates.promptRecorded == Mentions(all, Text(PromptVersion)) && gates.modelRecorded == Mentions(all, model)
            && gates.humanReview == (Mentions(all, Text(ReviewIsRequired)) || AnyPass(all, Patterns(HumanReview)))
  {
    hide Find, AnyPass, AnyFalse, Patterns, Combine, Mentions, Text;
  }

  lemma TopicInCombined(topic: Topic, generation: Json, runs: Json, candidates: Json)
    ensures var all := Combine(generation, runs, candidates);
            && (AnyPass(all, Patterns(topic)) <==> OnePasses(topic, generation, runs, candidates))
            && (AnyFalse(all, Patterns(topic)) <==> OneDenies(topic, generation, runs, candidates))
            && (Find(all, Patterns(topic)) != [] <==> OneShows(topic, generation, runs, candidates))
  {
    hide *;
    PatternsAreForeign(topic);
    OnePassesUnfolds(topic, generation, runs, candidates);
    OneDeniesUnfolds(topic, generation, runs, candidates);
    OneShowsUnfolds(topic, generation, runs, candidates);
    AnyPassInCombined(Patterns(topic), generation, runs, candidates);
    AnyFalseInCombined(Patterns(topic), generation, runs, candidates);
    ShownInCombined(Patterns(topic), generation, runs, candidates);
  }

  lemma OnePassesUnfolds(topic: Topic, a: Json, b: Json, c: Json)
    ensures OnePasses(topic, a, b, c) == (AnyPass(a, Patterns(topic)) || AnyPass(b, Patterns(topic)) || AnyPass(c, Patterns(topic)))
  {
    hide AnyPass, Patterns;
  }

  lemma OneDeniesUnfolds(topic: Topic, a: Json, b: Json, c: Json)
    ensures OneDenies(topic, a, b, c) == (AnyFalse(a, Patterns(topic)) || AnyFalse(b, Patterns(topic)) || AnyFalse(c, Patterns(topic)))
  {
    hide AnyFalse, Patterns;
  }

  lemma OneShowsUnfolds(topic: Topic, a: Json, b: Json, c: Json)
    ensures OneShows(topic, a, b, c) ==
            (Find(a, Patterns(topic)) != [] || Find(b, Patterns(topic)) != [] || Find(c, Patterns(topic)) != [])
  {
    hide Find, Patterns;
  }

  lemma PatternsAreForeign(topic: Topic)
    ensures Foreign(Patterns(topic))
  {
    hide *;
    StatusPatternsAreForeign();
    OtherPatternsAreForeign();
  }

  lemma ShownInCombined(patterns: seq<string>, a: Json, b: Json, c: Json)
    requires Foreign(patterns)
    ensures Find(Combine(a, b, c), patterns) != [] <==> Find(a, patterns) != [] || Find(b, patterns) != [] || Find(c, patterns) != []
  {
    hide *;
    FindInCombined(patterns, a, b, c);
    assert |Find(Combine(a, b, c), patterns)| == |Find(a, patterns)| + |Find(b, patterns)| + |Find(c, patterns)|;
  }

  /** A reply whose only fields say the opposite. */
  function Denial(): Json {
    Obj(Field("source_apply_blocked", Bool(false), Field("human_review_required", Bool(false), NoFields)))
  }

  /** It proves both gates all the same, by the names of its fields. */
  lemma DenialProvesTheGates(args: Args, runs: Json, candidates: Json)
    requires Authorised(args)
    ensures var gates := GatesOf(args.model, Denial(), runs, candidates); gates.sourceApplyBlocked && gates.humanReview
  {
    hide Says, Authorised, GatesOf, Text, AnyFalse, AnyPass, Patterns, OneDenies, OnePasses, OneShows;
    ApplyKeySays();
    ReviewKeySays();
    GatesAreExistential(args, Denial(), runs, candidates);
  }

  lemma ApplyKeySays()
    ensures Says("source_apply_blocked", Text(ApplyIsBlocked))
  {
    hide Says;
    assert Plain("source_apply_blocked");
    SaysItself("source_apply_blocked", Text(ApplyIsBlocked));
  }

  lemma ReviewKeySays()
    ensures Says("human_review_required", Text(ReviewIsRequired))
  {
    hide Says;
    assert Plain("human_review_required");
    assert Lower(Text(ReviewIsRequired)) == "human_review_required" == Lower("human_review_required");
    SaysItself("human_review_required", Text(ReviewIsRequired));
  }

  lemma {:induction false} FirstTextOfTwo(a: seq<Json>, b: seq<Json>)
    ensures FirstText(a + b) == if FirstText(a).Some? then FirstText(a) else FirstText(b)
  {
    if a == [] {
      assert a + b == b;
    } else {
      FirstTextOfTwo(a[1..], b);
      assert (a + b)[1..] == a[1..] + b;
    }
  }

  /** The candidate of the three replies is the one of the first reply that names any. */
  lemma CandidateOfCombined(generation: Json, runs: Json, candidates: Json)
    ensures CandidateId(Combine(generation, runs, candidates)) ==
            if CandidateId(generation).Some? then CandidateId(generation)
            else if CandidateId(runs).Some? then CandidateId(runs) else CandidateId(candidates)
  {
    hide Find, Foreign, Combine, FirstText;
    OtherPatternsAreForeign();
    FindInCombined(Patterns(Candidate), generation, runs, candidates);
    FirstTextOfTwo(Find(generation, Patterns(Candidate)) + Find(runs, Patterns(Candidate)), Find(candidates, Patterns(Candidate)));
    FirstTextOfTwo(Find(generation, Patterns(Candidate)), Find(runs, Patterns(Candidate)));
  }

  lemma TrueIsPositive(j: Json)
    requires j == Bool(true)
    ensures Positive(j)
  {
    hide Words;
  }

  /** A gate may be proved by the record of another run: here by a field of the run list under another candidate, whatever
      the generation reply says of its own. */
  lemma AnotherRunProvesTheGate(
      args: Args, generation: Json, candidates: Json, idKey: string, other: string, key: string)
    requires Authorised(args)
    requires CandidateId(generation).Some? && Some(other) != CandidateId(generation) && Matches(key, Patterns(AstSafety))
    ensures var runs := Obj(Field(idKey, Str(other), Field(key, Bool(true), NoFields)));
            && GatesOf(args.model, generation, runs, candidates).astSafety
            && CandidateId(Combine(generation, runs, candidates)) == CandidateId(generation)
  {
    var runs := Obj(Field(idKey, Str(other), Field(key, Bool(true), NoFields)));
    var last := Field(key, Bool(true), NoFields);
    hide Matches, Patterns, CandidateId, Combine, GatesOf, OneDenies, OneShows, OneMentions;
    assert Bool(true) in FindInFields(last, Patterns(AstSafety));
    assert Bool(true) in Find(runs, Patterns(AstSafety));
    TrueIsPositive(Bool(true));
    GatesAreExistential(args, generation, runs, candidates);
    CandidateOfCombined(generation, runs, candidates);
  }

  /** Three absent replies prove nothing. */
  lemma NothingIsProven(provider: Provider, model: string, before: Json)
    ensures !ProbeProven(provider, Null) && !GatesOf(model, Null, Null, Null).All()
    ensures !NewCandidate(before, Null, Null, Null)
  {
    hide Combine, Matches, Positive, Denies, Patterns, Text, Mentions;
    CandidateOfCombined(Null, Null, Null);
    assert CandidateId(Null) == None;
  }

  /* ---------- The loops ---------- */

  /** The recursive search: visiting a value appends what it finds. */
  class Finder {
    const patterns: seq<string>
    var found: seq<Json>

    constructor (patterns: seq<string>)
      ensures this.patterns == patterns && found == []
    {
      this.patterns := patterns;
      found := [];
    }

    method Visit(node: Json)
      modifies this
      ensures found == old(found) + Find(node, patterns)
      decreases node
    {
      match node
      case Obj(fields) => VisitFields(fields);
      case Arr(items) => VisitItems(items);
      case _ =>
    }

    method VisitFields(f: Fields)
      modifies this
      ensures found == old(found) + FindInFields(f, patterns)
      decreases f
    {
      if f.Field? {
        if Matches(f.key, patterns) { found := found + [f.value]; }
        Visit(f.value);
        VisitFields(f.rest);
      }
    }

    method VisitItems(items: Items)
      modifies this
      ensures found == old(found) + FindInItems(items, patterns)
      decreases items
    {
      if items.Item? {
        Visit(items.head);
        VisitItems(items.tail);
      }
    }
  }

  method RecursiveFind(j: Json, patterns: seq<string>) returns (found: seq<Json>)
    ensures found == Find(j, patterns)
  {
    var finder := new Finder(patterns);
    finder.Visit(j);
    found := finder.found;
  }

  /** The loop over the values under a denial pattern. */
  method AnyDenial(j: Json, patterns: seq<string>) returns (denied: bool)
    ensures denied <==> AnyFalse(j, patterns)
  {
    var values := RecursiveFind(j, patterns);
    for i := 0 to |values|
      invariant forall k :: 0 <= k < i ==> !Denies(values[k])
    {
      if Denies(values[i]) { return true; }
    }
    return false;
  }

  /** The loop over the values under a candidate key. */
  method FindCandidate(j: Json) returns (id: Option<string>)
    ensures id == CandidateId(j)
  {
    var values := RecursiveFind(j, Patterns(Candidate));
    for i := 0 to |values|
      invariant FirstText(values) == FirstText(values[i..])
    {
      if values[i].Str? {
        var text := Trim(values[i].s);
        if text != "" { return Some(text); }
      }
    }
    return None;
  }

  /** The loop over the rows of the inventory. */
  method SelectRow(rows: Items, model: string) returns (selected: Option<Json>)
    ensures selected == SelectedRow(rows, model, None)
  {
    selected := None;
    var rest := rows;
    while rest.Item?
      invariant SelectedRow(rows, model, None) == SelectedRow(rest, model, selected)
      decreases rest
    {
      if Names(rest.head, model) { selected := Some(rest.head); }
      rest := rest.tail;
    }
  }
}
