/**
 What the probe reads of settings, and what it therefore restores: each of the seven values on its own, from the names it
 may stand under to the two replies that are compared.
 */
module LiveProbeSettings {
  import opened Common
  import opened JsonValues
  import opened RequestBody
  import opened ProbeSettings
  import opened LiveProbeVerdicts
  import opened LiveProbe
  import opened LiveProbeOutcome
  import opened LiveProbeClaims

  datatype Setting = Mode | BaseUrl | Model | Timeout | MaxOutput | Temperature | ApiKeyVariable

  /** The names a value may stand under, best first; case and punctuation of a name do not matter. */
  function Names(setting: Setting): seq<string> {
    match setting
    case Mode => ["mode", "providermode", "provider"]
    case BaseUrl => ["baseurl", "providerurl", "endpoint"]
    case Model => ["model", "modelname"]
    case Timeout => ["timeoutseconds", "requesttimeoutseconds", "timeout"]
    case MaxOutput => ["maxoutputtokens", "maxoutputchars", "maxoutput", "maxtokens"]
    case Temperature => ["temperature"]
    case ApiKeyVariable => ["apikeyenvvar", "apikeyenvname"]
  }

  /** Its name in an object that has no other names than these seven. */
  function OwnName(setting: Setting): string {
    match setting
    case Mode => "mode"
    case BaseUrl => "base_url"
    case Model => "model"
    case Timeout => "timeout_seconds"
    case MaxOutput => "max_output_tokens"
    case Temperature => "temperature"
    case ApiKeyVariable => "api_key_env_var"
  }

  predicate IsOwnName(k: string) { exists setting :: OwnName(setting) == k }

  /* ---------- The tell-tale names ---------- */

  predicate HasName(f: Fields, name: string) {
    exists k :: k in Keys(f) && NormalizeKey(k) == name
  }

  /** How many of the names some key of the object spells. */
  function Spelled(f: Fields, names: seq<string>): nat {
    if names == [] then 0 else Spelled(f, names[..|names| - 1]) + if HasName(f, names[|names| - 1]) then 1 else 0
  }

  lemma MarkIs(f: Fields, name: string)
    ensures Mark(f, name) == if HasName(f, name) then 1 else 0
  {
    hide NormalizeKey;
  }

  lemma OneMoreName(f: Fields, names: seq<string>, name: string)
    ensures Spelled(f, names + [name]) == Spelled(f, names) + if HasName(f, name) then 1 else 0
  {
    hide HasName;
    assert (names + [name])[..|names|] == names;
  }

  /** The score of an object is the number of tell-tale names that some key of it spells. */
  lemma ScoreIsCount(f: Fields)
    ensures SettingsScore(f) ==
            Spelled(f, ["provider", "providermode", "mode", "baseurl", "model", "modelname", "timeoutseconds"])
  {
    hide Mark, HasName, Spelled;
    var a, b, c := "provider", "providermode", "mode";
    var d, e, g, h := "baseurl", "model", "modelname", "timeoutseconds";
    MarkIs(f, a);
    MarkIs(f, b);
    MarkIs(f, c);
    MarkIs(f, d);
    MarkIs(f, e);
    MarkIs(f, g);
    MarkIs(f, h);
    NoName(f);
    OneMoreName(f, [], a);
    OneMoreName(f, [a], b);
    OneMoreName(f, [a, b], c);
    OneMoreName(f, [a, b, c], d);
    OneMoreName(f, [a, b, c, d], e);
    OneMoreName(f, [a, b, c, d, e], g);
    OneMoreName(f, [a, b, c, d, e, g], h);
    assert [] + [a] == [a] && [a] + [b] == [a, b] && [a, b] + [c] == [a, b, c] && [a, b, c] + [d] == [a, b, c, d];
    assert [a, b, c, d] + [e] == [a, b, c, d, e] && [a, b, c, d, e] + [g] == [a, b, c, d, e, g];
    assert [a, b, c, d, e, g] + [h] == [a, b, c, d, e, g, h];
  }

  lemma NoName(f: Fields)
    ensures Spelled(f, []) == 0
  {
  }

  /* ---------- Reading one value ---------- */

  /** The last field of the object that spells the name and holds no object or list. */
  function LastScalar(f: Fields, name: string): Option<Json> {
    if f.NoFields? then None
    else if LastScalar(f.rest, name).Some? then LastScalar(f.rest, name)
    else if NormalizeKey(f.key) == name && !f.value.Obj? && !f.value.Arr? then Some(f.value)
    else None
  }

  function Preferred(f: Fields, names: seq<string>): Json {
    if names == [] then Null
    else if LastScalar(f, names[0]).Some? then LastScalar(f, names[0]).value
    else Preferred(f, names[1..])
  }

  predicate OnlyOwnNames(f: Fields) { forall k :: k in Keys(f) ==> IsOwnName(k) }

  /** What a comparison reads of a value. */
  function Reading(j: Json, setting: Setting): Json {
    if j.Obj? && OnlyOwnNames(j.fields) then GetOr(j.fields, OwnName(setting), Null)
    else Preferred(DeepFindSettings(j), Names(setting))
  }

  function Part(c: Critical, setting: Setting): Json {
    match setting
    case Mode => c.mode
    case BaseUrl => c.baseUrl
    case Model => c.model
    case Timeout => c.timeout
    case MaxOutput => c.maxOutput
    case Temperature => c.temperature
    case ApiKeyVariable => c.apiKeyEnvVar
  }

  lemma {:induction false} DirectIsLast(f: Fields, acc: Values, name: string)
    requires IsScalarSetting(name)
    ensures var last := LastScalar(f, name); var direct := Direct(f, acc);
            && (name in direct <==> last.Some? || name in acc)
            && (last.Some? ==> direct[name] == last.value)
            && (last.None? && name in acc ==> direct[name] == acc[name])
    decreases f
  {
    hide IsScalarSetting, NormalizeKey;
    if f.Field? {
      var key := NormalizeKey(f.key);
      DirectIsLast(f.rest, if IsScalarSetting(key) && !f.value.Obj? && !f.value.Arr? then acc[key := f.value] else acc, name);
    }
  }

  lemma {:induction false} FirstOfIsPreferred(f: Fields, names: seq<string>)
    requires forall i :: 0 <= i < |names| ==> IsScalarSetting(names[i])
    ensures FirstOf(Direct(f, map[]), names) == Preferred(f, names)
  {
    hide IsScalarSetting;
    if names != [] {
      DirectIsLast(f, map[], names[0]);
      FirstOfIsPreferred(f, names[1..]);
    }
  }

  lemma NamesAreScalar(setting: Setting)
    ensures forall i :: 0 <= i < |Names(setting)| ==> IsScalarSetting(Names(setting)[i])
  {
  }

  lemma SettingsAreRead(j: Json, setting: Setting)
    ensures Part(CriticalSettings(j), setting) == Preferred(DeepFindSettings(j), Names(setting))
  {
    hide IsScalarSetting, Direct, FirstOf, Preferred, DeepFindSettings;
    NamesAreScalar(setting);
    FirstOfIsPreferred(DeepFindSettings(j), Names(setting));
  }

  lemma OwnNamesAre(k: string)
    ensures IsOwnName(k) <==> IsCriticalName(k)
  {
    assert OwnName(Mode) == "mode" && OwnName(BaseUrl) == "base_url" && OwnName(Model) == "model";
    assert OwnName(Timeout) == "timeout_seconds" && OwnName(MaxOutput) == "max_output_tokens";
    assert OwnName(Temperature) == "temperature" && OwnName(ApiKeyVariable) == "api_key_env_var";
  }

  /** The reading of every value, on any reply. */
  lemma ReadingIs(j: Json, setting: Setting)
    ensures Part(CriticalOf(j), setting) == Reading(j, setting)
  {
    hide IsOwnName, IsCriticalName, CriticalSettings, Preferred, DeepFindSettings, Names;
    SettingsAreRead(j, setting);
    forall k ensures IsOwnName(k) <==> IsCriticalName(k) { OwnNamesAre(k); }
  }

  /* ---------- Comparing ---------- */

  /** The two readings of one value agree; only the API-key variable may be redacted on either side. */
  predicate SameReading(setting: Setting, a: Json, b: Json) {
    a == b || (setting == ApiKeyVariable && (a == Str("<REDACTED>") || b == Str("<REDACTED>")))
  }

  /** Settings match exactly if all seven values do. */
  lemma MatchIff(a: Critical, b: Critical)
    ensures Match(a, b) <==>
            && a.mode == b.mode && a.baseUrl == b.baseUrl && a.model == b.model && a.timeout == b.timeout
            && a.maxOutput == b.maxOutput && a.temperature == b.temperature
            && (a.apiKeyEnvVar == b.apiKeyEnvVar || a.apiKeyEnvVar == Str("<REDACTED>") || b.apiKeyEnvVar == Str("<REDACTED>"))
    ensures Match(a, b) <==> forall setting :: SameReading(setting, Part(a, setting), Part(b, setting))
  {
    assert Part(a, Mode) == a.mode && Part(a, BaseUrl) == a.baseUrl && Part(a, Model) == a.model && Part(a, Timeout) == a.timeout;
    assert Part(a, MaxOutput) == a.maxOutput && Part(a, Temperature) == a.temperature && Part(a, ApiKeyVariable) == a.apiKeyEnvVar;
  }

  /** Settings count as restored exactly if each value reads as in the settings object that was found first. */
  lemma RestoredIff(original: Json, readBack: Json)
    ensures RestoredTo(original, readBack) <==>
            forall setting :: SameReading(setting, Reading(Obj(DeepFindSettings(original)), setting), Reading(readBack, setting))
  {
    hide CriticalOf, Match, DeepFindSettings, Part, Reading, SameReading;
    var a, b := CriticalOf(OriginalObject(original)), CriticalOf(readBack);
    MatchIff(a, b);
    forall setting
      ensures Part(a, setting) == Reading(OriginalObject(original), setting) && Part(b, setting) == Reading(readBack, setting)
    {
      ReadingIs(OriginalObject(original), setting);
      ReadingIs(readBack, setting);
    }
  }

  /** What the arguments ask for. */
  function Wished(args: Args, setting: Setting): Json {
    match setting
    case Mode => Str(match args.provider case Ollama => "ollama" case OpenaiCompatible => "openai_compatible")
    case BaseUrl => Str(args.baseUrl)
    case Model => Str(args.model)
    case Timeout => Num(args.timeoutSeconds as real)
    case MaxOutput => Num(args.maxOutput as real)
    case Temperature => Num(args.temperature)
    case ApiKeyVariable => Str("PALWAKF_LOCAL_AGENTS_MODEL_API_KEY")
  }

  /** A live run writes the settings exactly if some value read first is not the one asked for. */
  lemma WriteIsDueIff(env: Env)
    ensures MustEnable(env) <==>
            env.args.live && exists setting ::
              !SameReading(setting, Preferred(DeepFindSettings(KnownOf(env).original), Names(setting)), Wished(env.args, setting))
  {
    hide CriticalSettings, Match, Part, Names, Preferred, KnownOf, SameReading, DeepFindSettings;
    var original := KnownOf(env).original;
    var a, b := CriticalSettings(OriginalObject(original)), TargetOf(env.args);
    MatchIff(a, b);
    FoundSettingsAreFoundAgain(original);
    forall setting
      ensures Part(a, setting) == Preferred(DeepFindSettings(original), Names(setting))
      ensures Part(b, setting) == Wished(env.args, setting)
    {
      SettingsAreRead(OriginalObject(original), setting);
      TargetIsWished(env.args, setting);
    }
  }

  lemma TargetIsWished(args: Args, setting: Setting)
    ensures Part(TargetOf(args), setting) == Wished(args, setting)
  {
  }

  /** What a live PASS says of the settings it changed: after the guarded part comes a write that was accepted and a read
      answered with 200, and in that reply all seven values read as in the reply read first: mode, base URL, model, timeout,
      maximum output and temperature are equal, and the API-key variable is equal or redacted. */
  lemma LivePassRestoresEveryValue(env: Env)
    requires env.args.live && Run(env).result == Some(Pass) && Uninterrupted(env)
    requires MustEnable(env) && KnownOf(env).original != Null
    ensures var n := |Asks(UpToEnable(env))| + 4;
            var before, after := Obj(DeepFindSettings(KnownOf(env).original)), PayloadOf(ReplyAt(env, n + 1));
            && ReplyAt(env, n).Http? && 200 <= ReplyAt(env, n).status < 300
            && ReplyAt(env, n + 1).Http? && ReplyAt(env, n + 1).status == 200
            && Reading(after, Mode) == Reading(before, Mode) && Reading(after, BaseUrl) == Reading(before, BaseUrl)
            && Reading(after, Model) == Reading(before, Model) && Reading(after, Timeout) == Reading(before, Timeout)
            && Reading(after, MaxOutput) == Reading(before, MaxOutput) && Reading(after, Temperature) == Reading(before, Temperature)
            && (|| Reading(after, ApiKeyVariable) == Reading(before, ApiKeyVariable)
                || Reading(after, ApiKeyVariable) == Str("<REDACTED>") || Reading(before, ApiKeyVariable) == Str("<REDACTED>"))
  {
    hide *;
    UninterruptedIsNotCut(env);
    LivePassIff(env);
    LivePassMeans(env);
    CompletedIsProven(env);
    var n := |Asks(UpToEnable(env))| + 4;
    RestoreAnswered(env, n);
    RestoredIff(KnownOf(env).original, PayloadOf(ReplyAt(env, n + 1)));
    var before, after := Obj(DeepFindSettings(KnownOf(env).original)), PayloadOf(ReplyAt(env, n + 1));
    forall setting
      ensures SameReading(setting, Reading(before, setting), Reading(after, setting))
      ensures Reading(after, setting) == Reading(before, setting)
              || (setting == ApiKeyVariable
                  && (Reading(after, setting) == Str("<REDACTED>") || Reading(before, setting) == Str("<REDACTED>")))
    {
      SameReadingIs(setting, Reading(before, setting), Reading(after, setting));
    }
  }

  lemma SameReadingIs(setting: Setting, a: Json, b: Json)
    ensures SameReading(setting, a, b) <==>
            a == b || (setting == ApiKeyVariable && (a == Str("<REDACTED>") || b == Str("<REDACTED>")))
  {
  }

  lemma RestoreAnswered(env: Env, n: nat)
    requires RestorePasses(env) && |Sent(env)| == n
    ensures ReplyAt(env, n).Http? && 200 <= ReplyAt(env, n).status < 300
    ensures ReplyAt(env, n + 1).Http? && ReplyAt(env, n + 1).status == 200
    ensures RestoredTo(KnownOf(env).original, PayloadOf(ReplyAt(env, n + 1)))
  {
    hide Sent, BackBody, RestoredTo, KnownOf;
  }
}
