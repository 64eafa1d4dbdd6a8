/**
 Finding the operational settings in a reply, and comparing two of them.
 */
module ProbeSettings {
  import opened Common
  import opened JsonValues
  import Body = RequestBody

  /* ---------- The settings object of a reply ---------- */

  /** Every object of a value, outermost first, in document order. */
  function Objects(j: Json): seq<Fields> {
    match j
    case Obj(fields) => [fields] + ObjectsInFields(fields)
    case Arr(items) => ObjectsInItems(items)
    case _ => []
  }

  function ObjectsInFields(f: Fields): seq<Fields> {
    if f.NoFields? then [] else Objects(f.value) + ObjectsInFields(f.rest)
  }

  function ObjectsInItems(items: Items): seq<Fields> {
    if items.NoItems? then [] else Objects(items.head) + ObjectsInItems(items.tail)
  }

  function Mark(f: Fields, name: string): int {
    if exists k :: k in Keys(f) && NormalizeKey(k) == name then 1 else 0
  }

  /** How many of the tell-tale names an object has. */
  function SettingsScore(f: Fields): int {
    Mark(f, "provider") + Mark(f, "providermode") + Mark(f, "mode") + Mark(f, "baseurl") + Mark(f, "model")
    + Mark(f, "modelname") + Mark(f, "timeoutseconds")
  }

  datatype Best = Best(fields: Fields, score: int)

  /** The better of what was found so far and one more object. */
  function Better(best: Best, f: Fields): Best {
    if SettingsScore(f) > best.score then Best(f, SettingsScore(f)) else best
  }

  /** The search over a list of objects, in order. */
  function Search(best: Best, objects: seq<Fields>): Best {
    if objects == [] then best else Better(Search(best, objects[..|objects| - 1]), objects[|objects| - 1])
  }

  function DeepFindSettings(j: Json): Fields { Search(Best(NoFields, -1), Objects(j)).fields }

  /** Object i has the highest score, and every earlier one a lower score. */
  ghost predicate IsFirstBestObject(objects: seq<Fields>, i: nat) {
    && i < |objects|
    && (forall j :: 0 <= j < |objects| ==> SettingsScore(objects[j]) <= SettingsScore(objects[i]))
    && (forall j :: 0 <= j < i ==> SettingsScore(objects[j]) < SettingsScore(objects[i]))
  }

  lemma {:induction false} SearchFindsFirstBest(objects: seq<Fields>) returns (i: nat)
    ensures objects == [] ==> Search(Best(NoFields, -1), objects) == Best(NoFields, -1)
    ensures objects != [] ==> IsFirstBestObject(objects, i)
                              && Search(Best(NoFields, -1), objects) == Best(objects[i], SettingsScore(objects[i]))
  {
    hide SettingsScore, Mark;
    i := 0;
    if objects != [] {
      var n := |objects| - 1;
      var init := objects[..n];
      var k := SearchFindsFirstBest(init);
      assert forall j :: 0 <= j < n ==> init[j] == objects[j];
      if n == 0 { ScoreIsNatural(objects[0]); }
      i := if n > 0 && SettingsScore(objects[n]) <= SettingsScore(objects[k]) then k else n;
    }
  }

  lemma ScoreIsNatural(f: Fields)
    ensures SettingsScore(f) >= 0
  {
  }

  /** The settings of a reply are its first object with the highest score. */
  lemma FoundSettingsAreFirstBest(j: Json) returns (i: nat)
    ensures Objects(j) != [] ==> IsFirstBestObject(Objects(j), i) && DeepFindSettings(j) == Objects(j)[i]
    ensures Objects(j) == [] ==> DeepFindSettings(j) == NoFields
  {
    i := SearchFindsFirstBest(Objects(j));
  }

  lemma {:induction false} ObjectsAreTransitive(j: Json, f: Fields, g: Fields)
    requires f in Objects(j) && g in Objects(Obj(f))
    ensures g in Objects(j)
    decreases j, 0
  {
    match j
    case Obj(fields) =>
      if f in ObjectsInFields(fields) { ObjectsInFieldsAreTransitive(fields, f, g); }
    case Arr(items) => ObjectsInItemsAreTransitive(items, f, g);
    case _ =>
  }

  lemma {:induction false} ObjectsInFieldsAreTransitive(fields: Fields, f: Fields, g: Fields)
    requires f in ObjectsInFields(fields) && g in Objects(Obj(f))
    ensures g in ObjectsInFields(fields)
    decreases fields, 0
  {
    if f in Objects(fields.value) {
      ObjectsAreTransitive(fields.value, f, g);
    } else {
      ObjectsInFieldsAreTransitive(fields.rest, f, g);
    }
  }

  lemma {:induction false} ObjectsInItemsAreTransitive(items: Items, f: Fields, g: Fields)
    requires f in ObjectsInItems(items) && g in Objects(Obj(f))
    ensures g in ObjectsInItems(items)
    decreases items, 0
  {
    if f in Objects(items.head) {
      ObjectsAreTransitive(items.head, f, g);
    } else {
      ObjectsInItemsAreTransitive(items.tail, f, g);
    }
  }

  /** Searching a settings object that was found gives it back: restoring from it reads the same fields. */
  lemma FoundSettingsAreFoundAgain(j: Json)
    ensures DeepFindSettings(Obj(DeepFindSettings(j))) == DeepFindSettings(j)
  {
    var f := DeepFindSettings(j);
    var i := FoundSettingsAreFirstBest(j);
    var k := FoundSettingsAreFirstBest(Obj(f));
    var inner := Objects(Obj(f));
    assert inner[0] == f;
    hide SettingsScore, DeepFindSettings;
    if Objects(j) == [] {
      assert inner == [NoFields];
    } else {
      assert f in Objects(j) && inner[k] in inner;
      ObjectsAreTransitive(j, f, inner[k]);
      assert SettingsScore(inner[k]) <= SettingsScore(f);
    }
  }

  lemma {:induction false} SearchInTwo(best: Best, a: seq<Fields>, b: seq<Fields>)
    ensures Search(best, a + b) == Search(Search(best, a), b)
  {
    if b == [] {
      assert a + b == a;
    } else {
      var n := |b| - 1;
      assert (a + b)[..|a + b| - 1] == a + b[..n];
      SearchInTwo(best, a, b[..n]);
      hide Better;
    }
  }

  /** The recursive search: visiting a value updates the best object found so far. */
  class SettingsFinder {
    var best: Fields
    var bestScore: int

    constructor ()
      ensures Found() == Best(NoFields, -1)
    {
      best, bestScore := NoFields, -1;
    }

    ghost function Found(): Best
      reads this
    {
      Best(best, bestScore)
    }

    method Visit(node: Json)
      modifies this
      ensures Found() == Search(old(Found()), Objects(node))
      decreases node
    {
      match node
      case Obj(fields) =>
        var score := SettingsScore(fields);
        if score > bestScore { best, bestScore := fields, score; }
        assert Found() == Search(old(Found()), [fields]) by { SearchOne(old(Found()), fields); }
        SearchInTwo(old(Found()), [fields], ObjectsInFields(fields));
        VisitFields(fields);
      case Arr(items) => VisitItems(items);
      case _ =>
    }

    method VisitFields(f: Fields)
      modifies this
      ensures Found() == Search(old(Found()), ObjectsInFields(f))
      decreases f
    {
      if f.Field? {
        SearchInTwo(Found(), Objects(f.value), ObjectsInFields(f.rest));
        Visit(f.value);
        VisitFields(f.rest);
      }
    }

    method VisitItems(items: Items)
      modifies this
      ensures Found() == Search(old(Found()), ObjectsInItems(items))
      decreases items
    {
      if items.Item? {
        SearchInTwo(Found(), Objects(items.head), ObjectsInItems(items.tail));
        Visit(items.head);
        VisitItems(items.tail);
      }
    }
  }

  lemma SearchOne(best: Best, f: Fields)
    ensures Search(best, [f]) == Better(best, f)
  {
    assert [f][..0] == [];
  }

  method FindSettings(j: Json) returns (settings: Fields)
    ensures settings == DeepFindSettings(j)
  {
    var finder := new SettingsFinder();
    finder.Visit(j);
    settings := finder.best;
  }

  /* ---------- The fields that matter ---------- */

  predicate IsScalarSetting(name: string) {
    name in {"provider", "providermode", "mode", "baseurl", "endpoint", "providerurl", "model", "modelname", "timeout",
             "timeoutseconds", "requesttimeoutseconds", "maxoutput", "maxoutputchars", "maxoutputtokens", "maxtokens",
             "temperature", "apikeyenvname", "apikeyenvvar"}
  }

  /** The direct scalar settings of an object, by normalised name; a later field wins. */
  function Direct(f: Fields, acc: Body.Values): Body.Values
    decreases f
  {
    if f.NoFields? then acc
    else
      var name := NormalizeKey(f.key);
      Direct(f.rest, if IsScalarSetting(name) && !f.value.Obj? && !f.value.Arr? then acc[name := f.value] else acc)
  }

  /** The seven values compared; one that is absent reads as null. */
  datatype Critical = Critical(mode: Json, baseUrl: Json, model: Json, timeout: Json, maxOutput: Json, temperature: Json,
                               apiKeyEnvVar: Json)

  function FirstOf(values: Body.Values, names: seq<string>): Json {
    if names == [] then Null else if names[0] in values then values[names[0]] else FirstOf(values, names[1..])
  }

  function CriticalSettings(j: Json): Critical {
    var direct := Direct(DeepFindSettings(j), map[]);
    Critical(FirstOf(direct, ["mode", "providermode", "provider"]),
             FirstOf(direct, ["baseurl", "providerurl", "endpoint"]),
             FirstOf(direct, ["model", "modelname"]),
             FirstOf(direct, ["timeoutseconds", "requesttimeoutseconds", "timeout"]),
             FirstOf(direct, ["maxoutputtokens", "maxoutputchars", "maxoutput", "maxtokens"]),
             FirstOf(direct, ["temperature"]),
             FirstOf(direct, ["apikeyenvvar", "apikeyenvname"]))
  }

  predicate IsCriticalName(name: string) {
    name in {"mode", "base_url", "model", "timeout_seconds", "max_output_tokens", "temperature", "api_key_env_var"}
  }

  /** An object with no other names is taken to be the seven values themselves. */
  function CriticalOf(j: Json): Critical {
    if j.Obj? && forall k :: k in Keys(j.fields) ==> IsCriticalName(k) then
      var f := j.fields;
      Critical(GetOr(f, "mode", Null), GetOr(f, "base_url", Null), GetOr(f, "model", Null), GetOr(f, "timeout_seconds", Null),
               GetOr(f, "max_output_tokens", Null), GetOr(f, "temperature", Null), GetOr(f, "api_key_env_var", Null))
    else CriticalSettings(j)
  }

  const REDACTED := Str("<REDACTED>")

  /** Equal in all seven values, where a redacted API-key variable equals any other. */
  predicate Match(a: Critical, b: Critical) {
    && a.(apiKeyEnvVar := Null) == b.(apiKeyEnvVar := Null)
    && (a.apiKeyEnvVar == b.apiKeyEnvVar || a.apiKeyEnvVar == REDACTED || b.apiKeyEnvVar == REDACTED)
  }
}
