/**
 Resolving the schema of a request in an OpenAPI document, and building a request body from it.
 Where a document gives an object or an array, this model reads one; anything else there reads as empty.
 */
module OpenapiSchema {
  import opened Common
  import opened JsonValues

  /* ---------- References ---------- */

  const COMPONENTS := "#/components/schemas/"

  predicate IsComponentRef(s: string) { COMPONENTS <= s }

  /** What follows the last slash. */
  function LastSegment(s: string): string {
    if s == "" then ""
    else if s[|s| - 1] == '/' then ""
    else LastSegment(s[..|s| - 1]) + [s[|s| - 1]]
  }

  /** The component reference at the top of a schema, if there is one. */
  function ComponentRef(f: Fields): Option<string> {
    var ref := Get(f, "$ref");
    if ref.Some? && ref.value.Str? && IsComponentRef(ref.value.s) then Some(ref.value.s) else None
  }

  /** Every string under a $ref key, at any depth. */
  function RefsIn(j: Json): set<string> {
    match j
    case Arr(items) => RefsInItems(items)
    case Obj(fields) => RefsInFields(fields)
    case _ => {}
  }

  function RefsInItems(items: Items): set<string> {
    match items
    case NoItems => {}
    case Item(head, tail) => RefsIn(head) + RefsInItems(tail)
  }

  function RefNamed(k: string, v: Json): set<string> {
    if k == "$ref" && v.Str? then {v.s} else {}
  }

  function RefsInFields(f: Fields): set<string> {
    match f
    case NoFields => {}
    case Field(key, value, rest) => RefNamed(key, value) + RefsIn(value) + RefsInFields(rest)
  }

  lemma {:induction false} GetRefs(f: Fields, k: string)
    requires Has(f, k)
    ensures RefsIn(Get(f, k).value) + RefNamed(k, Get(f, k).value) <= RefsInFields(f)
  {
    if Has(f.rest, k) { GetRefs(f.rest, k); }
  }

  lemma {:induction false} PutRefs(f: Fields, k: string, v: Json)
    ensures RefsInFields(Put(f, k, v)) <= RefsInFields(f) + RefsIn(v) + RefNamed(k, v)
  {
    if f.Field? && !(f.key == k && !Has(f.rest, k)) { PutRefs(f.rest, k, v); }
  }

  lemma {:induction false} MergeRefs(f: Fields, g: Fields)
    ensures RefsInFields(Merge(f, g)) <= RefsInFields(f) + RefsInFields(g)
    decreases g
  {
    if g.Field? {
      PutRefs(f, g.key, g.value);
      MergeRefs(Put(f, g.key, g.value), g.rest);
    }
  }

  lemma {:induction false} WithoutRefs(f: Fields, keys: set<string>)
    ensures RefsInFields(Without(f, keys)) <= RefsInFields(f)
  {
    if f.Field? { WithoutRefs(f.rest, keys); }
  }

  lemma {:induction false} StringsHaveNoRefs(strings: seq<string>)
    ensures RefsInItems(ItemsOf(strings)) == {}
  {
    if strings != [] { StringsHaveNoRefs(strings[1..]); }
  }

  /* ---------- Resolution ---------- */

  /** The component schemas of the document, by name. */
  type Components = map<string, Json>

  /** Every reference that can be met from a schema: its own and those of all components. */
  function Reach(schema: Json, doc: Components): set<string> {
    RefsIn(schema) + set n, r | n in doc && r in RefsIn(doc[n]) :: r
  }

  function Component(doc: Components, ref: string): Json {
    var name := LastSegment(ref);
    if name in doc then doc[name] else Obj(NoFields)
  }

  function FieldsOf(j: Json): Fields {
    if j.Obj? then j.fields else NoFields
  }

  function ItemsIn(j: Json): Items {
    if j.Arr? then j.items else NoItems
  }

  predicate Before(a: string, b: string) {
    if a == "" then b != ""
    else if b == "" then false
    else a[0] < b[0] || (a[0] == b[0] && Before(a[1..], b[1..]))
  }

  /** Adds a name to a sorted list without repetitions. */
  function InsertName(names: seq<string>, x: string): (r: seq<string>)
    ensures forall n :: n in r <==> n == x || n in names
  {
    if names == [] then [x]
    else if names[0] == x then names
    else if Before(x, names[0]) then [x] + names
    else [names[0]] + InsertName(names[1..], x)
  }

  function SortedNames(names: seq<string>): (r: seq<string>)
    ensures forall n :: n in r <==> n in names
  {
    if names == [] then [] else InsertName(SortedNames(names[1..]), names[0])
  }

  /** What is gathered from the parts of an allOf. */
  datatype Gathered = Gathered(merged: Fields, properties: Fields, required: seq<string>)

  const NOTHING := Gathered(NoFields, NoFields, [])

  function Gather(acc: Gathered, item: Fields): Gathered {
    Gathered(Merge(acc.merged, Without(item, {"properties", "required"})),
             Merge(acc.properties, FieldsOf(GetOr(item, "properties", Null))),
             acc.required + Strings(ItemsIn(GetOr(item, "required", Null))))
  }

  /** A schema with its component references followed; a reference met twice reads as empty. */
  function Resolve(schema: Json, doc: Components, seen: set<string>): (r: Fields)
    ensures ComponentRef(r) == None
    decreases Reach(schema, doc) - seen, Size(schema), 0
  {
    if !schema.Obj? then NoFields
    else
      var f := schema.fields;
      var ref := ComponentRef(f);
      if ref.Some? then
        if ref.value in seen then NoFields
        else
          RefIsInReach(schema, doc);
          Merge(Resolve(Component(doc, ref.value), doc, seen + {ref.value}), Without(f, {"$ref"}))
      else if Has(f, "allOf") then
        GetRefs(f, "allOf");
        var all := ResolveParts(ItemsIn(Get(f, "allOf").value), doc, seen, NOTHING);
        Put(Put(all.merged, "properties", Obj(all.properties)), "required", Arr(ItemsOf(SortedNames(all.required))))
      else f
  }

  function ResolveParts(parts: Items, doc: Components, seen: set<string>, acc: Gathered): (r: Gathered)
    requires ComponentRef(acc.merged) == None
    ensures ComponentRef(r.merged) == None
    decreases Reach(Arr(parts), doc) - seen, ItemsSize(parts), 1
  {
    match parts
    case NoItems => acc
    case Item(head, tail) =>
      PartsAreInReach(parts, doc, seen);
      ResolveParts(tail, doc, seen, Gather(acc, Resolve(head, doc, seen)))
  }

  lemma RefIsInReach(schema: Json, doc: Components)
    requires schema.Obj? && ComponentRef(schema.fields).Some?
    ensures ComponentRef(schema.fields).value in Reach(schema, doc)
    ensures Reach(Component(doc, ComponentRef(schema.fields).value), doc) <= Reach(schema, doc)
  {
    GetRefs(schema.fields, "$ref");
  }

  lemma PartsAreInReach(parts: Items, doc: Components, seen: set<string>)
    requires parts.Item?
    ensures Reach(parts.head, doc) - seen <= Reach(Arr(parts), doc) - seen
    ensures Reach(Arr(parts.tail), doc) - seen <= Reach(Arr(parts), doc) - seen
  {
    assert RefsIn(Arr(parts)) == RefsInItems(parts) && RefsIn(Arr(parts.tail)) == RefsInItems(parts.tail);
  }

  /* ---------- What resolution does ---------- */

  /** A component that is only a reference to itself resolves to nothing. */
  lemma SelfReferenceIsEmpty(doc: Components, ref: string)
    requires IsComponentRef(ref) && LastSegment(ref) in doc
    requires doc[LastSegment(ref)] == Obj(Field("$ref", Str(ref), NoFields))
    ensures Resolve(Obj(Field("$ref", Str(ref), NoFields)), doc, {}) == NoFields
  {
    var f := Field("$ref", Str(ref), NoFields);
    assert Get(f, "$ref") == Some(Str(ref));
    assert Without(f, {"$ref"}) == NoFields;
    assert Resolve(Obj(f), doc, {ref}) == NoFields;
    assert {} + {ref} == {ref};
  }

  function PropertiesOf(f: Fields): Fields { FieldsOf(GetOr(f, "properties", Null)) }

  function RequiredOf(f: Fields): seq<string> { Strings(ItemsIn(GetOr(f, "required", Null))) }

  /** Some part of an allOf has the property (or requires the name). */
  predicate SomePartHas(parts: Items, doc: Components, seen: set<string>, x: string) {
    parts.Item? && (Has(PropertiesOf(Resolve(parts.head, doc, seen)), x) || SomePartHas(parts.tail, doc, seen, x))
  }

  predicate SomePartRequires(parts: Items, doc: Components, seen: set<string>, x: string) {
    parts.Item? && (x in RequiredOf(Resolve(parts.head, doc, seen)) || SomePartRequires(parts.tail, doc, seen, x))
  }

  lemma {:induction false} ResolvePartsUnites(parts: Items, doc: Components, seen: set<string>, acc: Gathered, x: string)
    requires ComponentRef(acc.merged) == None
    ensures var all := ResolveParts(parts, doc, seen, acc);
            && (Has(all.properties, x) <==> Has(acc.properties, x) || SomePartHas(parts, doc, seen, x))
            && (x in all.required <==> x in acc.required || SomePartRequires(parts, doc, seen, x))
    decreases parts
  {
    if parts.Item? {
      ResolvePartsUnites(parts.tail, doc, seen, Gather(acc, Resolve(parts.head, doc, seen)), x);
    }
  }

  lemma NothingHas(x: string)
    ensures !Has(NoFields, x)
  {
  }

  lemma GatheredFields(merged: Fields, properties: Fields, required: seq<string>)
    ensures var r := Put(Put(merged, "properties", Obj(properties)), "required", Arr(ItemsOf(required)));
            PropertiesOf(r) == properties && RequiredOf(r) == required
  {
    hide Has, Get, Put, ItemsOf, Strings;
    var one := Put(merged, "properties", Obj(properties));
    assert Get(one, "properties") == Some(Obj(properties)) && Get(Put(one, "required", Arr(ItemsOf(required))), "properties") == Some(Obj(properties));
  }

  lemma AllOfUnfolds(f: Fields, doc: Components, seen: set<string>)
    requires ComponentRef(f) == None && Has(f, "allOf")
    ensures var all := ResolveParts(ItemsIn(Get(f, "allOf").value), doc, seen, NOTHING);
            Resolve(Obj(f), doc, seen) ==
            Put(Put(all.merged, "properties", Obj(all.properties)), "required", Arr(ItemsOf(SortedNames(all.required))))
  {
  }

  /** An allOf has exactly the properties of its parts, and requires exactly what some part requires. */
  lemma AllOfUnitesItsParts(f: Fields, doc: Components, seen: set<string>, x: string)
    requires ComponentRef(f) == None && Has(f, "allOf")
    ensures var r := Resolve(Obj(f), doc, seen); var parts := ItemsIn(Get(f, "allOf").value);
            && (Has(PropertiesOf(r), x) <==> SomePartHas(parts, doc, seen, x))
            && (x in RequiredOf(r) <==> SomePartRequires(parts, doc, seen, x))
  {
    var parts := ItemsIn(Get(f, "allOf").value);
    hide *;
    ResolvePartsUnites(parts, doc, seen, NOTHING, x);
    AllOfUnfolds(f, doc, seen);
    var all := ResolveParts(parts, doc, seen, NOTHING);
    GatheredFields(all.merged, all.properties, SortedNames(all.required));
    assert !Has(NoFields, x) by { NothingHas(x); }
  }
}
