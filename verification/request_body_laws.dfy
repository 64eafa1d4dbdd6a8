/**
 What resolving a schema and building a body give, key by key and path by path.
 */
module RequestBodyLaws {
  import opened Common
  import opened JsonValues
  import opened OpenapiSchema
  import opened RequestBody

  /* ---------- Keys ---------- */

  /** A key is normalised character by character: letters in small, digits as they are, everything else not at all. */
  lemma {:induction false} KeysJoin(a: string, b: string)
    ensures NormalizeKey(a + b) == NormalizeKey(a) + NormalizeKey(b)
  {
    if a == "" {
      assert a + b == b;
    } else {
      assert (a + b)[1..] == a[1..] + b;
      KeysJoin(a[1..], b);
    }
  }

  lemma CharacterOfKey(c: char)
    ensures 'a' <= c <= 'z' || '0' <= c <= '9' ==> NormalizeKey([c]) == [c]
    ensures 'A' <= c <= 'Z' ==> NormalizeKey([c]) == [(c as int + 32) as char]
    ensures !('a' <= c <= 'z' || '0' <= c <= '9' || 'A' <= c <= 'Z') ==> NormalizeKey([c]) == ""
  {
    assert [c][1..] == "";
  }

  /** A repeated key stands for its last value. */
  lemma LastValueCounts(k: string, v: Json, rest: Fields, x: string)
    ensures Get(Field(k, v, rest), x) == if Has(rest, x) then Get(rest, x) else if x == k then Some(v) else None
    ensures Has(Field(k, v, rest), x) <==> x == k || Has(rest, x)
  {
  }

  /** What counts as true in a condition. */
  lemma TruthyIff(j: Json)
    ensures !Truthy(j) <==>
            j in {Null, Bool(false), Num(0.0), Str(""), Arr(NoItems), Obj(NoFields)}
  {
  }

  /* ---------- References ---------- */

  /** A reference counts if it is a text under $ref that points into the components. */
  lemma RefIs(f: Fields)
    ensures ComponentRef(f).Some? <==>
            Has(f, "$ref") && Get(f, "$ref").value.Str? && "#/components/schemas/" <= Get(f, "$ref").value.s
    ensures ComponentRef(f).Some? ==> Get(f, "$ref") == Some(Str(ComponentRef(f).value))
  {
    hide Has, Get;
  }

  /** The name has no slash, ends the text, and follows one if it is not all of it. */
  predicate EndsIn(s: string, name: string) {
    && (forall i :: 0 <= i < |name| ==> name[i] != '/')
    && |name| <= |s| && s[|s| - |name|..] == name && (|name| < |s| ==> s[|s| - |name| - 1] == '/')
  }

  /** The name of a component is what follows the last slash of the reference. */
  lemma {:induction false} SegmentIs(s: string)
    ensures EndsIn(s, LastSegment(s))
  {
    if s == "" || s[|s| - 1] == '/' {
      assert s[|s|..] == "";
    } else {
      hide EndsIn;
      SegmentIs(s[..|s| - 1]);
      SegmentAppended(s[..|s| - 1], s[|s| - 1], LastSegment(s[..|s| - 1]));
      assert s[..|s| - 1] + [s[|s| - 1]] == s;
    }
  }

  lemma SegmentAppended(init: string, c: char, name: string)
    requires c != '/' && EndsIn(init, name)
    ensures EndsIn(init + [c], name + [c])
  {
    var s := init + [c];
    assert s[|init| - |name|..] == init[|init| - |name|..] + [c];
  }

  /** A schema with a reference not met before is its component with the schema's own keys on top. */
  lemma ReferenceIsFollowed(f: Fields, doc: Components, seen: set<string>, x: string)
    requires ComponentRef(f).Some? && ComponentRef(f).value !in seen
    ensures var ref := ComponentRef(f).value;
            var component := if LastSegment(ref) in doc then doc[LastSegment(ref)] else Obj(NoFields);
            Get(Resolve(Obj(f), doc, seen), x) ==
            if Has(f, x) && x != "$ref" then Get(f, x) else Get(Resolve(component, doc, seen + {ref}), x)
  {
    hide Get, Has, Merge, Without, ComponentRef, LastSegment;
  }

  /** What is no object resolves to nothing, as does a reference met before; what neither refers nor combines is as it is. */
  lemma ResolvesAtOnce(schema: Json, doc: Components, seen: set<string>)
    ensures !schema.Obj? ==> Resolve(schema, doc, seen) == NoFields
    ensures schema.Obj? && ComponentRef(schema.fields).Some? && ComponentRef(schema.fields).value in seen ==>
              Resolve(schema, doc, seen) == NoFields
    ensures schema.Obj? && ComponentRef(schema.fields).None? && !Has(schema.fields, "allOf") ==>
              Resolve(schema, doc, seen) == schema.fields
  {
  }

  /* ---------- Combinations ---------- */

  /** The value that the last part with the property gives it. */
  function LastProperty(parts: Items, doc: Components, seen: set<string>, x: string): Option<Json> {
    if parts.NoItems? then None
    else if LastProperty(parts.tail, doc, seen, x).Some? then LastProperty(parts.tail, doc, seen, x)
    else Get(PropertiesOf(Resolve(parts.head, doc, seen)), x)
  }

  function LastKey(parts: Items, doc: Components, seen: set<string>, x: string): Option<Json> {
    if parts.NoItems? then None
    else if LastKey(parts.tail, doc, seen, x).Some? then LastKey(parts.tail, doc, seen, x)
    else Get(Resolve(parts.head, doc, seen), x)
  }

  lemma {:induction false} PartsGive(parts: Items, doc: Components, seen: set<string>, acc: Gathered, x: string)
    requires ComponentRef(acc.merged) == None
    ensures var all := ResolveParts(parts, doc, seen, acc);
            && Get(all.properties, x) ==
               (if LastProperty(parts, doc, seen, x).Some? then LastProperty(parts, doc, seen, x) else Get(acc.properties, x))
            && (x != "properties" && x != "required" ==>
                  Get(all.merged, x) ==
                  if LastKey(parts, doc, seen, x).Some? then LastKey(parts, doc, seen, x) else Get(acc.merged, x))
    decreases parts
  {
    if parts.Item? {
      hide Resolve, Gather, Get, ComponentRef, PropertiesOf;
      var item := Resolve(parts.head, doc, seen);
      GatherGives(acc, item, x);
      PartsGive(parts.tail, doc, seen, Gather(acc, item), x);
    }
  }

  lemma GatherGives(acc: Gathered, item: Fields, x: string)
    requires ComponentRef(acc.merged) == None && ComponentRef(item) == None
    ensures var next := Gather(acc, item);
            && ComponentRef(next.merged) == None
            && Get(next.properties, x) ==
               (if Get(PropertiesOf(item), x).Some? then Get(PropertiesOf(item), x) else Get(acc.properties, x))
            && (x != "properties" && x != "required" ==>
                  Get(next.merged, x) == if Get(item, x).Some? then Get(item, x) else Get(acc.merged, x))
  {
    hide Merge, Without, Get, Has, Strings;
  }

  lemma NothingHere(x: string)
    ensures ComponentRef(NOTHING.merged) == None && Get(NOTHING.merged, x) == None && Get(NOTHING.properties, x) == None
  {
  }

  /** In an allOf the last part that has a property, or any other key, decides it. */
  lemma LastPartDecides(f: Fields, doc: Components, seen: set<string>, x: string)
    requires ComponentRef(f) == None && Has(f, "allOf")
    ensures var r := Resolve(Obj(f), doc, seen); var parts := ItemsIn(Get(f, "allOf").value);
            && Get(PropertiesOf(r), x) == LastProperty(parts, doc, seen, x)
            && (x != "properties" && x != "required" ==> Get(r, x) == LastKey(parts, doc, seen, x))
  {
    hide *;
    var parts := ItemsIn(Get(f, "allOf").value);
    NothingHere(x);
    PartsGive(parts, doc, seen, NOTHING, x);
    AllOfUnfolds(f, doc, seen);
    var all := ResolveParts(parts, doc, seen, NOTHING);
    GatheredFields(all.merged, all.properties, SortedNames(all.required));
  }

  predicate Ascending(names: seq<string>) { forall i :: 0 <= i < |names| - 1 ==> Before(names[i], names[i + 1]) }

  lemma {:induction false} BeforeIsTotal(a: string, b: string)
    ensures Before(a, b) || a == b || Before(b, a)
  {
    if a != "" && b != "" {
      BeforeIsTotal(a[1..], b[1..]);
      if a[0] == b[0] && a[1..] == b[1..] { assert a == [a[0]] + a[1..] && b == [b[0]] + b[1..]; }
    }
  }

  /** The names agree up to a place where the first ends, or has the smaller character. */
  ghost predicate Precedes(a: string, b: string) {
    exists k :: 0 <= k <= |a| && k < |b| && a[..k] == b[..k] && (k == |a| || a[k] < b[k])
  }

  lemma {:induction false} BeforeIff(a: string, b: string)
    ensures Before(a, b) <==> Precedes(a, b)
  {
    if a == "" {
      if b != "" { assert a[..0] == b[..0]; }
    } else if b != "" {
      BeforeIff(a[1..], b[1..]);
      assert a == [a[0]] + a[1..] && b == [b[0]] + b[1..];
      if a[0] < b[0] {
        assert a[..0] == b[..0];
      } else if a[0] == b[0] {
        if k :| 0 <= k <= |a[1..]| && k < |b[1..]| && a[1..][..k] == b[1..][..k] && (k == |a[1..]| || a[1..][k] < b[1..][k]) {
          assert a[..k + 1] == [a[0]] + a[1..][..k] && b[..k + 1] == [b[0]] + b[1..][..k];
        }
        if k :| 0 <= k <= |a| && k < |b| && a[..k] == b[..k] && (k == |a| || a[k] < b[k]) {
          assert k > 0 && a[1..][..k - 1] == a[..k][1..] && b[1..][..k - 1] == b[..k][1..];
        }
      } else {
        GreaterIsNotBefore(a, b);
      }
    }
  }

  lemma GreaterIsNotBefore(a: string, b: string)
    requires a != "" && b != "" && a[0] > b[0]
    ensures !Precedes(a, b)
  {
    forall k | 0 < k <= |a| && k < |b| ensures a[..k] != b[..k] { assert a[..k][0] != b[..k][0]; }
  }

  lemma {:induction false} InsertAscends(names: seq<string>, x: string)
    requires Ascending(names)
    ensures Ascending(InsertName(names, x))
    ensures names != [] && InsertName(names, x)[0] != names[0] ==> InsertName(names, x)[0] == x
  {
    hide Before;
    if names != [] && names[0] != x && !Before(x, names[0]) {
      BeforeIsTotal(x, names[0]);
      var tail := names[1..];
      assert Ascending(tail) by { forall i | 0 <= i < |tail| - 1 ensures Before(tail[i], tail[i + 1]) { assert names[i + 1] == tail[i]; } }
      InsertAscends(tail, x);
      var r := InsertName(tail, x);
      if tail != [] && r[0] == tail[0] { assert Before(names[0], names[1]); }
    }
  }

  /** The required names of a combination come in order and once each. */
  lemma {:induction false} RequiredNamesAscend(names: seq<string>)
    ensures Ascending(SortedNames(names))
  {
    if names != [] {
      RequiredNamesAscend(names[1..]);
      InsertAscends(SortedNames(names[1..]), names[0]);
    }
  }

  /* ---------- Building ---------- */

  /** The type of a schema: the one it states or, if that is empty, object for one with properties and array for one with items. */
  lemma TypeIs(s: Fields)
    ensures var stated := if Has(s, "type") then Get(s, "type").value else Null;
            && (Truthy(stated) ==> TypeOf(s) == stated)
            && (!Truthy(stated) && Has(s, "properties") ==> TypeOf(s) == Str("object"))
            && (!Truthy(stated) && !Has(s, "properties") && Has(s, "items") ==> TypeOf(s) == Str("array"))
            && (!Truthy(stated) && !Has(s, "properties") && !Has(s, "items") ==> TypeOf(s) == stated)
            && (ObjectLike(s) <==> stated == Str("object") || Has(s, "properties"))
  {
    hide Has, Get;
  }

  /** What is built of a schema that is no object: an array is its default or empty; otherwise the first option if there are
      any; otherwise the default, and missing without one. */
  lemma SimpleBuildIs(schema: Json, values: Values, doc: Components, path: string, depth: nat)
    requires depth > 0 && TypeOf(Resolve(schema, doc, {})) != Str("object")
    ensures var s := Resolve(schema, doc, {}); var b := Build(schema, values, doc, path, depth);
            var default := if Has(s, "default") then Get(s, "default").value else Null;
            var options := if Has(s, "enum") then Get(s, "enum").value else Null;
            && b.Some?
            && (TypeOf(s) == Str("array") ==> b.value == Built(if default == Null then Arr(NoItems) else default, []))
            && (TypeOf(s) != Str("array") && options.Arr? && options.items.Item? ==> b.value == Built(options.items.head, []))
            && (TypeOf(s) != Str("array") && !Truthy(options) ==>
                  b.value == Built(default, if default == Null then [path] else []))
  {
    hide Resolve, Has, Get, TypeOf;
  }

  /** Paths reported below a property, and the path of the property itself. */
  predicate Reported(
      p: string, name: string, child: Json, required: seq<string>, values: Values, doc: Components, path: string, depth: nat)
  {
    var s := Resolve(child, doc, {});
    && NormalizeKey(name) !in values
    && if ObjectLike(s)
       then (var b := Build(Obj(s), values, doc, path + "." + name, depth); b.Some? && p in b.value.missing)
       else p == path + "." + name && name in required && !Has(s, "default")
  }

  predicate SomeReported(
      p: string, props: Fields, required: seq<string>, values: Values, doc: Components, path: string, depth: nat)
  {
    && props.Field?
    && (Reported(p, props.key, props.value, required, values, doc, path, depth)
        || SomeReported(p, props.rest, required, values, doc, path, depth))
  }

  lemma OneReports(
      p: string, name: string, child: Json, required: seq<string>, values: Values, doc: Components, path: string, depth: nat,
      acc: Filled)
    requires FillOne(name, child, required, values, doc, path, depth, acc).Some?
    ensures var r := FillOne(name, child, required, values, doc, path, depth, acc).value;
            p in r.missing <==> p in acc.missing || Reported(p, name, child, required, values, doc, path, depth)
  {
    hide Resolve, Build, ObjectLike;
  }

  /** The missing paths are exactly those of required properties with neither a known value nor a default, at any level. */
  lemma {:induction false} MissingPathsAre(
      p: string, props: Fields, required: seq<string>, values: Values, doc: Components, path: string, depth: nat, acc: Filled)
    requires Fill(props, required, values, doc, path, depth, acc).Some?
    ensures var r := Fill(props, required, values, doc, path, depth, acc).value;
            p in r.missing <==> p in acc.missing || SomeReported(p, props, required, values, doc, path, depth)
    decreases props
  {
    hide FillOne, Reported;
    if props.Field? {
      OneReports(p, props.key, props.value, required, values, doc, path, depth, acc);
      var step := FillOne(props.key, props.value, required, values, doc, path, depth, acc).value;
      MissingPathsAre(p, props.rest, required, values, doc, path, depth, step);
    }
  }

  /** The body of a request: none without a schema, none for a schema that is no object; otherwise what is built of it, less
      the top-level keys whose value is null. */
  lemma BodyIs(request: Json, values: Values, doc: Components, depth: nat)
    ensures var s := Resolve(request, doc, {}); var body := BuildBody(request, values, doc, depth);
            var built := Build(Obj(s), values, doc, "$", depth);
            var fit := GetOr(s, "type", Null) == Str("object") || Has(s, "$ref") || Has(s, "properties");
            && (s == NoFields ==> body == Some(Built(Obj(NoFields), ["REQUEST_SCHEMA_NOT_FOUND"])))
            && (s != NoFields && !fit ==> body == Some(Built(Obj(NoFields), ["REQUEST_SCHEMA_UNSUPPORTED"])))
            && (s != NoFields && fit ==>
                  && (body.Some? <==> built.Some?)
                  && (built.Some? ==> body.value.missing == built.value.missing)
                  && (built.Some? && !built.value.value.Obj? ==> body == built)
                  && (built.Some? && built.value.value.Obj? ==>
                        && body.value.value.Obj?
                        && forall x :: Get(body.value.value.fields, x) ==
                             if Get(built.value.value.fields, x) == Some(Null) then None else Get(built.value.value.fields, x)))
  {
    hide Resolve, Build, Get, Has, Without;
    var s := Resolve(request, doc, {});
    var built := Build(Obj(s), values, doc, "$", depth);
    if built.Some? && built.value.value.Obj? {
      forall x
        ensures Get(Without(built.value.value.fields, NullKeys(built.value.value.fields)), x) ==
                if Get(built.value.value.fields, x) == Some(Null) then None else Get(built.value.value.fields, x)
      {
        NullsGo(built.value.value.fields, x);
      }
    }
  }

  lemma NullsGo(f: Fields, x: string)
    ensures Get(Without(f, NullKeys(f)), x) == if Get(f, x) == Some(Null) then None else Get(f, x)
  {
    hide Get, Has, Without;
  }
}
