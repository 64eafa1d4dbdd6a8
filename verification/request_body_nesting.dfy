/**
 Which schemas can be built at all: those that do not nest in themselves. Schemas nest through the
 properties whose value is not known and which are built recursively.
 */
module RequestBodyNesting {
  import opened Common
  import opened JsonValues
  import opened OpenapiSchema
  import opened RequestBody

  /* ---------- Nesting ---------- */

  /** The resolved schemas nested in an object with these properties. */
  function NestedIn(props: Fields, values: Values, doc: Components): set<Fields> {
    if props.NoFields? then {}
    else
      var child := Resolve(props.value, doc, {});
      (if NormalizeKey(props.key) !in values && ObjectLike(child) then {Resolve(Obj(child), doc, {})} else {})
      + NestedIn(props.rest, values, doc)
  }

  function Nested(node: Fields, values: Values, doc: Components): set<Fields> {
    if TypeOf(node) == Str("object") then NestedIn(PropertiesOf(node), values, doc) else {}
  }

  /** Nested schemas are at most depth levels deep. */
  ghost predicate Nests(node: Fields, values: Values, doc: Components, depth: nat)
    decreases depth
  {
    depth > 0 && forall child :: child in Nested(node, values, doc) ==> Nests(child, values, doc, depth - 1)
  }

  /** to is n levels below from. */
  ghost predicate Below(from: Fields, to: Fields, n: nat, values: Values, doc: Components)
    decreases n
  {
    if n == 0 then from == to
    else exists child :: child in Nested(from, values, doc) && Below(child, to, n - 1, values, doc)
  }

  /** to is nested in from, at some level. */
  ghost predicate Inside(from: Fields, to: Fields, values: Values, doc: Components) {
    exists n: nat :: n > 0 && Below(from, to, n, values, doc)
  }

  /** Some schema at or below node nests in itself. */
  ghost predicate Cyclic(node: Fields, values: Values, doc: Components) {
    exists inner, m: nat :: Below(node, inner, m, values, doc) && Inside(inner, inner, values, doc)
  }

  /* ---------- Building is nesting ---------- */

  /** A schema can be built exactly if its nesting is no deeper than the recursion. */
  lemma {:induction false} BuildIffNests(schema: Json, values: Values, doc: Components, path: string, depth: nat)
    ensures Build(schema, values, doc, path, depth).Some? <==> Nests(Resolve(schema, doc, {}), values, doc, depth)
    decreases depth, 0
  {
    var s := Resolve(schema, doc, {});
    hide Resolve, Build, Fill, TypeOf;
    if depth == 0 {
      UnbuiltAtZero(schema, values, doc, path);
    } else {
      BuildIsFill(schema, values, doc, path, depth);
      if TypeOf(s) == Str("object") {
        assert Nested(s, values, doc) == NestedIn(PropertiesOf(s), values, doc);
        FillIffNests(PropertiesOf(s), RequiredOf(s), values, doc, path, depth - 1, Filled(NoFields, []));
        assert Build(schema, values, doc, path, depth).Some? <==>
               forall child :: child in Nested(s, values, doc) ==> Nests(child, values, doc, depth - 1);
      } else {
        assert Nested(s, values, doc) == {};
      }
    }
  }

  lemma UnbuiltAtZero(schema: Json, values: Values, doc: Components, path: string)
    ensures Build(schema, values, doc, path, 0) == None
  {
  }

  lemma BuildIsFill(schema: Json, values: Values, doc: Components, path: string, depth: nat)
    requires depth > 0
    ensures var s := Resolve(schema, doc, {});
            Build(schema, values, doc, path, depth).Some? <==>
            (TypeOf(s) == Str("object") ==>
               Fill(PropertiesOf(s), RequiredOf(s), values, doc, path, depth - 1, Filled(NoFields, [])).Some?)
  {
    hide Resolve, Fill, TypeOf;
  }

  lemma {:induction false} FillIffNests(
      props: Fields, required: seq<string>, values: Values, doc: Components, path: string, depth: nat, acc: Filled)
    ensures Fill(props, required, values, doc, path, depth, acc).Some? <==>
            forall child :: child in NestedIn(props, values, doc) ==> Nests(child, values, doc, depth)
    decreases depth, 1, props
  {
    hide Resolve, Build, FillOne, Nests;
    if props.Field? {
      var child := Resolve(props.value, doc, {});
      FillOneIsBuild(props.key, props.value, required, values, doc, path, depth, acc);
      if NormalizeKey(props.key) !in values && ObjectLike(child) {
        BuildIffNests(Obj(child), values, doc, path + "." + props.key, depth);
        assert Resolve(Obj(child), doc, {}) in NestedIn(props, values, doc);
      }
      var step := FillOne(props.key, props.value, required, values, doc, path, depth, acc);
      if step.Some? { FillIffNests(props.rest, required, values, doc, path, depth, step.value); }
    }
  }

  lemma FillOneIsBuild(
      name: string, child: Json, required: seq<string>, values: Values, doc: Components, path: string, depth: nat, acc: Filled)
    ensures FillOne(name, child, required, values, doc, path, depth, acc).Some? <==>
            (NormalizeKey(name) !in values && ObjectLike(Resolve(child, doc, {})) ==>
               Build(Obj(Resolve(child, doc, {})), values, doc, path + "." + name, depth).Some?)
  {
    hide Resolve, Build;
  }

  /* ---------- A cycle is never built ---------- */

  lemma {:induction false} NestsBelow(node: Fields, inner: Fields, n: nat, values: Values, doc: Components, depth: nat)
    requires Nests(node, values, doc, depth) && Below(node, inner, n, values, doc)
    ensures n < depth && Nests(inner, values, doc, depth - n)
    decreases n
  {
    hide Nested;
    if n > 0 {
      var child :| child in Nested(node, values, doc) && Below(child, inner, n - 1, values, doc);
      NestsBelow(child, inner, n - 1, values, doc, depth - 1);
    }
  }

  lemma {:induction false} CycleHasNoDepth(inner: Fields, n: nat, values: Values, doc: Components, depth: nat)
    requires n > 0 && Below(inner, inner, n, values, doc)
    ensures !Nests(inner, values, doc, depth)
    decreases depth
  {
    hide Nested, Below;
    if Nests(inner, values, doc, depth) {
      NestsBelow(inner, inner, n, values, doc, depth);
      CycleHasNoDepth(inner, n, values, doc, depth - n);
      assert false;
    }
  }

  lemma CyclicHasNoDepth(node: Fields, values: Values, doc: Components, depth: nat)
    requires Cyclic(node, values, doc)
    ensures !Nests(node, values, doc, depth)
  {
    hide Nested, Below, Nests;
    var inner, m: nat :| Below(node, inner, m, values, doc) && Inside(inner, inner, values, doc);
    var n: nat :| n > 0 && Below(inner, inner, n, values, doc);
    if Nests(node, values, doc, depth) {
      NestsBelow(node, inner, m, values, doc, depth);
      CycleHasNoDepth(inner, n, values, doc, depth - m);
    }
  }

  /* ---------- Without a cycle the nesting is finite ---------- */

  lemma {:induction false} BelowThen(a: Fields, b: Fields, c: Fields, n: nat, values: Values, doc: Components)
    requires Below(a, b, n, values, doc) && c in Nested(b, values, doc)
    ensures Below(a, c, n + 1, values, doc)
    decreases n
  {
    hide Nested;
    if n == 0 {
      assert Below(c, c, 0, values, doc);
    } else {
      var child :| child in Nested(a, values, doc) && Below(child, b, n - 1, values, doc);
      BelowThen(child, b, c, n - 1, values, doc);
    }
  }

  /** The nodes are among these, and so is everything nested in them. */
  ghost predicate Closed(nodes: set<Fields>, values: Values, doc: Components) {
    forall f :: f in nodes ==> Nested(f, values, doc) <= nodes
  }

  /** Going down from root, with seen already above node. */
  lemma {:induction false} NoCycleNests(
      root: Fields, node: Fields, seen: set<Fields>, nodes: set<Fields>, m: nat, values: Values, doc: Components)
    requires Closed(nodes, values, doc) && node in nodes && seen <= nodes && !Cyclic(root, values, doc)
    requires Below(root, node, m, values, doc)
    requires forall above :: above in seen ==> Inside(above, node, values, doc)
    ensures Nests(node, values, doc, |nodes - seen|)
    decreases |nodes - seen|
  {
    hide Nested;
    assert node in seen ==> Inside(node, node, values, doc);
    assert node !in seen;
    assert nodes - (seen + {node}) == (nodes - seen) - {node};
    forall child | child in Nested(node, values, doc) ensures Nests(child, values, doc, |nodes - seen| - 1) {
      BelowThen(root, node, child, m, values, doc);
      assert Below(node, node, 0, values, doc);
      BelowThen(node, node, child, 0, values, doc);
      assert Inside(node, child, values, doc);
      forall above | above in seen ensures Inside(above, child, values, doc) {
        var n: nat :| n > 0 && Below(above, node, n, values, doc);
        BelowThen(above, node, child, n, values, doc);
      }
      NoCycleNests(root, child, seen + {node}, nodes, m + 1, values, doc);
    }
  }

  /* ---------- Only finitely many schemas are ever met ---------- */

  /** A value and everything in it. */
  function Parts(j: Json): (parts: set<Json>)
    ensures j in parts
  {
    {j} + (if j.Arr? then PartsOfItems(j.items) else if j.Obj? then PartsOfFields(j.fields) else {})
  }

  function PartsOfItems(items: Items): set<Json> {
    if items.NoItems? then {} else Parts(items.head) + PartsOfItems(items.tail)
  }

  function PartsOfFields(f: Fields): set<Json> {
    if f.NoFields? then {} else Parts(f.value) + PartsOfFields(f.rest)
  }

  function ItemValues(items: Items): set<Json> {
    if items.NoItems? then {} else {items.head} + ItemValues(items.tail)
  }

  function FieldValues(f: Fields): set<Json> {
    if f.NoFields? then {} else {f.value} + FieldValues(f.rest)
  }

  /** Whatever is directly in a part is a part. */
  ghost predicate Whole(parts: set<Json>) {
    && (forall items :: Arr(items) in parts ==> ItemValues(items) <= parts)
    && (forall fields :: Obj(fields) in parts ==> FieldValues(fields) <= parts)
  }

  lemma {:induction false} PartsAreWhole(j: Json)
    ensures Whole(Parts(j))
    decreases j, 0
  {
    if j.Arr? {
      PartsOfItemsAreWhole(j.items);
    } else if j.Obj? {
      PartsOfFieldsAreWhole(j.fields);
    }
  }

  lemma {:induction false} PartsOfItemsAreWhole(items: Items)
    ensures Whole(PartsOfItems(items)) && ItemValues(items) <= PartsOfItems(items)
    decreases items, 0
  {
    if items.Item? {
      PartsAreWhole(items.head);
      PartsOfItemsAreWhole(items.tail);
    }
  }

  lemma {:induction false} PartsOfFieldsAreWhole(f: Fields)
    ensures Whole(PartsOfFields(f)) && FieldValues(f) <= PartsOfFields(f)
    decreases f, 0
  {
    if f.Field? {
      PartsAreWhole(f.value);
      PartsOfFieldsAreWhole(f.rest);
    }
  }

  /** The values of a request schema and of the components it may refer to. */
  function Material(schema: Json, doc: Components): set<Json> {
    Parts(schema) + Parts(Obj(NoFields)) + set n, j | n in doc && j in Parts(doc[n]) :: j
  }

  ghost predicate HoldsDoc(parts: set<Json>, doc: Components) {
    Whole(parts) && Obj(NoFields) in parts && forall n :: n in doc ==> doc[n] in parts
  }

  lemma MaterialHoldsDoc(schema: Json, doc: Components)
    ensures HoldsDoc(Material(schema, doc), doc) && schema in Material(schema, doc)
  {
    var parts := Material(schema, doc);
    PartsAreWhole(schema);
    PartsAreWhole(Obj(NoFields));
    hide Parts;
    forall items | Arr(items) in parts ensures ItemValues(items) <= parts {
      if n :| n in doc && Arr(items) in Parts(doc[n]) { PartsAreWhole(doc[n]); }
    }
    forall fields | Obj(fields) in parts ensures FieldValues(fields) <= parts {
      if n :| n in doc && Obj(fields) in Parts(doc[n]) { PartsAreWhole(doc[n]); }
    }
    forall n | n in doc ensures doc[n] in parts { assert doc[n] in Parts(doc[n]); }
  }

  /** A resolved schema whose fields come from parts; only its properties and required lists may be newly made. */
  ghost predicate MadeOf(f: Fields, parts: set<Json>) {
    && FieldValues(PropertiesOf(f)) <= parts
    && forall k :: Has(f, k) && k != "properties" && k != "required" ==> Get(f, k).value in parts
  }

  lemma {:induction false} GetIsAValue(f: Fields, k: string)
    requires Has(f, k)
    ensures Get(f, k).value in FieldValues(f)
  {
    if Has(f.rest, k) { GetIsAValue(f.rest, k); }
  }

  lemma {:induction false} PutValues(f: Fields, k: string, v: Json)
    ensures FieldValues(Put(f, k, v)) <= FieldValues(f) + {v}
  {
    if f.Field? && !(f.key == k && !Has(f.rest, k)) { PutValues(f.rest, k, v); }
  }

  lemma {:induction false} MergeValues(f: Fields, g: Fields)
    ensures FieldValues(Merge(f, g)) <= FieldValues(f) + FieldValues(g)
    decreases g
  {
    if g.Field? {
      PutValues(f, g.key, g.value);
      MergeValues(Put(f, g.key, g.value), g.rest);
    }
  }

  /** The fields of a part are made of parts. */
  lemma PartIsMadeOf(f: Fields, parts: set<Json>)
    requires Whole(parts) && Obj(f) in parts
    ensures MadeOf(f, parts)
  {
    hide Get, Has, FieldValues;
    forall k | Has(f, k) ensures Get(f, k).value in parts { GetIsAValue(f, k); }
    assert FieldValues(NoFields) == {} by { NoValues(); }
  }

  lemma NoValues()
    ensures FieldValues(NoFields) == {}
  {
  }

  lemma MergedIsMadeOf(f: Fields, g: Fields, parts: set<Json>)
    requires MadeOf(f, parts) && MadeOf(g, parts)
    ensures MadeOf(Merge(f, Without(g, {"$ref"})), parts)
  {
    hide Get, Has, FieldValues, Merge, Without;
    var r := Merge(f, Without(g, {"$ref"}));
    NoValues();
    forall k | Has(r, k) && k != "properties" && k != "required" ensures Get(r, k).value in parts {
      assert Get(r, k) == if Has(Without(g, {"$ref"}), k) then Get(g, k) else Get(f, k);
    }
    assert "properties" != "$ref";
    assert Get(r, "properties") == if Has(g, "properties") then Get(g, "properties") else Get(f, "properties");
  }

  ghost predicate GatheredFrom(g: Gathered, parts: set<Json>) {
    && FieldValues(g.properties) <= parts
    && forall k :: Has(g.merged, k) && k != "properties" && k != "required" ==> Get(g.merged, k).value in parts
  }

  lemma GatherKeepsParts(acc: Gathered, item: Fields, parts: set<Json>)
    requires GatheredFrom(acc, parts) && MadeOf(item, parts)
    ensures GatheredFrom(Gather(acc, item), parts)
  {
    hide Get, Has, FieldValues, Merge, Without, Strings;
    MergeValues(acc.properties, FieldsOf(GetOr(item, "properties", Null)));
    var own := Without(item, {"properties", "required"});
    var r := Merge(acc.merged, own);
    forall k | Has(r, k) && k != "properties" && k != "required" ensures Get(r, k).value in parts {
      assert k !in {"properties", "required"};
      assert Get(r, k) == if Has(own, k) then Get(item, k) else Get(acc.merged, k);
    }
  }

  lemma GatheredIsMadeOf(g: Gathered, parts: set<Json>)
    requires GatheredFrom(g, parts)
    ensures MadeOf(Put(Put(g.merged, "properties", Obj(g.properties)), "required", Arr(ItemsOf(SortedNames(g.required)))), parts)
  {
    hide Get, Has, FieldValues, Put, ItemsOf, SortedNames, Strings;
    var one := Put(g.merged, "properties", Obj(g.properties));
    var r := Put(one, "required", Arr(ItemsOf(SortedNames(g.required))));
    GatheredFields(g.merged, g.properties, SortedNames(g.required));
    forall k | Has(r, k) && k != "properties" && k != "required" ensures Get(r, k).value in parts {
      assert Get(r, k) == Get(one, k) && Get(one, k) == Get(g.merged, k);
    }
  }

  lemma {:induction false} ResolveIsMadeOf(schema: Json, doc: Components, seen: set<string>, parts: set<Json>)
    requires HoldsDoc(parts, doc) && schema in parts
    ensures MadeOf(Resolve(schema, doc, seen), parts)
    decreases Reach(schema, doc) - seen, Size(schema), 0
  {
    PartIsMadeOf(NoFields, parts);
    if schema.Obj? {
      var f := schema.fields;
      var ref := ComponentRef(f);
      PartIsMadeOf(f, parts);
      if ref.Some? {
        if ref.value !in seen {
          RefIsInReach(schema, doc);
          ResolveIsMadeOf(Component(doc, ref.value), doc, seen + {ref.value}, parts);
          MergedIsMadeOf(Resolve(Component(doc, ref.value), doc, seen + {ref.value}), f, parts);
        }
      } else if Has(f, "allOf") {
        GetRefs(f, "allOf");
        AllOfIsMadeOf(f, doc, seen, parts);
      }
    }
  }

  lemma {:induction false} AllOfIsMadeOf(f: Fields, doc: Components, seen: set<string>, parts: set<Json>)
    requires ComponentRef(f) == None && Has(f, "allOf") && HoldsDoc(parts, doc) && Get(f, "allOf").value in parts
    ensures MadeOf(Resolve(Obj(f), doc, seen), parts)
    decreases Reach(Get(f, "allOf").value, doc) - seen, Size(Get(f, "allOf").value), 1
  {
    var items := ItemsIn(Get(f, "allOf").value);
    AllOfUnfolds(f, doc, seen);
    assert ItemValues(items) <= parts;
    PartsAreMadeOf(items, doc, seen, NOTHING, parts);
    GatheredIsMadeOf(ResolveParts(items, doc, seen, NOTHING), parts);
  }

  lemma {:induction false} PartsAreMadeOf(items: Items, doc: Components, seen: set<string>, acc: Gathered, parts: set<Json>)
    requires ComponentRef(acc.merged) == None
    requires HoldsDoc(parts, doc) && ItemValues(items) <= parts && GatheredFrom(acc, parts)
    ensures GatheredFrom(ResolveParts(items, doc, seen, acc), parts)
    decreases Reach(Arr(items), doc) - seen, ItemsSize(items), 1
  {
    if items.Item? {
      PartsAreInReach(items, doc, seen);
      ResolveIsMadeOf(items.head, doc, seen, parts);
      GatherKeepsParts(acc, Resolve(items.head, doc, seen), parts);
      PartsAreMadeOf(items.tail, doc, seen, Gather(acc, Resolve(items.head, doc, seen)), parts);
    }
  }

  /** A resolved schema made of parts resolves again to one. */
  lemma ResolvedAgainIsMadeOf(f: Fields, doc: Components, parts: set<Json>)
    requires HoldsDoc(parts, doc) && MadeOf(f, parts) && ComponentRef(f) == None
    ensures MadeOf(Resolve(Obj(f), doc, {}), parts)
  {
    if Has(f, "allOf") {
      AllOfIsMadeOf(f, doc, {}, parts);
    }
  }

  /** The schemas nested anywhere, for all that can be made of parts. */
  function Children(parts: set<Json>, doc: Components): set<Fields> {
    set v | v in parts :: Resolve(Obj(Resolve(v, doc, {})), doc, {})
  }

  lemma {:induction false} NestedInAreChildren(props: Fields, values: Values, doc: Components, parts: set<Json>)
    requires FieldValues(props) <= parts
    ensures NestedIn(props, values, doc) <= Children(parts, doc)
  {
    hide Resolve;
    if props.Field? { NestedInAreChildren(props.rest, values, doc, parts); }
  }

  /** Finitely many schemas, with everything nested in them. */
  lemma SchemasAreFinite(schema: Json, values: Values, doc: Components) returns (nodes: set<Fields>)
    ensures Resolve(schema, doc, {}) in nodes && Closed(nodes, values, doc)
  {
    hide Resolve, MadeOf, HoldsDoc, Material;
    var parts := Material(schema, doc);
    nodes := {Resolve(schema, doc, {})} + Children(parts, doc);
    MaterialHoldsDoc(schema, doc);
    forall f | f in nodes ensures Nested(f, values, doc) <= nodes {
      if f == Resolve(schema, doc, {}) {
        ResolveIsMadeOf(schema, doc, {}, parts);
      } else {
        var v :| v in parts && f == Resolve(Obj(Resolve(v, doc, {})), doc, {});
        ResolveIsMadeOf(v, doc, {}, parts);
        ResolvedAgainIsMadeOf(Resolve(v, doc, {}), doc, parts);
      }
      PropertiesAreParts(f, parts);
      NestedInAreChildren(PropertiesOf(f), values, doc, parts);
    }
  }

  lemma PropertiesAreParts(f: Fields, parts: set<Json>)
    requires MadeOf(f, parts)
    ensures FieldValues(PropertiesOf(f)) <= parts
  {
  }

  /* ---------- The condition ---------- */

  /** Given recursion enough, a schema is built exactly if no schema at or below it nests in itself. */
  lemma BuiltIffAcyclic(schema: Json, values: Values, doc: Components, path: string)
    ensures (exists depth :: Build(schema, values, doc, path, depth).Some?) <==> !Cyclic(Resolve(schema, doc, {}), values, doc)
  {
    hide *;
    var root := Resolve(schema, doc, {});
    if depth :| Build(schema, values, doc, path, depth).Some? {
      BuildIffNests(schema, values, doc, path, depth);
      if Cyclic(root, values, doc) { CyclicHasNoDepth(root, values, doc, depth); }
    }
    if !Cyclic(root, values, doc) {
      var nodes := SchemasAreFinite(schema, values, doc);
      BelowItself(root, values, doc);
      NoCycleNests(root, root, {}, nodes, 0, values, doc);
      BuildIffNests(schema, values, doc, path, |nodes - {}|);
    }
  }

  lemma BelowItself(node: Fields, values: Values, doc: Components)
    ensures Below(node, node, 0, values, doc)
  {
  }

  /** Without a cycle, every recursion from some depth on builds the same. */
  lemma AcyclicIsBuilt(schema: Json, values: Values, doc: Components, path: string) returns (depth: nat)
    requires !Cyclic(Resolve(schema, doc, {}), values, doc)
    ensures Build(schema, values, doc, path, depth).Some?
  {
    hide *;
    BuiltIffAcyclic(schema, values, doc, path);
    depth :| Build(schema, values, doc, path, depth).Some?;
  }

  /** An object schema with an unknown property that leads back to it is never built. */
  lemma SelfReferenceIsNeverBuilt(schema: Json, p: string, values: Values, doc: Components, path: string, depth: nat)
    requires var s := Resolve(schema, doc, {});
             TypeOf(s) == Str("object") && Leads(s, p, s, values, doc)
    ensures Build(schema, values, doc, path, depth) == None
  {
    hide Resolve, TypeOf, Build, Leads, Nests;
    var s := Resolve(schema, doc, {});
    LeadsIsNested(s, p, s, values, doc);
    assert Below(s, s, 0, values, doc) && Below(s, s, 1, values, doc);
    assert Cyclic(s, values, doc);
    CyclicHasNoDepth(s, values, doc, depth);
    BuildIffNests(schema, values, doc, path, depth);
  }

  /** So are two that lead to each other. */
  lemma MutualReferenceIsNeverBuilt(
      schema: Json, p: string, other: Fields, q: string, values: Values, doc: Components, path: string, depth: nat)
    requires var s := Resolve(schema, doc, {});
             && TypeOf(s) == Str("object") && TypeOf(other) == Str("object")
             && Leads(s, p, other, values, doc) && Leads(other, q, s, values, doc)
    ensures Build(schema, values, doc, path, depth) == None
  {
    hide Resolve, TypeOf, Build, Leads, Nests;
    var s := Resolve(schema, doc, {});
    LeadsIsNested(s, p, other, values, doc);
    LeadsIsNested(other, q, s, values, doc);
    assert Below(s, s, 0, values, doc) && Below(other, s, 1, values, doc) && Below(s, s, 2, values, doc);
    assert Cyclic(s, values, doc);
    CyclicHasNoDepth(s, values, doc, depth);
    BuildIffNests(schema, values, doc, path, depth);
  }

  /** Property p of f has no known value and is built recursively from the schema to. */
  predicate Leads(f: Fields, p: string, to: Fields, values: Values, doc: Components) {
    && NormalizeKey(p) !in values && Has(PropertiesOf(f), p)
    && var child := Resolve(Get(PropertiesOf(f), p).value, doc, {});
       ObjectLike(child) && Resolve(Obj(child), doc, {}) == to
  }

  lemma LeadsIsNested(f: Fields, p: string, to: Fields, values: Values, doc: Components)
    requires TypeOf(f) == Str("object") && Leads(f, p, to, values, doc)
    ensures to in Nested(f, values, doc)
  {
    hide Resolve, TypeOf;
    PropertyIsNested(PropertiesOf(f), p, values, doc);
  }

  lemma {:induction false} PropertyIsNested(props: Fields, p: string, values: Values, doc: Components)
    requires NormalizeKey(p) !in values && Has(props, p) && ObjectLike(Resolve(Get(props, p).value, doc, {}))
    ensures Resolve(Obj(Resolve(Get(props, p).value, doc, {})), doc, {}) in NestedIn(props, values, doc)
  {
    hide Resolve, ObjectLike;
    if Has(props.rest, p) { PropertyIsNested(props.rest, p, values, doc); }
  }

  /** A component whose only property refers to the component itself is never built. */
  lemma RecursiveComponentIsNeverBuilt(
      ref: string, p: string, values: Values, doc: Components, path: string, depth: nat)
    requires IsComponentRef(ref) && LastSegment(ref) in doc && NormalizeKey(p) !in values
    requires doc[LastSegment(ref)] == Obj(Field("properties", Obj(Field(p, Obj(Field("$ref", Str(ref), NoFields)), NoFields)), NoFields))
    ensures Build(Obj(Field("$ref", Str(ref), NoFields)), values, doc, path, depth) == None
  {
    var to := Obj(Field("$ref", Str(ref), NoFields));
    var node := Field("properties", Obj(Field(p, to, NoFields)), NoFields);
    ReferenceResolves(ref, node, doc);
    assert Get(node, "properties") == Some(Obj(Field(p, to, NoFields)));
    assert Get(PropertiesOf(node), p) == Some(to);
    assert Resolve(Obj(node), doc, {}) == node;
    SelfReferenceIsNeverBuilt(to, p, values, doc, path, depth);
  }

  lemma ReferenceResolves(ref: string, node: Fields, doc: Components)
    requires IsComponentRef(ref) && LastSegment(ref) in doc && doc[LastSegment(ref)] == Obj(node)
    requires ComponentRef(node) == None && !Has(node, "allOf")
    ensures Resolve(Obj(Field("$ref", Str(ref), NoFields)), doc, {}) == node
  {
    var f := Field("$ref", Str(ref), NoFields);
    assert Get(f, "$ref") == Some(Str(ref));
    assert Without(f, {"$ref"}) == NoFields;
    assert Resolve(Obj(node), doc, {ref}) == node;
    assert {} + {ref} == {ref};
  }
}
