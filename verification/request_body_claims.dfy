/**
 What it means that nothing is missing from a built body, and where that promise ends.
 */
module RequestBodyClaims {
  import opened Common
  import opened JsonValues
  import opened OpenapiSchema
  import opened RequestBody
  import opened RequestBodyNesting

  /* ---------- Nothing missing means complete ---------- */

  lemma RequiredIsAssignedOrLacking(
      name: string, child: Json, required: seq<string>, values: Values, doc: Components, path: string, depth: nat, acc: Filled)
    requires FillOne(name, child, required, values, doc, path, depth, acc).Some? && name in required
    ensures Assigned(name, child, required, values, doc, path, depth).Some? || Lacking(name, child, required, values, doc, path, depth)
  {
    hide Resolve, Build;
  }

  /** With nothing missing, the loop has filled every required property, and nothing but properties. */
  lemma {:induction false} FillHasRequired(
      props: Fields, required: seq<string>, values: Values, doc: Components, path: string, depth: nat, acc: Filled, n: string)
    requires var r := Fill(props, required, values, doc, path, depth, acc); r.Some? && r.value.missing == []
    ensures acc.missing == []
    ensures var r := Fill(props, required, values, doc, path, depth, acc).value.fields;
            && (Has(acc.fields, n) || (Has(props, n) && n in required) ==> Has(r, n))
            && (Has(r, n) ==> Has(acc.fields, n) || Has(props, n))
    decreases props
  {
    hide FillOne, Assigned, Lacking;
    if props.Field? {
      FillOneMeaning(props.key, props.value, required, values, doc, path, depth, acc);
      if props.key in required {
        RequiredIsAssignedOrLacking(props.key, props.value, required, values, doc, path, depth, acc);
      }
      var step := FillOne(props.key, props.value, required, values, doc, path, depth, acc).value;
      FillHasRequired(props.rest, required, values, doc, path, depth, step, n);
    }
  }

  /** Every object built on the way has each of its required properties that it declares. */
  ghost predicate Complete(schema: Json, values: Values, doc: Components, path: string, depth: nat)
    decreases depth, 0, 0
  {
    var s := Resolve(schema, doc, {});
    var built := Build(schema, values, doc, path, depth);
    built.Some? && depth > 0 && TypeOf(s) == Str("object") ==>
      && built.value.value.Obj?
      && (forall n :: n in RequiredOf(s) && Has(PropertiesOf(s), n) ==> Has(built.value.value.fields, n))
      && CompleteBelow(PropertiesOf(s), values, doc, path, depth - 1)
  }

  ghost predicate CompleteBelow(props: Fields, values: Values, doc: Components, path: string, depth: nat)
    decreases depth, 1, props
  {
    props.Field? ==>
      var child := Resolve(props.value, doc, {});
      && (NormalizeKey(props.key) !in values && ObjectLike(child) ==>
            Complete(Obj(child), values, doc, path + "." + props.key, depth))
      && CompleteBelow(props.rest, values, doc, path, depth)
  }

  lemma {:induction false} NothingMissingAtDepth(schema: Json, values: Values, doc: Components, path: string, depth: nat)
    requires var b := Build(schema, values, doc, path, depth); b.Some? && b.value.missing == []
    ensures Complete(schema, values, doc, path, depth)
    decreases depth, 0, 0
  {
    var s := Resolve(schema, doc, {});
    if TypeOf(s) == Str("object") {
      var props, required := PropertiesOf(s), RequiredOf(s);
      BuildUnfolds(schema, values, doc, path, depth);
      hide Resolve, Build, Fill;
      FilledMeansCompleteBelow(props, required, values, doc, path, depth - 1, Filled(NoFields, []));
      forall n | n in required && Has(props, n) ensures Has(Build(schema, values, doc, path, depth).value.value.fields, n) {
        FillHasRequired(props, required, values, doc, path, depth - 1, Filled(NoFields, []), n);
      }
    }
  }

  /** An object schema is built by the loop over its properties. */
  lemma BuildUnfolds(schema: Json, values: Values, doc: Components, path: string, depth: nat)
    requires Build(schema, values, doc, path, depth).Some? && TypeOf(Resolve(schema, doc, {})) == Str("object")
    ensures var s := Resolve(schema, doc, {}); var b := Build(schema, values, doc, path, depth).value;
            && depth > 0
            && var filled := Fill(PropertiesOf(s), RequiredOf(s), values, doc, path, depth - 1, Filled(NoFields, []));
               filled.Some? && b == Built(Obj(filled.value.fields), filled.value.missing)
  {
    hide Resolve;
  }

  lemma {:induction false} FilledMeansCompleteBelow(
      props: Fields, required: seq<string>, values: Values, doc: Components, path: string, depth: nat, acc: Filled)
    requires var r := Fill(props, required, values, doc, path, depth, acc); r.Some? && r.value.missing == []
    ensures CompleteBelow(props, values, doc, path, depth)
    decreases depth, 1, props
  {
    if props.Field? {
      var step := FillOne(props.key, props.value, required, values, doc, path, depth, acc).value;
      FillHasRequired(props.rest, required, values, doc, path, depth, step, "");
      FilledMeansCompleteBelow(props.rest, required, values, doc, path, depth, step);
      var child := Resolve(props.value, doc, {});
      if NormalizeKey(props.key) !in values && ObjectLike(child) {
        NestedBuild(props.key, props.value, required, values, doc, path, depth, acc);
        NothingMissingAtDepth(Obj(child), values, doc, path + "." + props.key, depth);
      }
    }
  }

  lemma NestedBuild(
      name: string, child: Json, required: seq<string>, values: Values, doc: Components, path: string, depth: nat, acc: Filled)
    requires var r := FillOne(name, child, required, values, doc, path, depth, acc); r.Some? && r.value.missing == []
    requires NormalizeKey(name) !in values && ObjectLike(Resolve(child, doc, {}))
    ensures var b := Build(Obj(Resolve(child, doc, {})), values, doc, path + "." + name, depth);
            b.Some? && b.value.missing == []
  {
    hide Resolve, Build;
  }

  /** The promise covers declared properties only: a required name is present in the built object exactly if it is declared. */
  lemma RequiredIsPresentIffDeclared(schema: Json, values: Values, doc: Components, path: string, depth: nat, n: string)
    requires var b := Build(schema, values, doc, path, depth); b.Some? && b.value.missing == []
    requires TypeOf(Resolve(schema, doc, {})) == Str("object") && n in RequiredOf(Resolve(schema, doc, {}))
    ensures var b := Build(schema, values, doc, path, depth).value.value;
            b.Obj? && (Has(b.fields, n) <==> Has(PropertiesOf(Resolve(schema, doc, {})), n))
  {
    var s := Resolve(schema, doc, {});
    BuildUnfolds(schema, values, doc, path, depth);
    hide Resolve, Build;
    FillHasRequired(PropertiesOf(s), RequiredOf(s), values, doc, path, depth - 1, Filled(NoFields, []), n);
  }

  /* ---------- The body of a request ---------- */

  /** A property is in the built object exactly with its assigned value. */
  lemma BuiltHoldsAssigned(schema: Json, values: Values, doc: Components, path: string, depth: nat, n: string)
    requires Build(schema, values, doc, path, depth).Some? && TypeOf(Resolve(schema, doc, {})) == Str("object")
    requires Distinct(PropertiesOf(Resolve(schema, doc, {}))) && Has(PropertiesOf(Resolve(schema, doc, {})), n)
    ensures depth > 0
    ensures var s := Resolve(schema, doc, {}); var b := Build(schema, values, doc, path, depth).value;
            && b.value.Obj?
            && Get(b.value.fields, n) ==
               Assigned(n, Get(PropertiesOf(s), n).value, RequiredOf(s), values, doc, path, depth - 1)
            && (b.missing == [] <==> !SomeLacking(PropertiesOf(s), RequiredOf(s), values, doc, path, depth - 1))
  {
    var s := Resolve(schema, doc, {});
    BuildUnfolds(schema, values, doc, path, depth);
    hide Resolve, Build, Assigned, SomeLacking;
    FillMeaning(PropertiesOf(s), RequiredOf(s), values, doc, path, depth - 1, Filled(NoFields, []), n);
  }

  /** The builder's own value for a property is null: the known value is, or the default is, or the first option is of a
      nested schema that is neither an object nor an array. */
  predicate NullByItself(n: string, child: Json, values: Values, doc: Components) {
    var r := Resolve(child, doc, {});
    if NormalizeKey(n) in values then values[NormalizeKey(n)] == Null
    else if ObjectLike(r) then
      var s := Resolve(Obj(r), doc, {});
      && TypeOf(s) != Str("object") && TypeOf(s) != Str("array")
      && Truthy(GetOr(s, "enum", Null)) && FirstItem(GetOr(s, "enum", Null)) == Null
    else Get(r, "default") == Some(Null)
  }

  /** The schema a request is built from: resolved where it is looked up, and again where it is built. */
  function RequestSchema(request: Json, doc: Components): Fields {
    Resolve(Obj(Resolve(request, doc, {})), doc, {})
  }

  /** With nothing missing, a required and declared property reaches the request unless its value is null: it is then
      dropped without being reported. */
  lemma RequiredReachesTheBodyIff(request: Json, values: Values, doc: Components, depth: nat, n: string)
    requires var b := BuildBody(request, values, doc, depth); b.Some? && b.value.missing == []
    requires var s := RequestSchema(request, doc);
             && TypeOf(s) == Str("object") && n in RequiredOf(s)
             && Has(PropertiesOf(s), n) && Distinct(PropertiesOf(s))
    ensures var s := RequestSchema(request, doc); var b := BuildBody(request, values, doc, depth).value.value;
            b.Obj? && (Has(b.fields, n) <==> !NullByItself(n, Get(PropertiesOf(s), n).value, values, doc))
  {
    hide Resolve, TypeOf, PropertiesOf, RequiredOf, Get, Has, Without, Build, BuildBody, Assigned, NullByItself, Lacking, SomeLacking,
         Distinct, NullKeys;
    var schema := Obj(Resolve(request, doc, {}));
    var s := RequestSchema(request, doc);
    BodyUnfolds(request, values, doc, depth);
    BuiltHoldsAssigned(schema, values, doc, "$", depth, n);
    RequiredIsPresentIffDeclared(schema, values, doc, "$", depth, n);
    NotLacking(PropertiesOf(s), RequiredOf(s), values, doc, "$", depth - 1, n);
    AssignedIsNullIff(n, Get(PropertiesOf(s), n).value, RequiredOf(s), values, doc, "$", depth - 1);
    NullsAreDropped(Build(schema, values, doc, "$", depth).value.value.fields, n);
  }

  lemma NullsAreDropped(f: Fields, n: string)
    ensures Has(Without(f, NullKeys(f)), n) <==> Has(f, n) && Get(f, n) != Some(Null)
  {
    hide Get, Has, Without;
  }

  lemma {:induction false} NotLacking(
      props: Fields, required: seq<string>, values: Values, doc: Components, path: string, depth: nat, n: string)
    requires !SomeLacking(props, required, values, doc, path, depth) && Has(props, n) && Distinct(props)
    ensures !Lacking(n, Get(props, n).value, required, values, doc, path, depth)
  {
    hide Lacking;
    if Has(props.rest, n) { NotLacking(props.rest, required, values, doc, path, depth, n); }
  }

  lemma AssignedIsNullIff(
      n: string, child: Json, required: seq<string>, values: Values, doc: Components, path: string, depth: nat)
    requires Assigned(n, child, required, values, doc, path, depth).Some?
    requires !Lacking(n, child, required, values, doc, path, depth)
    ensures Assigned(n, child, required, values, doc, path, depth) == Some(Null) <==> NullByItself(n, child, values, doc)
  {
    var r := Resolve(child, doc, {});
    if ObjectLike(r) {
      BuiltIsNullIff(Obj(r), values, doc, path + "." + n, depth);
      hide Resolve, Build, TypeOf, ObjectLike, FirstItem, Truthy;
    } else {
      SimplePropertyIsNullIff(n, child, required, values, doc, path, depth);
      hide Resolve, Assigned;
    }
  }

  lemma BuiltIsNullIff(schema: Json, values: Values, doc: Components, path: string, depth: nat)
    ensures var b := Build(schema, values, doc, path, depth); var s := Resolve(schema, doc, {});
            b.Some? && b.value.missing == [] ==>
              (b.value.value == Null <==>
                 && TypeOf(s) != Str("object") && TypeOf(s) != Str("array")
                 && Truthy(GetOr(s, "enum", Null)) && FirstItem(GetOr(s, "enum", Null)) == Null)
  {
    hide Resolve, Fill, TypeOf, FirstItem;
  }

  /** An object schema with one property, required and with a null default. */
  function NullDefault(p: string): Fields {
    Field("type", Str("object"), Field("properties", Obj(Field(p, Obj(Field("default", Null, NoFields)), NoFields)),
      Field("required", Arr(Item(Str(p), NoItems)), NoFields)))
  }

  lemma NullDefaultFields(p: string)
    ensures var f := NullDefault(p);
            && TypeOf(f) == Str("object") && GetOr(f, "type", Null) == Str("object")
            && PropertiesOf(f) == Field(p, Obj(Field("default", Null, NoFields)), NoFields) && RequiredOf(f) == [p]
            && ComponentRef(f) == None && !Has(f, "allOf") && f != NoFields
  {
    var f2 := Field("required", Arr(Item(Str(p), NoItems)), NoFields);
    var f1 := Field("properties", Obj(Field(p, Obj(Field("default", Null, NoFields)), NoFields)), f2);
    assert Get(f2, "required") == Some(Arr(Item(Str(p), NoItems))) && !Has(f2, "properties") && !Has(f2, "type");
    assert Get(f1, "properties") == Some(f1.value) && Get(f1, "required") == Get(f2, "required") && !Has(f1, "type");
    assert !Has(f2, "$ref") && !Has(f1, "$ref") && !Has(f2, "allOf") && !Has(f1, "allOf");
    assert Strings(Item(Str(p), NoItems)) == [p] + Strings(NoItems);
  }

  lemma ResolvedAsItIs(f: Fields, doc: Components)
    requires ComponentRef(f) == None && !Has(f, "allOf")
    ensures Resolve(Obj(f), doc, {}) == f
  {
  }

  lemma NullDefaultIsFilled(p: string, values: Values, doc: Components)
    requires NormalizeKey(p) !in values
    ensures Fill(Field(p, Obj(Field("default", Null, NoFields)), NoFields), [p], values, doc, "$", 0, Filled(NoFields, []))
            == Some(Filled(Field(p, Null, NoFields), []))
  {
    var child := Field("default", Null, NoFields);
    ResolvedAsItIs(child, doc);
    assert Get(child, "default") == Some(Null);
    hide Resolve, Build;
  }

  /** Such a property is not in the body, and nothing is reported missing. */
  lemma NullDefaultIsDropped(p: string, values: Values, doc: Components)
    requires NormalizeKey(p) !in values
    ensures var s := RequestSchema(Obj(NullDefault(p)), doc);
            && p in RequiredOf(s) && Has(PropertiesOf(s), p)
            && BuildBody(Obj(NullDefault(p)), values, doc, 1) == Some(Built(Obj(NoFields), []))
  {
    hide NullDefault, Resolve, Fill, TypeOf, PropertiesOf, RequiredOf, GetOr, NormalizeKey;
    NullDefaultFields(p);
    ResolvedAsItIs(NullDefault(p), doc);
    NullDefaultIsFilled(p, values, doc);
    assert Without(Field(p, Null, NoFields), NullKeys(Field(p, Null, NoFields))) == NoFields;
  }

  lemma BodyUnfolds(request: Json, values: Values, doc: Components, depth: nat)
    requires var b := BuildBody(request, values, doc, depth); b.Some? && b.value.missing == []
    ensures var built := Build(Obj(Resolve(request, doc, {})), values, doc, "$", depth);
            && built.Some? && built.value.missing == []
            && (built.value.value.Obj? ==>
                  BuildBody(request, values, doc, depth).value.value ==
                  Obj(Without(built.value.value.fields, NullKeys(built.value.value.fields))))
  {
    hide Resolve, Build;
  }

  /** For a property that is not built recursively, the dropped case can be read off the inputs. */
  lemma SimplePropertyIsNullIff(
      n: string, child: Json, required: seq<string>, values: Values, doc: Components, path: string, depth: nat)
    requires !ObjectLike(Resolve(child, doc, {}))
    ensures Assigned(n, child, required, values, doc, path, depth) == Some(Null) <==>
            if NormalizeKey(n) in values then values[NormalizeKey(n)] == Null
            else Get(Resolve(child, doc, {}), "default") == Some(Null)
  {
    hide Resolve;
  }

  /* ---------- Depth ---------- */

  /** More recursion never changes a body that could be built. */
  lemma {:induction false} DeeperBuildsTheSame(schema: Json, values: Values, doc: Components, path: string, depth: nat)
    requires Build(schema, values, doc, path, depth).Some?
    ensures Build(schema, values, doc, path, depth + 1) == Build(schema, values, doc, path, depth)
    decreases depth, 0, 0
  {
    var s := Resolve(schema, doc, {});
    if TypeOf(s) == Str("object") {
      DeeperFillsTheSame(PropertiesOf(s), RequiredOf(s), values, doc, path, depth - 1, Filled(NoFields, []));
    }
    hide Resolve, Fill;
  }

  lemma {:induction false} DeeperFillsTheSame(
      props: Fields, required: seq<string>, values: Values, doc: Components, path: string, depth: nat, acc: Filled)
    requires Fill(props, required, values, doc, path, depth, acc).Some?
    ensures Fill(props, required, values, doc, path, depth + 1, acc) == Fill(props, required, values, doc, path, depth, acc)
    decreases depth, 1, props
  {
    if props.Field? {
      var step := FillOne(props.key, props.value, required, values, doc, path, depth, acc);
      var child := Resolve(props.value, doc, {});
      if NormalizeKey(props.key) !in values && ObjectLike(child) {
        DeeperBuildsTheSame(Obj(child), values, doc, path + "." + props.key, depth);
      }
      DeeperFillsTheSame(props.rest, required, values, doc, path, depth, step.value);
      DeeperFillsOneTheSame(props.key, props.value, required, values, doc, path, depth, acc);
      hide Resolve, Build, FillOne;
    }
  }

  lemma DeeperFillsOneTheSame(
      name: string, child: Json, required: seq<string>, values: Values, doc: Components, path: string, depth: nat, acc: Filled)
    requires NormalizeKey(name) !in values && ObjectLike(Resolve(child, doc, {})) ==>
               Build(Obj(Resolve(child, doc, {})), values, doc, path + "." + name, depth + 1) ==
               Build(Obj(Resolve(child, doc, {})), values, doc, path + "." + name, depth)
    ensures FillOne(name, child, required, values, doc, path, depth + 1, acc) ==
            FillOne(name, child, required, values, doc, path, depth, acc)
  {
    hide Resolve, Build;
  }

  lemma {:induction false} AnyDeeperBuildsTheSame(schema: Json, values: Values, doc: Components, path: string, depth: nat, more: nat)
    requires Build(schema, values, doc, path, depth).Some? && depth <= more
    ensures Build(schema, values, doc, path, more) == Build(schema, values, doc, path, depth)
    decreases more
  {
    hide Build;
    if depth < more {
      AnyDeeperBuildsTheSame(schema, values, doc, path, depth, more - 1);
      DeeperBuildsTheSame(schema, values, doc, path, more - 1);
    }
  }

  /** A schema that does not nest in itself is built, and the same from some recursion on; and if nothing is reported missing
      then every object built, at every level, has all its required and declared properties. */
  lemma NothingMissingMeansComplete(schema: Json, values: Values, doc: Components, path: string)
    returns (enough: nat, built: Built)
    requires !Cyclic(Resolve(schema, doc, {}), values, doc)
    ensures forall depth: nat :: depth >= enough ==>
              && Build(schema, values, doc, path, depth) == Some(built)
              && (built.missing == [] ==> Complete(schema, values, doc, path, depth))
  {
    hide *;
    enough := AcyclicIsBuilt(schema, values, doc, path);
    built := Build(schema, values, doc, path, enough).value;
    forall depth: nat | depth >= enough
      ensures Build(schema, values, doc, path, depth) == Some(built)
      ensures built.missing == [] ==> Complete(schema, values, doc, path, depth)
    {
      AnyDeeperBuildsTheSame(schema, values, doc, path, enough, depth);
      if built.missing == [] { NothingMissingAtDepth(schema, values, doc, path, depth); }
    }
  }
}
