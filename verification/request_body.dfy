/**
 Building a request body from a resolved schema and a table of known values.
 depth is the recursion the interpreter still allows; a build that needs more raises, which is None here.
 */
module RequestBody {
  import opened Common
  import opened JsonValues
  import opened OpenapiSchema

  /** Known values, by normalised key. */
  type Values = map<string, Json>

  datatype Built = Built(value: Json, missing: seq<string>)

  datatype Filled = Filled(fields: Fields, missing: seq<string>)

  function TypeOf(s: Fields): Json {
    var typ := GetOr(s, "type", Null);
    if Truthy(typ) then typ
    else if Has(s, "properties") then Str("object")
    else if Has(s, "items") then Str("array")
    else typ
  }

  /** The child schemas that are built recursively. */
  predicate ObjectLike(s: Fields) {
    GetOr(s, "type", Null) == Str("object") || Has(s, "properties")
  }

  function FirstItem(j: Json): Json {
    if j.Arr? && j.items.Item? then j.items.head else Null
  }

  function Build(schema: Json, values: Values, doc: Components, path: string, depth: nat): Option<Built>
    decreases depth, 0, 0
  {
    if depth == 0 then None
    else
      var s := Resolve(schema, doc, {});
      var typ := TypeOf(s);
      var default := GetOr(s, "default", Null);
      var options := GetOr(s, "enum", Null);
      if typ == Str("object") then
        var filled := Fill(PropertiesOf(s), RequiredOf(s), values, doc, path, depth - 1, Filled(NoFields, []));
        if filled.None? then None else Some(Built(Obj(filled.value.fields), filled.value.missing))
      else if typ == Str("array") then Some(Built(if default != Null then default else Arr(NoItems), []))
      else if Truthy(options) then Some(Built(FirstItem(options), []))
      else Some(Built(default, if default != Null then [] else [path]))
  }

  /** The loop over an object's properties. */
  function Fill(props: Fields, required: seq<string>, values: Values, doc: Components, path: string, depth: nat, acc: Filled)
    : Option<Filled>
    decreases depth, 1, props
  {
    if props.NoFields? then Some(acc)
    else
      var step := FillOne(props.key, props.value, required, values, doc, path, depth, acc);
      if step.None? then None
      else Fill(props.rest, required, values, doc, path, depth, step.value)
  }

  function FillOne(
      name: string, child: Json, required: seq<string>, values: Values, doc: Components, path: string, depth: nat, acc: Filled)
    : Option<Filled>
    decreases depth, 0, 1
  {
    var key := NormalizeKey(name);
    var resolved := Resolve(child, doc, {});
    if key in values then Some(Filled(Put(acc.fields, name, values[key]), acc.missing))
    else if ObjectLike(resolved) then
      var built := Build(Obj(resolved), values, doc, path + "." + name, depth);
      if built.None? then None
      else
        var kept := (built.value.value != Obj(NoFields) && built.value.value != Null) || name in required;
        Some(Filled(if kept then Put(acc.fields, name, built.value.value) else acc.fields,
                    acc.missing + built.value.missing))
    else if Has(resolved, "default") then Some(Filled(Put(acc.fields, name, Get(resolved, "default").value), acc.missing))
    else if name in required then Some(Filled(acc.fields, acc.missing + [path + "." + name]))
    else Some(acc)
  }

  /** The keys of f whose value is null. */
  function NullKeys(f: Fields): set<string> {
    set k | k in Keys(f) && Get(f, k) == Some(Null)
  }

  /** The body of a request, with its top-level nulls dropped. */
  function BuildBody(request: Json, values: Values, doc: Components, depth: nat): Option<Built> {
    var schema := Resolve(request, doc, {});
    if schema == NoFields then Some(Built(Obj(NoFields), ["REQUEST_SCHEMA_NOT_FOUND"]))
    else if GetOr(schema, "type", Null) != Str("object") && !Has(schema, "$ref") && !Has(schema, "properties")
    then Some(Built(Obj(NoFields), ["REQUEST_SCHEMA_UNSUPPORTED"]))
    else
      var built := Build(Obj(schema), values, doc, "$", depth);
      if built.Some? && built.value.value.Obj?
      then Some(Built(Obj(Without(built.value.value.fields, NullKeys(built.value.value.fields))), built.value.missing))
      else built
  }

  /* ---------- What a body contains ---------- */

  predicate Distinct(f: Fields) {
    f.Field? ==> !Has(f.rest, f.key) && Distinct(f.rest)
  }

  /** What the builder puts under a property, if anything. */
  function Assigned(
      name: string, child: Json, required: seq<string>, values: Values, doc: Components, path: string, depth: nat): Option<Json>
  {
    var key := NormalizeKey(name);
    var resolved := Resolve(child, doc, {});
    if key in values then Some(values[key])
    else if ObjectLike(resolved) then
      var built := Build(Obj(resolved), values, doc, path + "." + name, depth);
      if built.None? || ((built.value.value == Obj(NoFields) || built.value.value == Null) && name !in required) then None
      else Some(built.value.value)
    else Get(resolved, "default")
  }

  /** A property whose value the builder cannot supply although it is required, or below which something is missing. */
  predicate Lacking(
      name: string, child: Json, required: seq<string>, values: Values, doc: Components, path: string, depth: nat)
  {
    var resolved := Resolve(child, doc, {});
    && NormalizeKey(name) !in values
    && if ObjectLike(resolved)
       then (var built := Build(Obj(resolved), values, doc, path + "." + name, depth); built.Some? && built.value.missing != [])
       else !Has(resolved, "default") && name in required
  }

  predicate SomeLacking(props: Fields, required: seq<string>, values: Values, doc: Components, path: string, depth: nat) {
    && props.Field?
    && (Lacking(props.key, props.value, required, values, doc, path, depth)
        || SomeLacking(props.rest, required, values, doc, path, depth))
  }

  lemma FillOneMeaning(
      name: string, child: Json, required: seq<string>, values: Values, doc: Components, path: string, depth: nat, acc: Filled)
    requires FillOne(name, child, required, values, doc, path, depth, acc).Some?
    ensures var r := FillOne(name, child, required, values, doc, path, depth, acc).value;
            var given := Assigned(name, child, required, values, doc, path, depth);
            && r.fields == (if given.Some? then Put(acc.fields, name, given.value) else acc.fields)
            && (r.missing == [] <==> acc.missing == [] && !Lacking(name, child, required, values, doc, path, depth))
  {
    hide Resolve, Build;
  }

  /** The loop puts exactly the assigned values, whatever its order, and reports exactly what is lacking. */
  lemma {:induction false} FillMeaning(
      props: Fields, required: seq<string>, values: Values, doc: Components, path: string, depth: nat, acc: Filled, x: string)
    requires Distinct(props) && (Has(props, x) ==> !Has(acc.fields, x))
    requires Fill(props, required, values, doc, path, depth, acc).Some?
    ensures var r := Fill(props, required, values, doc, path, depth, acc).value;
            && Get(r.fields, x) == (if Has(props, x)
                                    then Assigned(x, Get(props, x).value, required, values, doc, path, depth)
                                    else Get(acc.fields, x))
            && (r.missing == [] <==> acc.missing == [] && !SomeLacking(props, required, values, doc, path, depth))
    decreases props
  {
    hide FillOne, Assigned, Lacking;
    if props.Field? {
      FillOneMeaning(props.key, props.value, required, values, doc, path, depth, acc);
      var step := FillOne(props.key, props.value, required, values, doc, path, depth, acc).value;
      FillMeaning(props.rest, required, values, doc, path, depth, step, x);
    }
  }
}
