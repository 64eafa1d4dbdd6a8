/**
 JSON values as the standard decoder yields them: an object is its fields in order, where a
 repeated key stands for its last value.
 */
module JsonValues {
  import opened Common

  datatype Json = Null | Bool(b: bool) | Num(n: real) | Str(s: string) | Arr(items: Items) | Obj(fields: Fields)

  datatype Items = NoItems | Item(head: Json, tail: Items)

  datatype Fields = NoFields | Field(key: string, value: Json, rest: Fields)

  function Size(j: Json): (n: nat)
    ensures n >= 1
  {
    match j
    case Arr(items) => 1 + ItemsSize(items)
    case Obj(fields) => 1 + FieldsSize(fields)
    case _ => 1
  }

  function ItemsSize(items: Items): nat {
    match items
    case NoItems => 0
    case Item(head, tail) => Size(head) + ItemsSize(tail)
  }

  function FieldsSize(f: Fields): nat {
    match f
    case NoFields => 0
    case Field(_, value, rest) => Size(value) + FieldsSize(rest)
  }

  predicate Has(f: Fields, k: string) {
    f.Field? && (f.key == k || Has(f.rest, k))
  }

  function Keys(f: Fields): (keys: set<string>)
    ensures forall k :: k in keys <==> Has(f, k)
  {
    if f.NoFields? then {} else {f.key} + Keys(f.rest)
  }

  function Get(f: Fields, k: string): (r: Option<Json>)
    ensures r.Some? <==> Has(f, k)
    ensures r.Some? ==> Size(r.value) <= FieldsSize(f)
  {
    if f.NoFields? then None
    else if Has(f.rest, k) then Get(f.rest, k)
    else if f.key == k then Some(f.value)
    else None
  }

  function GetOr(f: Fields, k: string, default: Json): Json {
    if Has(f, k) then Get(f, k).value else default
  }

  /** Sets a key: in place when it is present, at the end otherwise. */
  function Put(f: Fields, k: string, v: Json): (r: Fields)
    ensures forall x :: Has(r, x) <==> x == k || Has(f, x)
    ensures forall x :: Get(r, x) == if x == k then Some(v) else Get(f, x)
  {
    if f.NoFields? then Field(k, v, NoFields)
    else if f.key == k && !Has(f.rest, k) then Field(k, v, f.rest)
    else Field(f.key, f.value, Put(f.rest, k, v))
  }

  /** dict.update: every field of g is set in f. */
  function Merge(f: Fields, g: Fields): (r: Fields)
    ensures forall x :: Has(r, x) <==> Has(f, x) || Has(g, x)
    ensures forall x :: Get(r, x) == if Has(g, x) then Get(g, x) else Get(f, x)
    decreases g
  {
    if g.NoFields? then f else Merge(Put(f, g.key, g.value), g.rest)
  }

  /** The fields under none of the given keys. */
  function Without(f: Fields, keys: set<string>): (r: Fields)
    ensures forall x :: Has(r, x) <==> Has(f, x) && x !in keys
    ensures forall x :: x !in keys ==> Get(r, x) == Get(f, x)
  {
    if f.NoFields? then NoFields
    else if f.key in keys then Without(f.rest, keys)
    else Field(f.key, f.value, Without(f.rest, keys))
  }

  /** The truth value of a JSON value in a condition. */
  predicate Truthy(j: Json) {
    match j
    case Null => false
    case Bool(b) => b
    case Num(n) => n != 0.0
    case Str(s) => s != ""
    case Arr(items) => items.Item?
    case Obj(fields) => fields.Field?
  }

  function Strings(items: Items): seq<string> {
    match items
    case NoItems => []
    case Item(Str(s), tail) => [s] + Strings(tail)
    case Item(_, tail) => Strings(tail)
  }

  function ItemsOf(strings: seq<string>): (items: Items)
    ensures Strings(items) == strings
  {
    if strings == [] then NoItems else Item(Str(strings[0]), ItemsOf(strings[1..]))
  }

  /** Keys are compared by their lower-case ASCII letters and digits. */
  function NormalizeKey(s: string): string {
    if s == "" then ""
    else
      var c := if 'A' <= s[0] <= 'Z' then (s[0] as int - 'A' as int + 'a' as int) as char else s[0];
      (if 'a' <= c <= 'z' || '0' <= c <= '9' then [c] else "") + NormalizeKey(s[1..])
  }
}
