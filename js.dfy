/**
  The JavaScript values the source inspects at run time (`unknown` parameters, parsed JSON,
  message parts, thrown errors) and the operators it applies to them: truthiness, `??`,
  `typeof`, property access, and the header values a Node request carries.
 */
module Js {
  import opened Wrappers

  /**
    A JavaScript value. Numbers are integers (the source only ever handles counts, ids and
    millisecond timestamps); objects keep their fields in insertion order; `Url` is a WHATWG
    `URL` instance and `Error` an instance of `Error` with its own extra properties.
   */
  datatype Value =
    | Undefined
    | Null
    | Bool(b: bool)
    | Num(n: int)
    | Str(s: string)
    | Arr(elems: seq<Value>)
    | Obj(fields: seq<(string, Value)>)
    | Url(href: string)
    | Error(name: string, message: string, extra: seq<(string, Value)>)

  /** `!!v`. */
  predicate Truthy(v: Value) {
    match v
    case Undefined => false
    case Null => false
    case Bool(b) => b
    case Num(n) => n != 0
    case Str(s) => s != ""
    case _ => true
  }

  /** `v === null || v === undefined`, the test behind `??`. */
  predicate Nullish(v: Value) {
    v.Undefined? || v.Null?
  }

  /** `a ?? b`. */
  function Coalesce(a: Value, b: Value): (r: Value)
    ensures Nullish(a) ==> r == b
    ensures !Nullish(a) ==> r == a
  {
    if Nullish(a) then b else a
  }

  /** `a || b`. */
  function Or(a: Value, b: Value): (r: Value)
    ensures Truthy(a) ==> r == a
    ensures !Truthy(a) ==> r == b
  {
    if Truthy(a) then a else b
  }

  /** `typeof v === "object"`: true of `null`, arrays, plain objects, URLs and errors. */
  predicate IsObjectType(v: Value) {
    v.Null? || v.Arr? || v.Obj? || v.Url? || v.Error?
  }

  /** `v.key` on a plain record: the first field of that name, or `undefined`. */
  function Lookup(fields: seq<(string, Value)>, key: string): (r: Value)
    ensures r != Undefined ==> exists i :: 0 <= i < |fields| && fields[i] == (key, r)
    ensures (forall i :: 0 <= i < |fields| ==> fields[i].0 != key) ==> r == Undefined
  {
    if |fields| == 0 then Undefined
    else if fields[0].0 == key then fields[0].1
    else Lookup(fields[1..], key)
  }

  /** `v.key` for any value; an `Error` also answers `name` and `message`. */
  function Get(v: Value, key: string): Value {
    match v
    case Obj(fields) => Lookup(fields, key)
    case Error(name, message, extra) =>
      if key == "name" then Str(name)
      else if key == "message" then Str(message)
      else Lookup(extra, key)
    case _ => Undefined
  }

  /** `typeof v === "string" ? v : null`, as an option. */
  function AsString(v: Value): (r: Option<string>)
    ensures r.Some? <==> v.Str?
  {
    if v.Str? then Some(v.s) else None
  }

  /** The value of a request header as Node exposes it. */
  datatype Header = Absent | One(text: string) | Many(texts: seq<string>)

  /** `typeof h === "string" ? h : null`. */
  function HeaderString(h: Header): (r: Option<string>)
    ensures r.Some? <==> h.One?
  {
    if h.One? then Some(h.text) else None
  }

  /**
    The JSON library: `stringify` yields `None` where `JSON.stringify` throws, `parse` yields
    `None` where `JSON.parse` throws.
   */
  datatype JsonCodec = JsonCodec(stringify: Value -> Option<string>, parse: string -> Option<Value>)
}
