/**
 * The JavaScript values the services exchange, restricted to what JSON can
 * carry, together with the language rules the source leans on: truthiness,
 * `typeof`, property reads, object spread (`{...v}`) and thrown errors.
 * `undefined` is `None` in an `Option<Value>`.
 */
module Js {
  import opened Wrappers
  import Decimal

  /** A JSON value. Objects are maps, so the order of their keys is not kept. */
  datatype Value =
    | Null
    | Bool(b: bool)
    | Num(n: real)
    | Str(s: string)
    | Arr(items: seq<Value>)
    | Obj(fields: map<string, Value>)

  /** What a failing JavaScript operation throws. */
  datatype Thrown =
    | TypeError(what: string)
    | ReferenceError(name: string)
    | Error(message: string)
    | SyntaxError(message: string)

  /** `!!v` */
  predicate Truthy(v: Option<Value>) {
    match v
    case None => false
    case Some(Null) => false
    case Some(Bool(b)) => b
    case Some(Num(n)) => n != 0.0
    case Some(Str(s)) => s != ""
    case Some(Arr(_)) => true
    case Some(Obj(_)) => true
  }

  /** `typeof v` */
  function TypeOf(v: Option<Value>): string {
    match v
    case None => "undefined"
    case Some(Bool(_)) => "boolean"
    case Some(Num(_)) => "number"
    case Some(Str(_)) => "string"
    case Some(_) => "object"
  }

  /** `err.message` of a thrown error, as Node words a reference to an undefined name. */
  function Message(t: Thrown): (m: string)
    ensures t.ReferenceError? ==> m == t.name + " is not defined"
    ensures t.TypeError? ==> m == t.what
    ensures t.Error? || t.SyntaxError? ==> m == t.message
  {
    match t
    case TypeError(what) => what
    case ReferenceError(name) => name + " is not defined"
    case Error(message) => message
    case SyntaxError(message) => message
  }

  /** `v?.key`: the own data property `key` of an object, `undefined` otherwise. */
  function OptionalGet(v: Option<Value>, key: string): Option<Value> {
    if v.Some? && v.value.Obj? && key in v.value.fields then Some(v.value.fields[key]) else None
  }

  /** `v.key`: like `v?.key`, except that reading a property of `undefined` or `null` throws. */
  function Get(v: Option<Value>, key: string): (r: Result<Option<Value>, Thrown>)
    ensures r.Success? <==> v.Some? && !v.value.Null?
    ensures r.Success? ==> r.value == OptionalGet(v, key)
  {
    if v.None? then Failure(TypeError("Cannot read properties of undefined"))
    else if v.value.Null? then Failure(TypeError("Cannot read properties of null"))
    else Success(OptionalGet(v, key))
  }

  /**
   * The own enumerable properties `{...v}` copies: an object's fields, an
   * array's elements or a string's characters under their decimal index, and
   * nothing for `undefined`, `null`, booleans and numbers.
   */
  function Spread(v: Option<Value>): map<string, Value> {
    Decimal.FromNatInjective();
    match v
    case Some(Obj(m)) => m
    case Some(Arr(a)) => map i: nat | i < |a| :: Decimal.FromNat(i) := a[i]
    case Some(Str(s)) => map i: nat | i < |s| :: Decimal.FromNat(i) := Str([s[i]])
    case _ => map[]
  }

  /** `{...a, ...b}`: every key of either; on a shared key `b` wins. */
  function Merge(a: Option<Value>, b: Option<Value>): (r: map<string, Value>)
    ensures r.Keys == Spread(a).Keys + Spread(b).Keys
    ensures forall k :: k in Spread(b) ==> r[k] == Spread(b)[k]
    ensures forall k :: k in Spread(a) && k !in Spread(b) ==> r[k] == Spread(a)[k]
  {
    Spread(a) + Spread(b)
  }

  /**
   * `JSON.stringify` / `JSON.parse` as an abstract pair; `decode` yields
   * `None` where `JSON.parse` throws.
   */
  datatype Codec = Codec(encode: Value -> string, decode: string -> Option<Value>)

  /** Parsing what was serialised gives the value back. */
  ghost predicate RoundTrips(c: Codec) {
    forall v :: c.decode(c.encode(v)) == Some(v)
  }
}
