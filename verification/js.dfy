/**
 * The few JavaScript values the client puts into request payloads, and the
 * language's truthiness test on them (`if (x)`, `x || d`, `!x`).
 */
module Js {
  import opened Wrappers

  /** Record identifiers as the server and the router hand them out. `===`
      on them is equality of this datatype, so `NumId(5) != StrId("5")`. */
  datatype Id = NumId(n: int) | StrId(s: string)

  datatype Value =
    | Undefined
    | Null
    | Bool(b: bool)
    | Num(x: real)
    | Str(s: string)
    | IdList(ids: seq<Id>)   // an array, e.g. `imageIds`
    | Blob(name: string)     // a `File` chosen in a form

  /** JavaScript truthiness: `undefined`, `null`, `false`, `0` and `""` are
      falsy; every array and every object (an empty array too) is truthy. */
  predicate Truthy(v: Value)
  {
    match v
    case Undefined => false
    case Null => false
    case Bool(b) => b
    case Num(x) => x != 0.0
    case Str(s) => s != ""
    case IdList(_) => true
    case Blob(_) => true
  }

  /** `a || d` */
  function Or(a: Value, d: Value): (r: Value)
    ensures Truthy(a) ==> r == a
    ensures !Truthy(a) ==> r == d
  {
    if Truthy(a) then a else d
  }

  /** Truthiness of an optional string, as for an environment variable or a
      token that may be missing. */
  predicate TruthyString(s: Option<string>)
  {
    s.Some? && s.value != ""
  }

  /** A plain object as a map from property names; a missing property reads
      as `undefined`. */
  type Object = map<string, Value>

  function Get(o: Object, key: string): Value
  {
    if key in o then o[key] else Undefined
  }
}
