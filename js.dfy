/**
 * The slice of JavaScript semantics the transport relies on: optional values,
 * the values a log record can carry, truthiness, `typeof … === 'object'`,
 * own-key lookup and the `String(…)` coercion.
 */
module Js {

  datatype Option<+T> = None | Some(value: T) {
    /** `x ?? default` for a value that is either absent or present. */
    function GetOr(default: T): T {
      match this
      case Some(v) => v
      case None => default
    }
  }

  /**
   * A JavaScript value as it occurs in a log record. Numbers are reals:
   * NaN and the infinities are not part of the model. An object is the list of
   * its own enumerable properties in `Object.keys` order.
   */
  datatype Value =
    | Undefined
    | Null
    | Bool(b: bool)
    | Number(n: real)
    | Str(s: string)
    | Array(items: seq<Value>)
    | Object(fields: seq<(string, Value)>)

  /** The result of `if (v)`. */
  predicate Truthy(v: Value) {
    match v
    case Undefined => false
    case Null => false
    case Bool(b) => b
    case Number(n) => n != 0.0
    case Str(s) => s != ""
    case Array(_) => true
    case Object(_) => true
  }

  /** `typeof v === 'object'`: null, arrays and objects. */
  predicate IsTypeofObject(v: Value) {
    v.Null? || v.Array? || v.Object?
  }

  /** The value of the first own property named `key`, if there is one. */
  function Lookup(fields: seq<(string, Value)>, key: string): (r: Option<Value>)
    ensures r.Some? <==> exists i :: 0 <= i < |fields| && fields[i].0 == key
    ensures r.Some? ==> (key, r.value) in fields
  {
    if fields == [] then None
    else if fields[0].0 == key then Some(fields[0].1)
    else Lookup(fields[1..], key)
  }

  /** `key in v` for an object value (own properties only). */
  predicate HasKey(v: Value, key: string) {
    v.Object? && Lookup(v.fields, key).Some?
  }

  /** `v[key]`: the property's value, `undefined` when it is missing. */
  function Property(v: Value, key: string): Value {
    if v.Object? then Lookup(v.fields, key).GetOr(Undefined) else Undefined
  }

  /**
   * `String(v)` (and `${v}` in a template literal). A string is itself, an
   * array is its elements joined by "," with null and undefined elements
   * empty, a plain object is "[object Object]". Only the decimal rendering of
   * a number is left to the runtime, as `numberText`.
   */
  function ToJsString(v: Value, numberText: real -> string): string
    decreases v
  {
    match v
    case Undefined => "undefined"
    case Null => "null"
    case Bool(b) => if b then "true" else "false"
    case Number(n) => numberText(n)
    case Str(s) => s
    case Array(items) =>
      Join(seq(|items|, i requires 0 <= i < |items| =>
        if items[i].Undefined? || items[i].Null? then "" else ToJsString(items[i], numberText)))
    case Object(_) => "[object Object]"
  }

  /** The pieces separated by commas, as `Array.prototype.join` does by default. */
  function Join(parts: seq<string>): string {
    if parts == [] then ""
    else if |parts| == 1 then parts[0]
    else Join(parts[..|parts| - 1]) + "," + parts[|parts| - 1]
  }
}
