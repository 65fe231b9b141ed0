/**
 * The JavaScript values the lead endpoint reads from a parsed request body,
 * with the two pieces of JavaScript semantics the endpoint relies on:
 * truthiness (`Boolean(x)`, `x || y`) and property access (`body.firstName`).
 */
module Json {

  /**
   * A value as `JSON.parse` produces it, plus `Undefined`, the result of
   * reading a property an object does not have. JSON numbers are modelled as
   * reals: `JSON.parse` never yields NaN, and the infinity it gives for an
   * overflowing literal is truthy and not a string, as every non-zero real is.
   */
  datatype Value =
    | Undefined
    | Null
    | Bool(b: bool)
    | Num(x: real)
    | Str(s: string)
    | Arr(items: seq<Value>)
    | Obj(members: map<string, Value>)

  /** A request body: either the value `request.json()` resolved to, or a body that is not JSON. */
  datatype Body = Unparseable | Parsed(value: Value)

  /** `Boolean(v)`: false exactly for undefined, null, false, 0 and the empty string. */
  predicate Truthy(v: Value)
  {
    match v
    case Undefined => false
    case Null => false
    case Bool(b) => b
    case Num(x) => x != 0.0
    case Str(s) => s != ""
    case Arr(_) => true
    case Obj(_) => true
  }

  /** `a || b`: the left operand when it is truthy, the right one otherwise. */
  function Or(a: Value, b: Value): Value
  {
    if Truthy(a) then a else b
  }

  /** Values whose property access throws a `TypeError`. */
  predicate Nullish(v: Value)
  {
    v.Undefined? || v.Null?
  }

  /**
   * `v[key]` for a key that is none of the built-in properties of objects,
   * arrays and strings (every key the endpoint reads is such a key).
   */
  function Prop(v: Value, key: string): Value
    requires !Nullish(v)
  {
    match v
    case Obj(m) => if key in m then m[key] else Undefined
    case _ => Undefined
  }
}
