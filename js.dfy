/** JavaScript runtime values, as the client receives them in JSON payloads, and the few
    language operations the core relies on: truthiness, `typeof`, property access and the
    string conversion performed by a template literal. */
module Js {

  datatype Option<+T> = None | Some(value: T)

  /** The integers a JavaScript number holds exactly: `Number.MIN_SAFE_INTEGER` to
      `Number.MAX_SAFE_INTEGER`. In this range `String(n)` is plain decimal notation. */
  newtype SafeInteger = n: int | -0x1F_FFFF_FFFF_FFFF <= n <= 0x1F_FFFF_FFFF_FFFF

  /** A JSON value plus `undefined`. Numbers are the safe integers in this model. */
  datatype JsValue =
    | Undefined
    | Null
    | Bool(b: bool)
    | Number(n: SafeInteger)
    | Str(s: string)
    | Array(items: seq<JsValue>)
    | Object(fields: map<string, JsValue>)

  /** How an HTTP request settled: a 2xx response with its body, or a rejection carrying
      `error.response?.data` (`Undefined` when no response arrived or the failure was not an
      HTTP one). */
  datatype Reply = Ok(body: JsValue) | Failed(responseData: JsValue)

  /** Whether `v` counts as true in an `if`, `&&`, `||` or `!`. */
  predicate Truthy(v: JsValue) {
    match v
    case Undefined => false
    case Null => false
    case Bool(b) => b
    case Number(n) => n != 0
    case Str(s) => s != ""
    case Array(_) => true
    case Object(_) => true
  }

  /** `null` or `undefined`: reading a property of such a value throws a TypeError. */
  predicate Nullish(v: JsValue) {
    v.Undefined? || v.Null?
  }

  /** The `typeof` operator (note `typeof null == "object"` and arrays are objects). */
  function TypeOf(v: JsValue): string {
    match v
    case Undefined => "undefined"
    case Null => "object"
    case Bool(_) => "boolean"
    case Number(_) => "number"
    case Str(_) => "string"
    case Array(_) => "object"
    case Object(_) => "object"
  }

  /** The `in` operator for an own, named property. */
  predicate Has(v: JsValue, key: string) {
    v.Object? && key in v.fields
  }

  /** Property read `v.key` (or `v?.key`) for the property names the core reads: `label`,
      `name`, `title`, `text`, `value`, `suggestions`, `details` and `error`. None of these is
      an inherited property of strings, numbers, booleans or arrays, so only objects supply
      them; on a nullish value this is the `?.` result (the plain `.` throws instead, which
      callers model themselves). */
  function Get(v: JsValue, key: string): JsValue {
    if Has(v, key) then v.fields[key] else Undefined
  }

  /** The `a || b` operator: the first operand when it is truthy, else the second. */
  function Or(a: JsValue, b: JsValue): (r: JsValue)
    ensures Truthy(a) ==> r == a
    ensures !Truthy(a) ==> r == b
  {
    if Truthy(a) then a else b
  }

  /** Decimal digits of a natural number. */
  function Digits(n: nat): (r: string)
    ensures |r| > 0
    ensures forall i :: 0 <= i < |r| ==> '0' <= r[i] <= '9'
    decreases n
  {
    var d := [(('0' as int) + n % 10) as char];
    if n < 10 then d else Digits(n / 10) + d
  }

  /** `String(v)`, the conversion a template literal `${v}` applies. Array elements that
      are `null` or `undefined` become empty strings and the rest are joined with ",". */
  function ToText(v: JsValue): string
    decreases v
  {
    match v
    case Undefined => "undefined"
    case Null => "null"
    case Bool(b) => if b then "true" else "false"
    case Number(n) => if n < 0 then "-" + Digits(-(n as int)) else Digits(n as int)
    case Str(s) => s
    case Array(items) =>
      JoinWithCommas(seq(|items|, i requires 0 <= i < |items| =>
        if Nullish(items[i]) then "" else ToText(items[i])))
    case Object(_) => "[object Object]"
  }

  /** `parts.join(",")`. */
  function JoinWithCommas(parts: seq<string>): string {
    if |parts| == 0 then ""
    else if |parts| == 1 then parts[0]
    else parts[0] + "," + JoinWithCommas(parts[1..])
  }

  /** Whether React can draw `v` as an element's child: strings and numbers are drawn, booleans,
      `null` and `undefined` draw nothing, arrays draw each item, and a plain object is
      refused with an error. */
  predicate Drawable(v: JsValue)
    decreases v
  {
    match v
    case Object(_) => false
    case Array(items) => forall i :: 0 <= i < |items| ==> Drawable(items[i])
    case _ => true
  }
}
