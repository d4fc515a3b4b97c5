/**
 * JavaScript values as the agent's configuration and logging code sees them:
 * the optional and failing results it works with, the values JSON.parse
 * produces, and the few JavaScript conversions the code relies on
 * (truthiness, `.length`, `String(v)`).
 */
module JsValues {

  /** `undefined` (None) or a value. */
  datatype Option<+T> = None | Some(value: T)

  /** A returned value, or an Error thrown with the given message. */
  datatype Result<+T, +E> = Ok(value: T) | Err(error: E)

  /**
   * A value produced by JSON.parse. Numbers are represented by their
   * integral value only.
   */
  datatype Json =
    | JNull
    | JBool(b: bool)
    | JNum(n: int)
    | JStr(s: string)
    | JArr(items: seq<Json>)
    | JObj(fields: map<string, Json>)

  /** JavaScript truthiness: null, false, 0 and "" are falsy; arrays and objects are truthy even when empty. */
  predicate Truthy(v: Json) {
    match v
    case JNull => false
    case JBool(b) => b
    case JNum(n) => n != 0
    case JStr(s) => s != ""
    case JArr(_) => true
    case JObj(_) => true
  }

  /**
   * `v.length` is truthy: a non-empty string or array, or an object whose
   * own `length` property is truthy. Numbers, booleans and null have no length.
   */
  predicate HasLength(v: Json) {
    match v
    case JStr(s) => |s| > 0
    case JArr(items) => |items| > 0
    case JObj(fields) => "length" in fields && Truthy(fields["length"])
    case _ => false
  }

  /** `x && x.length` for an optional string. */
  predicate NonEmpty(x: Option<string>) {
    x.Some? && |x.value| > 0
  }

  /** String concatenation with an optional string: `"..." + undefined` gives "undefined". */
  function TextOf(x: Option<string>): string {
    match x
    case None => "undefined"
    case Some(s) => s
  }

  function DigitChar(d: nat): char
    requires d < 10
  {
    "0123456789"[d]
  }

  /** Decimal digits of a natural number, most significant first. */
  function DigitsText(n: nat): string
    decreases n
  {
    if n < 10 then [DigitChar(n)] else DigitsText(n / 10) + [DigitChar(n % 10)]
  }

  /** `String(n)` for an integral number. */
  function IntText(n: int): string {
    if n < 0 then "-" + DigitsText(-n) else DigitsText(n)
  }

  /**
   * `String(v)` returns rather than throws. A parsed object with its own
   * `toString` key cannot be converted: that key never holds a function, so
   * the conversion falls through to `valueOf`, which gives the object back,
   * and a TypeError is thrown. An array converts its items with `join`, so
   * one such item anywhere inside it makes the array throw too.
   */
  predicate Convertible(v: Json)
    decreases v
  {
    match v
    case JArr(items) => forall x | x in items :: Convertible(x)
    case JObj(fields) => "toString" !in fields
    case _ => true
  }

  /**
   * `String(v)` for a Convertible value: strings as they are, arrays joined
   * with "," (null items as ""), objects as "[object Object]". For any other
   * value `String(v)` throws and this string is never used.
   */
  function ToJsString(v: Json): string
    decreases v, 1
  {
    match v
    case JNull => "null"
    case JBool(b) => if b then "true" else "false"
    case JNum(n) => IntText(n)
    case JStr(s) => s
    case JArr(_) => JoinItems(v, 0)
    case JObj(_) => "[object Object]"
  }

  /** Array.prototype.join(",") over the items of `v` from index `i` on. */
  function JoinItems(v: Json, i: nat): string
    requires v.JArr? && i <= |v.items|
    decreases v, 0, |v.items| - i
  {
    if i == |v.items| then ""
    else
      var item := v.items[i];
      assert item in v.items;
      (if item == JNull then "" else ToJsString(item))
      + (if i + 1 < |v.items| then "," + JoinItems(v, i + 1) else "")
  }
}
