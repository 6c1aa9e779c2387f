/**
 * The slice of JavaScript's value semantics that the observers rely on:
 * the values a websocket message or a provider response can hold, truthiness,
 * property reads, `==` against a string literal and template-literal text.
 * Numbers are integers (no fractions, NaN or infinities).
 */
module JsValues {

  datatype Value =
    | Undefined
    | Null
    | Bool(b: bool)
    | Num(n: int)
    | Str(s: string)
    | Obj(props: map<string, Value>)

  /** JavaScript truthiness: `false`, `0`, `""`, `null` and `undefined` are falsy. */
  predicate Truthy(v: Value) {
    match v
    case Undefined => false
    case Null => false
    case Bool(b) => b
    case Num(n) => n != 0
    case Str(s) => s != ""
    case Obj(_) => true
  }

  /**
   * `v.key`: an own property of an object, `undefined` for a missing one
   * and for any property of a primitive. Reading a property of `null` or
   * `undefined` throws, so callers must rule those out.
   */
  function Get(v: Value, key: string): (r: Value)
    requires v != Undefined && v != Null
    ensures !v.Obj? ==> r == Undefined
    ensures v.Obj? && key !in v.props ==> r == Undefined
  {
    if v.Obj? && key in v.props then v.props[key] else Undefined
  }

  /**
   * `v == s` for a string `s`. A string compares by content and an object by
   * its default text "[object Object]"; numbers and booleans are taken as
   * unequal to every string, which is exact for strings that do not read as
   * a number.
   */
  predicate LooseEquals(v: Value, s: string) {
    match v
    case Str(t) => t == s
    case Obj(_) => s == "[object Object]"
    case _ => false
  }

  /** The text `${v}` produces inside a template literal. */
  function Text(v: Value): string {
    match v
    case Undefined => "undefined"
    case Null => "null"
    case Bool(b) => if b then "true" else "false"
    case Num(n) => if n < 0 then "-" + NatText(-n) else NatText(n)
    case Str(s) => s
    case Obj(_) => "[object Object]"
  }

  /** Decimal digits of a natural number, most significant first. */
  function NatText(n: nat): (r: string)
    ensures |r| > 0
    ensures forall i :: 0 <= i < |r| ==> '0' <= r[i] <= '9'
    decreases n
  {
    var digit := ['0' + (n % 10) as char];
    if n < 10 then digit else NatText(n / 10) + digit
  }
}
