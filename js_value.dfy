/**
 * The slice of JavaScript's value semantics that the local-notification
 * facade relies on: truthiness, `typeof`, `toString`, `Array.prototype.indexOf`
 * and the rounding of a millisecond timestamp to epoch seconds.
 *
 * Numbers are integers here; floating point (fractions, NaN, Infinity) is
 * outside the model.
 */
module JsValue {

  datatype Option<T> = None | Some(value: T)

  /** A JavaScript value as the facade sees it in a property slot. */
  datatype Value =
    | Undefined
    | Null
    | Bool(b: bool)
    | Num(n: int)
    | Str(s: string)
    | Date(ms: int)  // a `Date` object, by its `getTime()` in milliseconds
    | Object         // a plain object: no `getTime`, and the built-in `toString`

  /** JavaScript's `ToBoolean`: the value an `if (v)` test sees. */
  predicate Truthy(v: Value) {
    match v
    case Undefined => false
    case Null => false
    case Bool(b) => b
    case Num(n) => n != 0
    case Str(s) => s != ""
    case Date(_) => true
    case Object => true
  }

  /** The string JavaScript's `typeof` operator yields. */
  function TypeOf(v: Value): (t: string)
    ensures t == "object" <==> v.Null? || v.Date? || v.Object?
    ensures t == "undefined" <==> v.Undefined?
  {
    match v
    case Undefined => "undefined"
    case Null => "object"
    case Bool(_) => "boolean"
    case Num(_) => "number"
    case Str(_) => "string"
    case Date(_) => "object"
    case Object => "object"
  }

  /**
   * `v.toString()`: None when the call throws a TypeError (on `undefined`
   * and `null`, which have no properties).  The text of a `Date` depends on
   * the host's locale and time zone; the model renders its milliseconds.
   */
  function ToText(v: Value): (r: Option<string>)
    ensures r.None? <==> v.Undefined? || v.Null?
    ensures v.Str? ==> r == Some(v.s)
    ensures v.Num? ==> r == Some(IntDecimal(v.n))
    ensures Truthy(v) ==> r.Some? && r.value != ""
  {
    match v
    case Undefined => None
    case Null => None
    case Bool(b) => Some(if b then "true" else "false")
    case Num(n) => Some(IntDecimal(n))
    case Str(s) => Some(s)
    case Date(ms) => Some(IntDecimal(ms))
    case Object => Some("[object Object]")
  }

  function DigitChar(d: nat): (c: char)
    requires d < 10
    ensures IsDigit(c)
  {
    ('0' as int + d) as char
  }

  predicate IsDigit(c: char) {
    '0' <= c <= '9'
  }

  function DigitValue(c: char): (d: nat)
    requires IsDigit(c)
    ensures d < 10 && DigitChar(d) == c
  {
    (c as int - '0' as int) as nat
  }

  predicate AllDigits(s: string) {
    forall i :: 0 <= i < |s| ==> IsDigit(s[i])
  }

  /** Decimal text of a natural number, most significant digit first. */
  function NatDecimal(n: nat): (r: string)
    ensures |r| >= 1 && AllDigits(r)
    decreases n
  {
    if n < 10 then [DigitChar(n)] else NatDecimal(n / 10) + [DigitChar(n % 10)]
  }

  /** `Number.prototype.toString()` on an integer: an optional '-' and the digits. */
  function IntDecimal(i: int): (r: string)
    ensures |r| >= 1
  {
    if i < 0 then "-" + NatDecimal(-i) else NatDecimal(i)
  }

  /** The value of a run of decimal digits. */
  function ParseNat(s: string): nat
    requires AllDigits(s)
  {
    if |s| == 0 then 0 else ParseNat(s[..|s| - 1]) * 10 + DigitValue(s[|s| - 1])
  }

  /** Reads back the text `IntDecimal` writes. */
  function ParseInt(s: string): int
    requires |s| >= 1
    requires s[0] == '-' ==> AllDigits(s[1..])
    requires s[0] != '-' ==> AllDigits(s)
  {
    if s[0] == '-' then 0 - ParseNat(s[1..]) else ParseNat(s)
  }

  lemma {:induction false} NatDecimalRoundTrip(n: nat)
    ensures ParseNat(NatDecimal(n)) == n
    decreases n
  {
    var r := NatDecimal(n);
    if n >= 10 {
      NatDecimalRoundTrip(n / 10);
      assert r[..|r| - 1] == NatDecimal(n / 10);
    }
  }

  /** The decimal text of an integer reads back as that integer. */
  lemma IntDecimalRoundTrip(i: int)
    ensures var r := IntDecimal(i);
            (r[0] == '-' ==> AllDigits(r[1..])) && (r[0] != '-' ==> AllDigits(r)) && ParseInt(r) == i
  {
    if i < 0 {
      NatDecimalRoundTrip(-i);
      assert IntDecimal(i)[1..] == NatDecimal(-i);
    } else {
      NatDecimalRoundTrip(i);
    }
  }

  /** Distinct numeric ids stringify to distinct texts. */
  lemma IntDecimalInjective(i: int, j: int)
    ensures IntDecimal(i) == IntDecimal(j) <==> i == j
  {
    IntDecimalRoundTrip(i);
    IntDecimalRoundTrip(j);
  }

  /**
   * `Math.round(ms / 1000)` for an integer number of milliseconds: the
   * nearest whole second, a half second rounding up (towards +infinity).
   */
  function EpochSeconds(ms: int): (s: int)
    ensures 1000 * s - 500 <= ms < 1000 * s + 500
  {
    (ms + 500) / 1000
  }

  /** `xs.indexOf(x)`: the first index holding `x`, or -1. */
  function IndexOf(xs: seq<string>, x: string): (r: int)
    ensures -1 <= r < |xs|
    ensures r == -1 <==> x !in xs
    ensures 0 <= r ==> xs[r] == x && x !in xs[..r]
  {
    if xs == [] then -1
    else if xs[0] == x then 0
    else
      var j := IndexOf(xs[1..], x);
      assert xs == [xs[0]] + xs[1..];
      if j == -1 then -1
      else
        assert xs[..j + 1] == [xs[0]] + xs[1..][..j];
        j + 1
  }
}
