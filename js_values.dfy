/** JavaScript values as far as the product form observes them: `number | null`,
    `string | null`, their truthiness, and `Number(s)` on a decimal digit string. */
module JsValues {

  /** `T | null` */
  datatype Option<+T> = None | Some(value: T)

  /** A JavaScript number. Finite values are kept exactly (no IEEE rounding). */
  datatype JsNumber = Num(value: real) | Infinite(negative: bool) | NaN

  /** ToBoolean on a number: 0, -0 and NaN are falsy, everything else truthy. */
  predicate NumberTruthy(n: JsNumber)
  {
    match n
    case Num(v) => v != 0.0
    case Infinite(_) => true
    case NaN => false
  }

  /** ToBoolean on `number | null`. */
  predicate NullableNumberTruthy(n: Option<JsNumber>)
  {
    n.Some? && NumberTruthy(n.value)
  }

  /** ToBoolean on `string | null`: null and the empty string are falsy. */
  predicate StringTruthy(s: Option<string>)
  {
    s.Some? && s.value != ""
  }

  /** JavaScript's `length` of a string: the number of UTF-16 code units, one for a
      character of the Basic Multilingual Plane and two (a surrogate pair) for any other. */
  function Utf16Length(s: string): (n: nat)
    ensures |s| <= n <= 2 * |s|
    ensures (forall i :: 0 <= i < |s| ==> (s[i] as int) < 0x1_0000) ==> n == |s|
    ensures (forall i :: 0 <= i < |s| ==> (s[i] as int) >= 0x1_0000) ==> n == 2 * |s|
    decreases |s|
  {
    if s == [] then 0
    else Utf16Length(s[..|s| - 1]) + (if (s[|s| - 1] as int) < 0x1_0000 then 1 else 2)
  }

  /** An ASCII character that no StringNumericLiteral (ECMA-262 section 7.1.4.1.1) can
      contain: not white space or a line terminator, not a digit, sign, point or exponent
      mark, not a letter of a hex, octal or binary literal, not a letter of `Infinity`.
      `Number` of a string holding one is NaN. */
  predicate RulesOutNumber(c: char)
  {
    (c as int) < 128 && !IsDigit(c) &&
    c !in " \t\n\U{B}\U{C}\r.+-abcdefABCDEFxXoOIinty"
  }

  predicate IsDigit(c: char)
  {
    '0' as int <= c as int <= '9' as int
  }

  /** The value of a decimal digit. */
  function DigitValue(c: char): (d: nat)
    requires IsDigit(c)
    ensures d <= 9
  {
    (c as int) - ('0' as int)
  }

  /** A non-empty string of ASCII decimal digits, such as a route segment "42". */
  predicate IsDecimalDigits(s: string)
  {
    |s| > 0 && forall i :: 0 <= i < |s| ==> IsDigit(s[i])
  }

  /** The value `Number(s)` takes on a string of decimal digits (leading zeros allowed). */
  function DecimalValue(s: string): nat
    requires forall i :: 0 <= i < |s| ==> IsDigit(s[i])
    decreases |s|
  {
    if s == [] then 0
    else 10 * DecimalValue(s[..|s| - 1]) + DigitValue(s[|s| - 1])
  }

  /** `String(n)` for a natural number: its shortest decimal rendering. */
  function DecimalString(n: nat): string
    decreases n
  {
    if n < 10 then [(('0' as int) + n) as char]
    else DecimalString(n / 10) + [(('0' as int) + n % 10) as char]
  }

  /** `Number(String(n)) == n`: a route segment rendered from a product id reads back
      as that id. */
  lemma {:induction false} DecimalRoundTrip(n: nat)
    ensures IsDecimalDigits(DecimalString(n))
    ensures DecimalValue(DecimalString(n)) == n
    decreases n
  {
    var s := DecimalString(n);
    if n >= 10 {
      DecimalRoundTrip(n / 10);
      var p := DecimalString(n / 10);
      assert s[..|s| - 1] == p;
      assert forall i :: 0 <= i < |s| ==> IsDigit(s[i]) by {
        forall i | 0 <= i < |s| ensures IsDigit(s[i]) {
          if i < |p| { assert s[i] == p[i]; }
        }
      }
    }
  }
}
