/**
  The slice of JavaScript's value semantics that the user fixtures and
  validators rely on: the primitive values they handle, truthiness (what `!v`
  and `a || b` test), `typeof`, strict equality `===`, and the string a value
  turns into inside a template literal.
 */
module JsValues {

  /** A JavaScript primitive. Numbers are modelled as integers plus the NaN tag. */
  datatype Value = Undefined | Null | Bool(b: bool) | Num(n: int) | NaN | Str(s: string)

  /** The outcome of a JavaScript function that returns nothing or throws `error`. */
  datatype Outcome<E> = Pass | Fail(error: E)

  /** The outcome of a JavaScript function that returns `value` or throws `error`. */
  datatype Result<T, E> = Ok(value: T) | Err(error: E)

  /** ToBoolean (section 7.1.2 of ECMA-262): the falsy values are undefined, null, false, 0, NaN and "". */
  predicate Truthy(v: Value) {
    match v
    case Undefined => false
    case Null => false
    case Bool(b) => b
    case Num(n) => n != 0
    case NaN => false
    case Str(s) => s != ""
  }

  /** The `||` operator: the left operand when it is truthy, otherwise the right one. */
  function Or(a: Value, b: Value): (r: Value)
    ensures Truthy(a) ==> r == a
    ensures !Truthy(a) ==> r == b
    ensures r == a || r == b
    ensures Truthy(r) <==> Truthy(a) || Truthy(b)
  {
    if Truthy(a) then a else b
  }

  /** `||` is associative: `a || b || c`, which JavaScript groups to the left, may be grouped either way. */
  lemma OrAssociative(a: Value, b: Value, c: Value)
    ensures Or(Or(a, b), c) == Or(a, Or(b, c))
  {
  }

  /** The `typeof` operator (section 13.5.3 of ECMA-262). */
  function TypeOf(v: Value): string {
    match v
    case Undefined => "undefined"
    case Null => "object"
    case Bool(_) => "boolean"
    case Num(_) => "number"
    case NaN => "number"
    case Str(_) => "string"
  }

  /** `a === b` (IsStrictlyEqual, section 7.2.16 of ECMA-262): NaN equals nothing, not even itself. */
  predicate StrictEquals(a: Value, b: Value) {
    a == b && !a.NaN?
  }

  predicate IsDigit(c: char) {
    '0' <= c <= '9'
  }

  predicate AllDigits(s: string) {
    forall i | 0 <= i < |s| :: IsDigit(s[i])
  }

  function DigitChar(d: nat): (c: char)
    requires d < 10
    ensures IsDigit(c) && c as int - '0' as int == d
  {
    (48 + d) as char
  }

  /** The decimal digits of `n` without leading zeros, as Number::toString writes an integer below 10^21. */
  function NatToDecimal(n: nat): (s: string)
    ensures |s| > 0 && AllDigits(s)
    ensures |s| > 1 ==> s[0] != '0'
    decreases n
  {
    if n < 10 then [DigitChar(n)] else NatToDecimal(n / 10) + [DigitChar(n % 10)]
  }

  /** The number a string of decimal digits denotes: the inverse of NatToDecimal. */
  function DecimalValue(s: string): nat
    requires AllDigits(s)
  {
    if s == [] then 0 else 10 * DecimalValue(s[..|s| - 1]) + (s[|s| - 1] as int - '0' as int)
  }

  /** Reading back the digits of `n` gives `n`. */
  lemma {:induction false} DecimalRoundTrip(n: nat)
    ensures DecimalValue(NatToDecimal(n)) == n
    decreases n
  {
    if n >= 10 {
      var prefix := NatToDecimal(n / 10);
      var s := prefix + [DigitChar(n % 10)];
      assert s[..|s| - 1] == prefix;
      DecimalRoundTrip(n / 10);
    }
  }

  /** Different numbers are written with different digits. */
  lemma DecimalInjective(m: nat, n: nat)
    requires m != n
    ensures NatToDecimal(m) != NatToDecimal(n)
  {
    DecimalRoundTrip(m);
    DecimalRoundTrip(n);
  }

  function IntToDecimal(n: int): string {
    if n < 0 then "-" + NatToDecimal(-n) else NatToDecimal(n)
  }

  /** ToString (section 7.1.17 of ECMA-262): what `${v}` inserts into a template literal. */
  function ToJsString(v: Value): string {
    match v
    case Undefined => "undefined"
    case Null => "null"
    case Bool(b) => if b then "true" else "false"
    case Num(n) => IntToDecimal(n)
    case NaN => "NaN"
    case Str(s) => s
  }
}
