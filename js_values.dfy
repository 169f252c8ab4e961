/**
 * The two JavaScript value conversions the transaction handler relies on:
 * the truthiness of the amount held in component state, and the decimal
 * text of a BigInt chain id (`BigInt.prototype.toString()` in base 10).
 */
module JsValues {

  /**
   * The `amount` state of the page. It starts as the number 0 and, once the
   * user types into the numeric input, holds the input's text.
   */
  datatype Amount = InitialZero | Text(s: string)

  /** JavaScript truthiness of the amount: the number 0 and "" are falsy. */
  predicate Truthy(a: Amount)
  {
    match a
    case InitialZero => false
    case Text(s) => s != ""
  }

  /**
   * The amount gate `!amount > 0`. By operator precedence this is
   * `(!amount) > 0`: the boolean is coerced to 1 or 0 and compared with 0.
   * Only a falsy amount is rejected; "0" and "-1" pass.
   */
  function AmountRejected(a: Amount): (rejected: bool)
    ensures rejected <==> a == InitialZero || a == Text("")
    ensures !rejected <==> a.Text? && |a.s| > 0
  {
    var negated := !Truthy(a);
    var coerced := if negated then 1 else 0;
    coerced > 0
  }

  /** `amount.toString()`: the number 0 prints as "0", a string is itself. */
  function AmountText(a: Amount): (text: string)
    ensures !AmountRejected(a) ==> text == a.s && |text| > 0
  {
    match a
    case InitialZero => "0"
    case Text(s) => s
  }

  predicate IsDigit(c: char)
  {
    '0' <= c <= '9'
  }

  predicate AllDigits(s: string)
  {
    forall i :: 0 <= i < |s| ==> IsDigit(s[i])
  }

  /** The form BigInt.prototype.toString() produces for a value >= 0. */
  predicate IsCanonical(s: string)
  {
    |s| >= 1 && AllDigits(s) && (s[0] == '0' ==> |s| == 1)
  }

  function DigitChar(d: nat): (c: char)
    requires d < 10
    ensures IsDigit(c)
  {
    ('0' as int + d) as char
  }

  function DigitValue(c: char): (d: nat)
    requires IsDigit(c)
    ensures d < 10
  {
    c as int - '0' as int
  }

  /** Base-10 text of a non-negative BigInt, as `toString()` gives it. */
  function ToDecimal(n: nat): (s: string)
    ensures IsCanonical(s)
    ensures s[0] == '0' <==> n == 0
    decreases n
  {
    if n < 10 then [DigitChar(n)] else ToDecimal(n / 10) + [DigitChar(n % 10)]
  }

  /** The number a string of decimal digits denotes (leading zeros allowed). */
  function Value(s: string): nat
    requires AllDigits(s)
  {
    if s == [] then 0 else Value(s[..|s| - 1]) * 10 + DigitValue(s[|s| - 1])
  }

  /** Reading back the text of n gives n. */
  lemma {:induction false} ValueOfToDecimal(n: nat)
    ensures Value(ToDecimal(n)) == n
    decreases n
  {
    if n >= 10 {
      ValueOfToDecimal(n / 10);
      var s := ToDecimal(n);
      assert s[..|s| - 1] == ToDecimal(n / 10);
    }
  }

  /** Digit strings that do not start with '0' denote a positive number. */
  lemma {:induction false} LeadingDigitPositive(s: string)
    requires |s| >= 1 && AllDigits(s) && s[0] != '0'
    ensures Value(s) >= 1
    decreases |s|
  {
    if |s| > 1 {
      LeadingDigitPositive(s[..|s| - 1]);
    }
  }

  /** Printing the value of a canonical string gives that string back. */
  lemma {:induction false} ToDecimalOfValue(s: string)
    requires IsCanonical(s)
    ensures ToDecimal(Value(s)) == s
    decreases |s|
  {
    if |s| > 1 {
      var prefix, last := s[..|s| - 1], s[|s| - 1];
      assert IsCanonical(prefix);
      LeadingDigitPositive(prefix);
      ToDecimalOfValue(prefix);
      var n := Value(s);
      assert n / 10 == Value(prefix) && n % 10 == DigitValue(last);
      assert DigitChar(DigitValue(last)) == last;
      assert s == prefix + [last];
    }
  }

  /** Distinct chain ids print differently. */
  lemma ToDecimalInjective(a: nat, b: nat)
    ensures ToDecimal(a) == ToDecimal(b) <==> a == b
  {
    ValueOfToDecimal(a);
    ValueOfToDecimal(b);
  }
}
