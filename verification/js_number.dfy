/** The part of JavaScript's `parseInt` (radix omitted) that the panel relies on when it
    reads the timeout field: an optional sign followed by the longest run of decimal
    digits at the front of the string; no digits gives NaN.

    The timeout field is an `<input type="number">`, whose value the browser keeps either
    empty or a valid floating-point number ("300", "-5", "1.5", "1e3", ".5"), so leading
    whitespace and a "0x" prefix, which `parseInt` also accepts, never reach it. */
module JsNumber {

  /** A JavaScript number as produced by `parseInt`: an integer or NaN. */
  datatype Number = Finite(value: int) | NaN

  predicate IsDigit(c: char) {
    '0' <= c <= '9'
  }

  predicate AllDigits(s: string) {
    forall i :: 0 <= i < |s| ==> IsDigit(s[i])
  }

  function DigitValue(c: char): (d: nat)
    requires IsDigit(c)
    ensures d <= 9
  {
    c as int - '0' as int
  }

  function DigitChar(d: nat): (c: char)
    requires d <= 9
    ensures IsDigit(c) && DigitValue(c) == d
  {
    ('0' as int + d) as char
  }

  /** Length of the run of decimal digits that starts the string. */
  function DigitRunLength(s: string): (n: nat)
    ensures n <= |s|
    ensures AllDigits(s[..n])
    ensures n < |s| ==> !IsDigit(s[n])
  {
    if |s| > 0 && IsDigit(s[0]) then 1 + DigitRunLength(s[1..]) else 0
  }

  /** The value of a string of decimal digits, most significant digit first. */
  function DecimalValue(s: string): nat
    requires AllDigits(s)
  {
    if s == [] then 0 else 10 * DecimalValue(s[..|s| - 1]) + DigitValue(s[|s| - 1])
  }

  /** The string with one leading sign character removed, if it has one. */
  function Unsigned(s: string): string {
    if |s| > 0 && (s[0] == '-' || s[0] == '+') then s[1..] else s
  }

  function SignOf(s: string): int {
    if |s| > 0 && s[0] == '-' then -1 else 1
  }

  /** `parseInt(s)`: the signed value of the leading digit run, or NaN when the string
      (after an optional sign) does not start with a digit. */
  function ParseInt(s: string): (r: Number)
    ensures r.NaN? <==> (Unsigned(s) == [] || !IsDigit(Unsigned(s)[0]))
    ensures r.Finite? && r.value < 0 ==> s[0] == '-'
  {
    var body := Unsigned(s);
    var n := DigitRunLength(body);
    if n == 0 then NaN else Finite(SignOf(s) * DecimalValue(body[..n]))
  }

  /** The canonical decimal spelling of a natural number (what `String(n)` gives). */
  function DecimalText(n: nat): (s: string)
    ensures |s| > 0 && AllDigits(s)
    ensures s[0] == '0' <==> n == 0
  {
    if n < 10 then [DigitChar(n)] else DecimalText(n / 10) + [DigitChar(n % 10)]
  }

  /** Reading back the decimal spelling of `n` gives `n`. */
  lemma {:induction false} DecimalRoundTrip(n: nat)
    ensures DecimalValue(DecimalText(n)) == n
  {
    var s := DecimalText(n);
    if n < 10 {
      assert s[..|s| - 1] == [];
    } else {
      assert s[..|s| - 1] == DecimalText(n / 10);
      DecimalRoundTrip(n / 10);
    }
  }

  /** A digit run ends exactly where the digits end. */
  lemma {:induction false} DigitRunOfDigitsThen(d: string, rest: string)
    requires AllDigits(d)
    requires rest == [] || !IsDigit(rest[0])
    ensures DigitRunLength(d + rest) == |d|
  {
    if d != [] {
      assert (d + rest)[1..] == d[1..] + rest;
      DigitRunOfDigitsThen(d[1..], rest);
    }
  }

  /** The digit run at the front of `d + rest` is exactly `d`. */
  lemma DigitRunIsPrefix(d: string, rest: string)
    requires AllDigits(d)
    requires rest == [] || !IsDigit(rest[0])
    ensures (d + rest)[..DigitRunLength(d + rest)] == d
  {
    DigitRunOfDigitsThen(d, rest);
    assert (d + rest)[..|d|] == d;
  }

  /** `parseInt` stops at the first non-digit: "12.5" and "1e3" read as 12 and 1. */
  lemma ParseIntStopsAtNonDigit(d: string, rest: string)
    requires d != [] && AllDigits(d)
    requires rest == [] || !IsDigit(rest[0])
    ensures ParseInt(d + rest) == Finite(DecimalValue(d))
  {
    assert (d + rest)[0] == d[0];
    assert Unsigned(d + rest) == d + rest;
    DigitRunOfDigitsThen(d, rest);
    DigitRunIsPrefix(d, rest);
  }

  /** A leading minus sign negates the digit run that follows it. */
  lemma ParseIntNegative(d: string, rest: string)
    requires d != [] && AllDigits(d)
    requires rest == [] || !IsDigit(rest[0])
    ensures ParseInt("-" + d + rest) == Finite(-(DecimalValue(d) as int))
  {
    var s := "-" + d + rest;
    assert s[0] == '-' && s[1..] == d + rest;
    var body := Unsigned(s);
    assert body == d + rest;
    DigitRunOfDigitsThen(d, rest);
    DigitRunIsPrefix(d, rest);
    var n := DigitRunLength(body);
    assert n == |d| && body[..n] == d;
    assert SignOf(s) * DecimalValue(body[..n]) == -(DecimalValue(d) as int);
  }

  /** `parseInt` inverts the decimal spelling of every natural number. */
  lemma ParseIntOfDecimalText(n: nat)
    ensures ParseInt(DecimalText(n)) == Finite(n)
  {
    var s := DecimalText(n);
    assert s + [] == s;
    ParseIntStopsAtNonDigit(s, []);
    DecimalRoundTrip(n);
  }
}
