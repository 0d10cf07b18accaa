/** Decimal integer text: rendering an integer and reading one back. */
module Decimal {
  import opened Wrappers

  predicate IsDigit(c: char) {
    '0' <= c <= '9'
  }

  predicate AllDigits(s: string) {
    forall i | 0 <= i < |s| :: IsDigit(s[i])
  }

  /** The value of a run of decimal digits, most significant first. */
  function DigitsValue(s: string): nat
    requires AllDigits(s)
  {
    if s == [] then 0 else DigitsValue(s[..|s| - 1]) * 10 + (s[|s| - 1] as int - '0' as int)
  }

  /** The shortest run of decimal digits for `n`. */
  function DigitsText(n: nat): (s: string)
    ensures 0 < |s| && AllDigits(s)
  {
    if n < 10 then ['0' + n as char] else DigitsText(n / 10) + ['0' + (n % 10) as char]
  }

  /** The decimal text of an integer: a minus sign when negative, then its digits. */
  function DecimalText(n: int): string {
    if n < 0 then "-" + DigitsText(-n) else DigitsText(n)
  }

  /** The text after an optional leading sign. */
  function Unsigned(s: string): string {
    if 0 < |s| && (s[0] == '-' || s[0] == '+') then s[1..] else s
  }

  /** Integer text: an optional '+' or '-' followed by at least one decimal digit. */
  predicate IsIntegerText(s: string) {
    0 < |Unsigned(s)| && AllDigits(Unsigned(s))
  }

  /** The value integer text denotes; None for any other text. */
  function IntegerValue(s: string): (r: Option<int>)
    ensures r.Some? <==> IsIntegerText(s)
  {
    if IsIntegerText(s) then
      var magnitude: int := DigitsValue(Unsigned(s));
      Some(if s[0] == '-' then -magnitude else magnitude)
    else
      None
  }

  /** Reading back the digits of `n` gives `n`. */
  lemma {:induction false} DigitsRoundTrip(n: nat)
    ensures DigitsValue(DigitsText(n)) == n
  {
    if n >= 10 {
      var s := DigitsText(n);
      assert s[..|s| - 1] == DigitsText(n / 10);
      DigitsRoundTrip(n / 10);
    }
  }

  /** Reading back the decimal text of any integer gives that integer. */
  lemma DecimalRoundTrip(n: int)
    ensures IntegerValue(DecimalText(n)) == Some(n)
  {
    if n < 0 {
      DigitsRoundTrip(-n);
      assert Unsigned(DecimalText(n)) == DigitsText(-n);
    } else {
      DigitsRoundTrip(n);
      assert IsDigit(DigitsText(n)[0]);
    }
  }
}
