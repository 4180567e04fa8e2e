/** Decimal text of Go integers, as `text/template` prints an `int` field
    (through `fmt`, base 10, a leading `-` for negative values and no
    leading zeros), together with a parser that reads it back. */
module Decimal {
  import opened Wrappers

  predicate IsDigit(c: char) {
    '0' <= c <= '9'
  }

  predicate AllDigits(s: string) {
    forall i :: 0 <= i < |s| ==> IsDigit(s[i])
  }

  function DigitValue(c: char): (d: nat)
    requires IsDigit(c)
    ensures d < 10
  {
    c as int - '0' as int
  }

  function DigitChar(d: nat): (c: char)
    requires d < 10
    ensures IsDigit(c) && DigitValue(c) == d
  {
    ('0' as int + d) as char
  }

  /** Base-10 digits of `n`, most significant first. */
  function FormatNat(n: nat): (s: string)
    ensures |s| >= 1 && AllDigits(s)
    ensures s[0] == '0' ==> n == 0 && |s| == 1
    decreases n
  {
    if n < 10 then [DigitChar(n)] else FormatNat(n / 10) + [DigitChar(n % 10)]
  }

  /** The text `fmt` prints for a signed integer. */
  function FormatInt(n: int): (s: string)
    ensures |s| >= 1
    ensures n < 0 <==> s[0] == '-'
    ensures n >= 0 ==> AllDigits(s)
    ensures n < 0 ==> |s| >= 2 && AllDigits(s[1..])
    ensures s[0] == '0' ==> n == 0 && |s| == 1
    ensures n < 0 ==> s[1] != '0'
  {
    if n < 0 then "-" + FormatNat(-n) else FormatNat(n)
  }

  /** The value of a string of decimal digits (the empty string reads as 0). */
  function ParseNat(s: string): nat
    requires AllDigits(s)
    decreases |s|
  {
    if |s| == 0 then 0 else 10 * ParseNat(s[..|s| - 1]) + DigitValue(s[|s| - 1])
  }

  /** Reads an optionally negative decimal integer; anything else is `None`. */
  function ParseInt(s: string): (r: Option<int>)
    ensures r.Some? ==> |s| >= 1
    ensures r.Some? && r.value < 0 ==> s[0] == '-'
  {
    if |s| == 0 then None
    else if s[0] == '-' then
      if |s| >= 2 && AllDigits(s[1..]) then Some(0 - ParseNat(s[1..]) as int) else None
    else if AllDigits(s) then Some(ParseNat(s))
    else None
  }

  lemma {:induction false} ParseFormatNat(n: nat)
    ensures ParseNat(FormatNat(n)) == n
    decreases n
  {
    if n >= 10 {
      var s := FormatNat(n);
      assert s[..|s| - 1] == FormatNat(n / 10);
      ParseFormatNat(n / 10);
    }
  }

  /** Printing an integer and reading the text back yields the same integer. */
  lemma ParseFormatInt(n: int)
    ensures ParseInt(FormatInt(n)) == Some(n)
  {
    if n < 0 {
      ParseFormatNegative(n);
    } else {
      ParseFormatNonNegative(n);
    }
  }

  lemma ParseFormatNegative(n: int)
    requires n < 0
    ensures ParseInt(FormatInt(n)) == Some(n)
  {
    ParseFormatNat(-n);
    ParseNegative(FormatInt(n), FormatNat(-n), -n);
  }

  lemma ParseFormatNonNegative(n: int)
    requires n >= 0
    ensures ParseInt(FormatInt(n)) == Some(n)
  {
    var digits := FormatNat(n);
    assert FormatInt(n) == digits;
    ParseUnsigned(digits);
    ParseFormatNat(n);
  }

  lemma ParseNegative(t: string, digits: string, m: nat)
    requires t == "-" + digits
    requires |digits| >= 1 && AllDigits(digits) && ParseNat(digits) == m
    ensures ParseInt(t) == Some(0 - m)
  {
    assert t[0] == '-';
    assert t[1..] == digits;
  }

  lemma ParseUnsigned(digits: string)
    requires |digits| >= 1 && AllDigits(digits)
    ensures ParseInt(digits) == Some(ParseNat(digits))
  {
    assert IsDigit(digits[0]);
  }

  /** Distinct integers print as distinct texts. */
  lemma FormatIntInjective(a: int, b: int)
    ensures FormatInt(a) == FormatInt(b) ==> a == b
  {
    ParseFormatInt(a);
    ParseFormatInt(b);
  }
}
