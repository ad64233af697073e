/** Python's `f"{n}"` for an `int`: the shortest decimal numeral, with a
    leading '-' for negative values, together with the parser that reads it
    back. */
module Decimal {

  predicate IsDigit(c: char) {
    '0' <= c <= '9'
  }

  function DigitValue(c: char): (d: nat)
    requires IsDigit(c)
    ensures d < 10
  {
    c as int - '0' as int
  }

  function DigitChar(d: nat): (c: char)
    requires d < 10
    ensures IsDigit(c)
    ensures DigitValue(c) == d
  {
    (d + '0' as int) as char
  }

  predicate IsDigits(s: string) {
    |s| > 0 && forall i :: 0 <= i < |s| ==> IsDigit(s[i])
  }

  predicate IsIntLiteral(s: string) {
    IsDigits(s) || (|s| > 1 && s[0] == '-' && IsDigits(s[1..]))
  }

  /** Digits without a leading zero, except for "0" itself. */
  predicate IsCanonicalDigits(s: string) {
    IsDigits(s) && (s[0] == '0' ==> |s| == 1)
  }

  /** The form `str(n)` takes for an integer: canonical digits, optionally
      after a '-' that is never followed by a zero. */
  predicate IsCanonicalInt(s: string) {
    || IsCanonicalDigits(s)
    || (|s| > 1 && s[0] == '-' && IsCanonicalDigits(s[1..]) && s[1] != '0')
  }

  /** The decimal numeral of a natural number, most significant digit first. */
  function NatToDecimal(n: nat): (r: string)
    ensures IsDigits(r)
    ensures r[0] == '0' ==> n == 0
    ensures n < 10 <==> |r| == 1
    decreases n
  {
    if n < 10 then [DigitChar(n)] else NatToDecimal(n / 10) + [DigitChar(n % 10)]
  }

  /** Reads a string of digits as a natural number (the empty string is 0). */
  function ParseDigits(s: string): nat
    requires forall i :: 0 <= i < |s| ==> IsDigit(s[i])
    decreases |s|
  {
    if |s| == 0 then 0 else ParseDigits(s[..|s| - 1]) * 10 + DigitValue(s[|s| - 1])
  }

  function IntToDecimal(n: int): (r: string)
    ensures IsIntLiteral(r)
    ensures IsCanonicalInt(r)
    ensures n >= 0 <==> r[0] != '-'
  {
    if n < 0 then "-" + NatToDecimal(-n) else NatToDecimal(n)
  }

  function ParseInt(s: string): int
    requires IsIntLiteral(s)
  {
    if s[0] == '-' then -(ParseDigits(s[1..]) as int) else ParseDigits(s)
  }

  lemma {:induction false} ParseNatToDecimal(n: nat)
    ensures ParseDigits(NatToDecimal(n)) == n
    decreases n
  {
    if n >= 10 {
      var d := NatToDecimal(n / 10);
      var r := d + [DigitChar(n % 10)];
      assert r[..|r| - 1] == d;
      ParseNatToDecimal(n / 10);
    }
  }

  /** A canonical string of digits is the numeral of the value it denotes. */
  lemma {:induction false} NatToDecimalOfParse(s: string)
    requires IsCanonicalDigits(s)
    ensures NatToDecimal(ParseDigits(s)) == s
    decreases |s|
  {
    var c := s[|s| - 1];
    if |s| == 1 {
      assert ParseDigits(s) == DigitValue(c) by {
        assert s[..0] == "";
      }
      assert DigitChar(DigitValue(c)) == c;
    } else {
      var t := s[..|s| - 1];
      assert t[0] == s[0];
      assert IsCanonicalDigits(t);
      NatToDecimalOfParse(t);
      LeadingDigitPositive(t);
      var n := ParseDigits(s);
      assert n == ParseDigits(t) * 10 + DigitValue(c);
      assert n / 10 == ParseDigits(t) && n % 10 == DigitValue(c);
      assert DigitChar(DigitValue(c)) == c;
      assert s == t + [c];
    }
  }

  /** Digits that do not start with '0' denote a positive number. */
  lemma {:induction false} LeadingDigitPositive(s: string)
    requires IsDigits(s) && s[0] != '0'
    ensures ParseDigits(s) > 0
    decreases |s|
  {
    if |s| > 1 {
      var t := s[..|s| - 1];
      assert t[0] == s[0];
      LeadingDigitPositive(t);
    } else {
      assert s[..0] == "";
    }
  }

  /** `str(n)` is the only canonical numeral of n: a canonical string is
      exactly what `IntToDecimal` writes for the integer it denotes. */
  lemma CanonicalIsIntToDecimal(s: string)
    requires IsCanonicalInt(s)
    ensures IntToDecimal(ParseInt(s)) == s
  {
    if s[0] == '-' {
      var d := s[1..];
      NatToDecimalOfParse(d);
      LeadingDigitPositive(d);
      assert s == "-" + d;
    } else {
      NatToDecimalOfParse(s);
    }
  }

  /** The numeral written for an integer reads back as that integer, so
      distinct integers are written differently. */
  lemma {:induction false} ParseIntToDecimal(n: int)
    ensures ParseInt(IntToDecimal(n)) == n
  {
    if n < 0 {
      var d := NatToDecimal(-n);
      assert ("-" + d)[0] == '-';
      assert ("-" + d)[1..] == d;
      ParseNatToDecimal(-n);
    } else {
      assert NatToDecimal(n)[0] != '-';
      ParseNatToDecimal(n);
    }
  }

  /** A value from 0 to 9 is written as its single digit. */
  lemma SingleDigit(n: int)
    requires 0 <= n < 10
    ensures IntToDecimal(n) == [DigitChar(n)]
  {
  }

  lemma IntToDecimalInjective(m: int, n: int)
    ensures IntToDecimal(m) == IntToDecimal(n) ==> m == n
  {
    ParseIntToDecimal(m);
    ParseIntToDecimal(n);
  }
}
