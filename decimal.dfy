/** Python's `str()` on integers, a decimal reader that inverts it, and the
    count parameter of the album search, where 0 is sent as the empty string. */
module Decimal {

  predicate IsDigit(c: char) {
    '0' <= c <= '9'
  }

  predicate AllDigits(s: string) {
    forall i :: 0 <= i < |s| ==> IsDigit(s[i])
  }

  function DigitChar(d: nat): (c: char)
    requires d < 10
    ensures IsDigit(c)
  {
    (('0' as int) + d) as char
  }

  function DigitValue(c: char): nat
    requires IsDigit(c)
  {
    (c as int) - ('0' as int)
  }

  /** `str(n)` for a non-negative `n`: its decimal digits, most significant
      first, with no leading zero. */
  function NatToString(n: nat): (s: string)
    ensures |s| >= 1 && AllDigits(s)
    ensures s[0] == '0' ==> n == 0
  {
    if n < 10 then [DigitChar(n)] else NatToString(n / 10) + [DigitChar(n % 10)]
  }

  /** Reads a string of decimal digits back as a number. */
  function ParseDecimal(s: string): nat
    requires AllDigits(s)
  {
    if s == [] then 0 else ParseDecimal(s[..|s| - 1]) * 10 + DigitValue(s[|s| - 1])
  }

  /** `str(n)` for any integer, with a leading minus sign when negative. */
  function IntToString(n: int): (s: string)
    ensures |s| >= 1
    ensures s[0] == '-' <==> n < 0
    ensures AllDigits(if n < 0 then s[1..] else s)
    ensures n < 0 ==> |s| >= 2 && s[1] != '0'
    ensures n > 0 ==> s[0] != '0'
  {
    if n < 0 then "-" + NatToString(-n) else NatToString(n)
  }

  /** Reads back what `IntToString` writes. */
  function ParseInt(s: string): int
    requires |s| >= 1
    requires if s[0] == '-' then AllDigits(s[1..]) else AllDigits(s)
  {
    if s[0] == '-' then -(ParseDecimal(s[1..]) as int) else ParseDecimal(s)
  }

  lemma {:induction false} ParseNatToString(n: nat)
    ensures ParseDecimal(NatToString(n)) == n
  {
    var s := NatToString(n);
    if n >= 10 {
      ParseNatToString(n / 10);
      assert s[..|s| - 1] == NatToString(n / 10);
    }
  }

  lemma {:induction false} NatToStringInjective(a: nat, b: nat)
    ensures NatToString(a) == NatToString(b) <==> a == b
  {
    ParseNatToString(a);
    ParseNatToString(b);
  }

  lemma {:induction false} ParseIntToString(n: int)
    ensures ParseInt(IntToString(n)) == n
  {
    if n < 0 {
      assert IntToString(n)[1..] == NatToString(-n);
      ParseNatToString(-n);
    } else {
      ParseNatToString(n);
    }
  }

  /** What the album search sends as its `count` parameter. */
  datatype CountLimit = NoLimit | Limit(count: int)

  /** The request parameter for a requested number of albums: 0 becomes the
      empty string, which the VK API reads as "no limit"; anything else is
      written in decimal. */
  function EncodeCount(n: int): (s: string)
    ensures s == "" <==> n == 0
    ensures n > 0 ==> AllDigits(s)
    ensures n < 0 ==> s[0] == '-' && AllDigits(s[1..])
  {
    if n == 0 then "" else IntToString(n)
  }

  /** How the VK API reads the `count` parameter back. */
  function DecodeCount(s: string): CountLimit
    requires s == "" || (if s[0] == '-' then AllDigits(s[1..]) else AllDigits(s))
  {
    if s == "" then NoLimit else Limit(ParseInt(s))
  }

  /** Encoding a count and reading it back loses nothing: 0 round-trips to
      "no limit" and every other count to itself. */
  lemma {:induction false} CountRoundTrip(n: int)
    ensures var s := EncodeCount(n);
      (s == "" || (if s[0] == '-' then AllDigits(s[1..]) else AllDigits(s))) &&
      DecodeCount(s) == if n == 0 then NoLimit else Limit(n)
  {
    if n != 0 {
      ParseIntToString(n);
    }
  }
}
