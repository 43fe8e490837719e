/**
 * Go's `strconv.Atoi` on a 64-bit platform: an optional `+` or `-` sign
 * followed by one or more ASCII decimal digits (no underscores, no spaces),
 * whose value must fit the 64-bit `int`; anything else is an error.
 * Atoi undoes `FormatInt` (decimal rendering, as `strconv.Itoa`) on that range.
 */
module Strconv {
  import opened Wrappers

  const MinInt: int := -0x8000_0000_0000_0000
  const MaxInt: int := 0x7FFF_FFFF_FFFF_FFFF

  predicate IsDigit(c: char) {
    '0' <= c <= '9'
  }

  predicate AllDigits(s: string) {
    forall i :: 0 <= i < |s| ==> IsDigit(s[i])
  }

  function DigitValue(c: char): (d: nat)
    requires IsDigit(c)
    ensures d < 10
  {
    (c as int) - ('0' as int)
  }

  function DigitChar(d: nat): (c: char)
    requires d < 10
    ensures IsDigit(c) && DigitValue(c) == d
  {
    (('0' as int) + d) as char
  }

  /** The value of a string of decimal digits, most significant first. */
  function DecimalValue(s: string): nat
    requires AllDigits(s)
  {
    if s == [] then 0 else DecimalValue(s[..|s| - 1]) * 10 + DigitValue(s[|s| - 1])
  }

  /** `strconv.Atoi`: None stands for the syntax and range errors. */
  function Atoi(s: string): (r: Option<int>)
    ensures s == "" ==> r == None
    ensures r.Some? ==> MinInt <= r.value <= MaxInt
  {
    if |s| == 0 then None
    else
      var digits := if s[0] == '+' || s[0] == '-' then s[1..] else s;
      if |digits| == 0 || !AllDigits(digits) then None
      else
        var magnitude: int := DecimalValue(digits);
        var n := if s[0] == '-' then -magnitude else magnitude;
        if MinInt <= n <= MaxInt then Some(n) else None
  }

  /** Shortest decimal rendering of a natural number. */
  function FormatNat(n: nat): (s: string)
    ensures |s| > 0 && AllDigits(s)
  {
    if n < 10 then [DigitChar(n)] else FormatNat(n / 10) + [DigitChar(n % 10)]
  }

  /** `strconv.Itoa`: decimal rendering with a `-` for negative numbers. */
  function FormatInt(n: int): string {
    if n < 0 then "-" + FormatNat(-n) else FormatNat(n)
  }

  lemma {:induction false} DecimalValueOfFormatNat(n: nat)
    ensures DecimalValue(FormatNat(n)) == n
  {
    var s := FormatNat(n);
    if n >= 10 {
      DecimalValueOfFormatNat(n / 10);
      assert s[..|s| - 1] == FormatNat(n / 10);
    }
  }

  /** Round trip: Atoi parses back every in-range integer that FormatInt renders. */
  lemma AtoiFormatInt(n: int)
    requires MinInt <= n <= MaxInt
    ensures Atoi(FormatInt(n)) == Some(n)
  {
    var s := FormatInt(n);
    if n < 0 {
      DecimalValueOfFormatNat(-n);
      assert s[1..] == FormatNat(-n);
    } else {
      DecimalValueOfFormatNat(n);
      assert IsDigit(s[0]);
    }
  }

  /** A leading `+` is accepted and changes nothing. */
  lemma AtoiPlusSign(digits: string)
    requires AllDigits(digits)
    ensures Atoi("+" + digits) == Atoi(digits)
  {
  }

  /** A character other than a digit, after the optional sign, is an error (a syntax error, or a range error when the digits before it already overflow). */
  lemma AtoiRejectsNonDigit(s: string, i: nat)
    requires 0 < i < |s| || (i == 0 && |s| > 0 && s[0] != '+' && s[0] != '-')
    requires !IsDigit(s[i])
    ensures Atoi(s) == None
  {
  }

  /** A lone sign is a syntax error. */
  lemma AtoiLoneSign()
    ensures Atoi("+") == None && Atoi("-") == None
  {
  }

  /** Every integer outside the 64-bit range is a range error. */
  lemma AtoiOutOfRange(n: int)
    requires n < MinInt || MaxInt < n
    ensures Atoi(FormatInt(n)) == None
  {
    var s := FormatInt(n);
    if n < 0 {
      DecimalValueOfFormatNat(-n);
      assert s[1..] == FormatNat(-n);
    } else {
      DecimalValueOfFormatNat(n);
      assert IsDigit(s[0]);
    }
  }

  lemma {:induction false} DecimalValueLeadingZero(s: string)
    requires AllDigits(s)
    ensures AllDigits("0" + s) && DecimalValue("0" + s) == DecimalValue(s)
  {
    var t := "0" + s;
    if s != [] {
      assert t[..|t| - 1] == "0" + s[..|s| - 1];
      DecimalValueLeadingZero(s[..|s| - 1]);
    }
  }

  /** Leading zeros are accepted and change nothing, after a sign too: "007" is 7 and "-0" is 0. */
  lemma AtoiLeadingZero(s: string)
    requires AllDigits(s) && |s| > 0
    ensures Atoi("0" + s) == Atoi(s)
    ensures Atoi("-0" + s) == Atoi("-" + s)
    ensures Atoi("-0") == Some(0)
  {
    DecimalValueLeadingZero(s);
    assert IsDigit(s[0]);
    assert ("-0" + s)[1..] == "0" + s;
    assert ("-" + s)[1..] == s;
    assert "-0"[1..] == "0";
    assert "0"[..0] == "";
    assert DecimalValue("0") == 0;
  }
}
