/**
  Base-10 natural numbers written as strings of ASCII digits: the part of
  integer parsing that the dimension strings of the grid and resolution
  flags rely on.  Signs, surrounding blanks and machine-word overflow are
  not part of this model.
 */
module Decimal {
  import opened Options

  predicate IsDigit(c: char) {
    '0' <= c <= '9'
  }

  /** A non-empty string made of decimal digits only. */
  predicate IsDigits(s: string) {
    |s| > 0 && forall i :: 0 <= i < |s| ==> IsDigit(s[i])
  }

  function DigitValue(c: char): (d: nat)
    requires IsDigit(c)
    ensures d < 10
  {
    c as int - '0' as int
  }

  function DigitChar(d: nat): (c: char)
    requires d < 10
    ensures IsDigit(c) && DigitValue(c) == d
  {
    ('0' as int + d) as char
  }

  /** Reads a decimal number; fails on the empty string and on any non-digit. */
  function ParseNat(s: string): (r: Option<nat>)
    ensures r.Some? <==> IsDigits(s)
  {
    if |s| == 0 || !IsDigit(s[|s| - 1]) then None
    else if |s| == 1 then Some(DigitValue(s[0]))
    else
      match ParseNat(s[..|s| - 1])
      case None => None
      case Some(v) => Some(10 * v + DigitValue(s[|s| - 1]))
  }

  /** The shortest decimal spelling of n: no leading zero, except for 0 itself. */
  function ShowNat(n: nat): (s: string)
    ensures IsDigits(s)
    ensures |s| > 1 ==> s[0] != '0'
    ensures s[0] == '0' <==> n == 0
  {
    if n < 10 then [DigitChar(n)] else ShowNat(n / 10) + [DigitChar(n % 10)]
  }

  /** Reading back what ShowNat writes gives the number back. */
  lemma {:induction false} ParseShowNat(n: nat)
    ensures ParseNat(ShowNat(n)) == Some(n)
  {
    if n >= 10 {
      var s := ShowNat(n);
      ParseShowNat(n / 10);
      assert s[..|s| - 1] == ShowNat(n / 10);
    }
  }

  /**
    Writing out the number a digit string spells gives the string back, when
    it has no leading zero; with ParseLeadingZero this fixes the value
    ParseNat reads from every digit string.
   */
  lemma {:induction false} ShowParseNat(s: string)
    requires IsDigits(s) && (|s| == 1 || s[0] != '0')
    ensures ShowNat(ParseNat(s).value) == s
  {
    if |s| == 1 {
      assert DigitChar(DigitValue(s[0])) == s[0];
    } else {
      var p := s[..|s| - 1];
      assert p[0] == s[0];
      assert IsDigits(p);
      ShowParseNat(p);
      var v := ParseNat(p).value;
      var d := DigitValue(s[|s| - 1]);
      assert ParseNat(s).value == 10 * v + d;
      assert v != 0;
      assert (10 * v + d) / 10 == v && (10 * v + d) % 10 == d;
      assert DigitChar(d) == s[|s| - 1];
      assert p + [s[|s| - 1]] == s;
    }
  }

  /** Leading zeros do not change the value read. */
  lemma {:induction false} ParseLeadingZero(s: string)
    requires IsDigits(s)
    ensures ParseNat("0" + s) == ParseNat(s)
  {
    if |s| > 1 {
      assert ("0" + s)[..|s|] == "0" + s[..|s| - 1];
      ParseLeadingZero(s[..|s| - 1]);
    }
  }
}
