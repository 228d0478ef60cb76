/**
 * Decimal text of an integer, as JavaScript writes a number into a template
 * literal (`${n}`), and the parse that reads it back.
 */
module Decimal {

  predicate IsDigit(c: char)
  {
    '0' <= c <= '9'
  }

  function DigitChar(d: nat): (c: char)
    requires d < 10
    ensures IsDigit(c) && c as int - '0' as int == d
  {
    ('0' as int + d) as char
  }

  /** Shortest decimal text of n: digits only, no leading zero. */
  function NatToString(n: nat): (s: string)
    ensures |s| >= 1
    ensures forall i :: 0 <= i < |s| ==> IsDigit(s[i])
    ensures |s| > 1 ==> s[0] != '0'
    ensures n < 10 <==> |s| == 1
  {
    if n < 10 then [DigitChar(n)] else NatToString(n / 10) + [DigitChar(n % 10)]
  }

  /** Value of a string of decimal digits. */
  function ParseNat(s: string): nat
    requires forall i :: 0 <= i < |s| ==> IsDigit(s[i])
  {
    if |s| == 0 then 0
    else
      assert IsDigit(s[|s| - 1]);
      ParseNat(s[..|s| - 1]) * 10 + (s[|s| - 1] as int - '0' as int)
  }

  /** Reading the text back gives the number, so distinct numbers give distinct texts. */
  lemma {:induction false} ParseNatToString(n: nat)
    ensures ParseNat(NatToString(n)) == n
  {
    if n >= 10 {
      var s := NatToString(n);
      assert s[..|s| - 1] == NatToString(n / 10);
      ParseNatToString(n / 10);
    }
  }

  /**
   * `${i}` for an integer i: a minus sign exactly when i is negative, then the
   * decimal digits of its magnitude, with no leading zero, which read back as
   * that magnitude.
   */
  function IntToString(i: int): (s: string)
    ensures |s| >= 1
    ensures s[0] == '-' <==> i < 0
    ensures var digits := if i < 0 then s[1..] else s;
            && (forall k :: 0 <= k < |digits| ==> IsDigit(digits[k]))
            && (|digits| > 1 ==> digits[0] != '0')
            && ParseNat(digits) == (if i < 0 then -i else i)
  {
    var magnitude := if i < 0 then -i else i;
    var digits := NatToString(magnitude);
    ParseNatToString(magnitude);
    assert IsDigit(digits[0]);
    if i < 0 then "-" + digits else digits
  }

  /** Distinct integers have distinct texts. */
  lemma IntToStringInjective(i: int, j: int)
    requires IntToString(i) == IntToString(j)
    ensures i == j
  {
    var s := IntToString(i);
    if i < 0 {
      assert j < 0;
      assert ParseNat(s[1..]) == -i == -j;
    } else {
      assert j >= 0;
      assert ParseNat(s) == i == j;
    }
  }
}
