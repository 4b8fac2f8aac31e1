/**
 * Decimal text of integers, as JavaScript's Number.prototype.toString()
 * writes an integer-valued number (src/index.ts:80), together with a
 * reader for that text. The reader recovers every integer from its text,
 * and on canonical texts (no leading zero, no "-0") writing is the inverse
 * of reading.
 */
module Decimal {
  import opened Options

  predicate IsDigit(c: char) {
    '0' <= c <= '9'
  }

  predicate AllDigits(s: string) {
    forall i :: 0 <= i < |s| ==> IsDigit(s[i])
  }

  /** The character of the decimal digit d. */
  function DigitChar(d: nat): (c: char)
    requires d < 10
    ensures IsDigit(c)
    ensures c == '0' <==> d == 0
  {
    ('0' as int + d) as char
  }

  /** The value of the decimal digit character c. */
  function DigitValue(c: char): (d: nat)
    requires IsDigit(c)
    ensures d < 10 && DigitChar(d) == c
  {
    c as int - '0' as int
  }

  /** Digits of n, most significant first, with no leading zero. */
  function NatToDecimal(n: nat): (s: string)
    ensures |s| >= 1 && AllDigits(s)
    ensures |s| == 1 <==> n < 10
    ensures s[0] == '0' <==> n == 0
    decreases n
  {
    if n < 10 then [DigitChar(n)] else NatToDecimal(n / 10) + [DigitChar(n % 10)]
  }

  /** The number a string of decimal digits denotes ("" denotes 0). */
  function DecimalValue(s: string): nat
    requires AllDigits(s)
  {
    if s == [] then 0 else DecimalValue(s[..|s| - 1]) * 10 + DigitValue(s[|s| - 1])
  }

  /** One or more digits, with no leading zero except for "0" itself. */
  predicate CanonicalNat(s: string) {
    |s| >= 1 && AllDigits(s) && (|s| > 1 ==> s[0] != '0')
  }

  /** The canonical text of an integer: a canonical digit string, or '-' and a nonzero one. */
  predicate Canonical(s: string) {
    CanonicalNat(s) || (|s| >= 2 && s[0] == '-' && CanonicalNat(s[1..]) && s[1] != '0')
  }

  /** How JavaScript writes an integer value: a '-' for a negative one, then its digits. */
  function IntToString(n: int): (s: string)
    ensures Canonical(s)
    ensures s[0] == '-' <==> n < 0
    ensures n >= 0 ==> AllDigits(s) && (s[0] == '0' <==> n == 0)
    ensures n < 0 ==> |s| >= 2 && AllDigits(s[1..]) && s[1] != '0'
  {
    if n < 0 then "-" + NatToDecimal(-n) else NatToDecimal(n)
  }

  /**
   * Reads a decimal integer: an optional '-' followed by one or more
   * digits; anything else is not a number.
   */
  function ReadInteger(s: string): Option<int> {
    if |s| >= 2 && s[0] == '-' && AllDigits(s[1..]) then Some(0 - DecimalValue(s[1..]) as int)
    else if |s| >= 1 && AllDigits(s) then Some(DecimalValue(s))
    else None
  }

  /** Reading back the digits of n gives n. */
  lemma {:induction false} NatToDecimalRoundTrip(n: nat)
    ensures DecimalValue(NatToDecimal(n)) == n
  {
    if n >= 10 {
      NatToDecimalRoundTrip(n / 10);
      var s := NatToDecimal(n);
      assert s[..|s| - 1] == NatToDecimal(n / 10);
    }
  }

  /** Reading back the text of any integer, negative ones included, gives that integer. */
  lemma IntToStringRoundTrip(n: int)
    ensures ReadInteger(IntToString(n)) == Some(n)
  {
    var s := IntToString(n);
    if n < 0 {
      var d := NatToDecimal(-n);
      NatToDecimalRoundTrip(-n);
      assert s == "-" + d;
      assert s[1..] == d;
      assert |s| >= 2 && s[0] == '-' && AllDigits(s[1..]);
    } else {
      NatToDecimalRoundTrip(n);
      assert s == NatToDecimal(n);
      assert s[0] != '-';
    }
  }

  /** Distinct integers are written as distinct strings. */
  lemma IntToStringInjective(a: int, b: int)
    ensures IntToString(a) == IntToString(b) ==> a == b
  {
    IntToStringRoundTrip(a);
    IntToStringRoundTrip(b);
  }

  /** A digit string that does not start with '0' denotes a positive number. */
  lemma {:induction false} LeadingDigitPositive(s: string)
    requires |s| >= 1 && AllDigits(s) && s[0] != '0'
    ensures DecimalValue(s) >= 1
  {
    if |s| > 1 {
      LeadingDigitPositive(s[..|s| - 1]);
    } else {
      assert s[..0] == [];
    }
  }

  /** Writing the value of a canonical digit string gives that string back. */
  lemma {:induction false} CanonicalNatRoundTrip(s: string)
    requires CanonicalNat(s)
    ensures NatToDecimal(DecimalValue(s)) == s
  {
    var last := |s| - 1;
    var p := s[..last];
    if |s| == 1 {
      assert p == [];
    } else {
      LeadingDigitPositive(p);
      CanonicalNatRoundTrip(p);
      var d := DigitValue(s[last]);
      var v := DecimalValue(s);
      assert v == DecimalValue(p) * 10 + d;
      assert v / 10 == DecimalValue(p) && v % 10 == d;
      assert s == p + [s[last]];
    }
  }

  /** Every canonical text reads as an integer whose text it is. */
  lemma CanonicalRoundTrip(s: string)
    requires Canonical(s)
    ensures ReadInteger(s).Some?
    ensures IntToString(ReadInteger(s).value) == s
  {
    if CanonicalNat(s) {
      CanonicalNatRoundTrip(s);
      assert s[0] != '-';
    } else {
      var t := s[1..];
      LeadingDigitPositive(t);
      CanonicalNatRoundTrip(t);
      assert s == "-" + t;
    }
  }
}
