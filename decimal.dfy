/** Decimal text as ScalingNumber reads and writes it: `parseInt(group, 10)` on digit groups,
    `Number.prototype.toString` on integer limbs, `padStart(9, "0")` and the leading-zero
    strip `replace(/^0+/, "")`. */
module Decimal {

  predicate IsDigit(c: char) {
    '0' <= c <= '9'
  }

  /** Every character is a decimal digit (the empty string included). */
  predicate AllDigits(s: string) {
    forall i :: 0 <= i < |s| ==> IsDigit(s[i])
  }

  /** The pattern /^[0-9]+$/: one or more decimal digits and nothing else. */
  predicate IsDigitString(s: string) {
    |s| > 0 && AllDigits(s)
  }

  function DigitValue(c: char): int
    requires IsDigit(c)
  {
    c as int - '0' as int
  }

  function DigitChar(n: int): char
    requires 0 <= n < 10
  {
    ('0' as int + n) as char
  }

  function Pow10(n: nat): (r: nat)
    ensures r >= 1
  {
    if n == 0 then 1 else 10 * Pow10(n - 1)
  }

  /** The number a string of digits spells, leading zeros allowed (`parseInt(s, 10)`). */
  function DecimalValue(s: string): (r: nat)
    requires AllDigits(s)
  {
    if s == [] then 0 else DecimalValue(s[..|s| - 1]) * 10 + DigitValue(s[|s| - 1])
  }

  /** The decimal text of a non-negative integer, without leading zeros. */
  function NatToString(n: nat): (s: string)
    ensures IsDigitString(s) && DecimalValue(s) == n
    ensures s[0] == '0' ==> s == "0"
  {
    if n < 10 then [DigitChar(n)]
    else
      var p := NatToString(n / 10);
      var s := p + [DigitChar(n % 10)];
      assert s[..|s| - 1] == p;
      s
  }

  /** `Number.prototype.toString()` on an integer: a minus sign before the magnitude. */
  function IntToString(n: int): string {
    if n < 0 then "-" + NatToString(-n) else NatToString(n)
  }

  function Zeros(n: nat): (z: string)
    ensures |z| == n && forall i :: 0 <= i < n ==> z[i] == '0'
  {
    if n == 0 then [] else Zeros(n - 1) + ['0']
  }

  /** `s.padStart(9, "0")`: zeros on the left up to nine characters; longer strings are kept. */
  function PadStart9(s: string): string {
    if |s| >= 9 then s else Zeros(9 - |s|) + s
  }

  /** `s.replace(/^0+/, "")`. */
  function StripLeadingZeros(s: string): string {
    if s != [] && s[0] == '0' then StripLeadingZeros(s[1..]) else s
  }

  /** `s.replace(/^0+/, "") || "0"`. */
  function Canonical(s: string): string {
    var t := StripLeadingZeros(s);
    if t == [] then "0" else t
  }

  lemma {:induction false} DecimalValueAppend(a: string, b: string)
    requires AllDigits(a) && AllDigits(b)
    ensures AllDigits(a + b)
    ensures DecimalValue(a + b) == DecimalValue(a) * Pow10(|b|) + DecimalValue(b)
  {
    assert AllDigits(a + b) by {
      forall i | 0 <= i < |a + b| ensures IsDigit((a + b)[i]) {
        if i >= |a| { assert (a + b)[i] == b[i - |a|]; }
      }
    }
    if b == [] {
      assert a + b == a;
    } else {
      var b' := b[..|b| - 1];
      assert (a + b)[..|a + b| - 1] == a + b';
      DecimalValueAppend(a, b');
      ShiftDigit(DecimalValue(a), Pow10(|b'|), DecimalValue(b'), DigitValue(b[|b| - 1]));
    }
  }

  /** (x p + y) 10 + d = x (10 p) + (y 10 + d), the step of DecimalValueAppend, kept apart so
      that the nonlinear step is proved in a small context. */
  lemma ShiftDigit(x: int, p: int, y: int, d: int)
    ensures (x * p + y) * 10 + d == x * (10 * p) + (y * 10 + d)
  {
  }

  /** A string of k digits spells a number below 10^k. */
  lemma {:induction false} DecimalValueBound(s: string)
    requires AllDigits(s)
    ensures DecimalValue(s) < Pow10(|s|)
  {
    if s != [] {
      DecimalValueBound(s[..|s| - 1]);
    }
  }

  lemma {:induction false} ZerosValue(n: nat)
    ensures AllDigits(Zeros(n)) && DecimalValue(Zeros(n)) == 0
  {
    if n > 0 {
      ZerosValue(n - 1);
      assert Zeros(n)[..n - 1] == Zeros(n - 1);
    }
  }

  /** Leading zeros do not change the value a digit string spells. */
  lemma {:induction false} LeadingZerosValue(n: nat, s: string)
    requires AllDigits(s)
    ensures AllDigits(Zeros(n) + s) && DecimalValue(Zeros(n) + s) == DecimalValue(s)
  {
    ZerosValue(n);
    DecimalValueAppend(Zeros(n), s);
  }

  /** A number below 10^k has at most k decimal digits. */
  lemma {:induction false} NatToStringLength(n: nat, k: nat)
    requires 1 <= k && n < Pow10(k)
    ensures |NatToString(n)| <= k
  {
    if n >= 10 {
      NatToStringLength(n / 10, k - 1);
    }
  }

  /** A digit string that does not start with '0' spells a positive number. */
  lemma {:induction false} LeadingDigitPositive(s: string)
    requires IsDigitString(s) && s[0] != '0'
    ensures DecimalValue(s) >= 1
  {
    if |s| > 1 {
      LeadingDigitPositive(s[..|s| - 1]);
    }
  }

  /** The text of a number without leading zeros is the only such text that spells it. */
  lemma {:induction false} NatToStringUnique(s: string)
    requires IsDigitString(s) && s[0] != '0'
    ensures NatToString(DecimalValue(s)) == s
  {
    var p, c := s[..|s| - 1], s[|s| - 1];
    var n := DecimalValue(s);
    assert n == DecimalValue(p) * 10 + DigitValue(c);
    assert DigitChar(DigitValue(c)) == c;
    if |s| == 1 {
      assert n == DigitValue(c);
    } else {
      LeadingDigitPositive(p);
      NatToStringUnique(p);
      assert n / 10 == DecimalValue(p) && n % 10 == DigitValue(c);
      assert NatToString(n) == NatToString(n / 10) + [DigitChar(n % 10)];
      assert s == p + [c];
    }
  }

  /** Stripping leading zeros, or "0" for an all-zero string, yields the decimal text of the
      number a digit string spells. */
  lemma {:induction false} CanonicalIsNatToString(s: string)
    requires IsDigitString(s)
    ensures Canonical(s) == NatToString(DecimalValue(s))
  {
    if s[0] == '0' {
      if |s| == 1 {
        assert StripLeadingZeros(s[1..]) == [];
      } else {
        assert s == Zeros(1) + s[1..];
        LeadingZerosValue(1, s[1..]);
        CanonicalIsNatToString(s[1..]);
      }
    } else {
      NatToStringUnique(s);
    }
  }
}
