/** Limb arithmetic behind ScalingNumber: a number is a little-endian sequence of limbs in
    base 10^9, and its integer value is the sum of limb[i] * 10^(9 i). */
module Limbs {

  /** One limb holds nine decimal digits (the source's `1e9`). */
  const Base: int := 1_000_000_000

  /** Base^n, the weight of limb n. */
  function Pow(n: nat): (r: int)
    ensures r >= 1
  {
    if n == 0 then 1 else Base * Pow(n - 1)
  }

  /** Limb i, reading a missing limb as 0 (the source's `digits[i] || 0`). */
  function At(d: seq<int>, i: nat): int {
    if i < |d| then d[i] else 0
  }

  /** The limbs above limb 0, empty for an empty sequence. */
  function Drop(d: seq<int>): seq<int> {
    if d == [] then [] else d[1..]
  }

  /** The integer a limb sequence stands for: the abstraction function (`getValue`,
      computed exactly rather than in floating point). */
  function Value(d: seq<int>): int {
    if d == [] then 0 else d[0] + Base * Value(d[1..])
  }

  /** Every limb is a proper base-10^9 digit. */
  predicate Normal(d: seq<int>) {
    forall i :: 0 <= i < |d| ==> 0 <= d[i] < Base
  }

  /** Splitting off limb 0 also works on the empty sequence, where both parts are 0. */
  lemma ValueUnfold(d: seq<int>)
    ensures Value(d) == At(d, 0) + Base * Value(Drop(d))
  {
  }

  lemma {:induction false} ValueAppend(a: seq<int>, b: seq<int>)
    ensures Value(a + b) == Value(a) + Pow(|a|) * Value(b)
  {
    if a == [] {
      assert a + b == b;
    } else {
      assert (a + b)[1..] == a[1..] + b;
      ValueAppend(a[1..], b);
      calc {
        Value(a + b);
        a[0] + Base * Value(a[1..] + b);
        a[0] + Base * (Value(a[1..]) + Pow(|a| - 1) * Value(b));
        a[0] + Base * Value(a[1..]) + (Base * Pow(|a| - 1)) * Value(b);
        Value(a) + Pow(|a|) * Value(b);
      }
    }
  }

  /** Pushing a new most significant limb adds it at weight Base^|d|. */
  lemma ValueSnoc(d: seq<int>, m: int)
    ensures Value(d + [m]) == Value(d) + Pow(|d|) * m
  {
    ValueAppend(d, [m]);
    assert [m][1..] == [];
    assert Value([m]) == m;
  }

  /** A normal limb sequence of length n stands for a value in [0, Base^n). */
  lemma {:induction false} ValueBounds(d: seq<int>)
    requires Normal(d)
    ensures 0 <= Value(d) < Pow(|d|)
  {
    if d != [] {
      ValueBounds(d[1..]);
    }
  }

  /** Limbs that are all zero stand for 0. */
  lemma {:induction false} ValueOfZeros(z: seq<int>)
    requires forall i :: 0 <= i < |z| ==> z[i] == 0
    ensures Value(z) == 0
  {
    if z != [] {
      ValueOfZeros(z[1..]);
    }
  }

  lemma {:induction false} PowMonotone(i: nat, j: nat)
    requires i <= j
    ensures Pow(i) <= Pow(j)
  {
    if i < j {
      PowMonotone(i, j - 1);
    }
  }

  /** Zero limbs above index k do not contribute to the value. */
  lemma HighZeros(d: seq<int>, k: nat)
    requires k <= |d|
    requires forall j :: k <= j < |d| ==> d[j] == 0
    ensures Value(d) == Value(d[..k])
  {
    assert d == d[..k] + d[k..];
    ValueAppend(d[..k], d[k..]);
    ValueOfZeros(d[k..]);
  }
}
