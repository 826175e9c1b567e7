/** ScalingNumber (ever-greater-client/src/classes/ScalingNumber.ts): an unbounded counter kept as
    little-endian base-10^9 limbs in a mutable `digits` list. Arithmetic works limb by limb with
    no carry or borrow, so limbs may leave [0, 10^9) while the value stays exact. */
module Scaling {
  import opened Wrappers
  import opened Limbs
  import opened Decimal

  const NegativeValueError := "Value must be a non-negative integer"
  const LargerSubtrahendError := "Cannot subtract a larger number from a smaller number"

  function InvalidInputError(str: string): string {
    "Invalid input: only numbers are allowed. Received: " + str
  }

  function Max(x: int, y: int): int {
    if x < y then y else x
  }

  // ---------------------------------------------------------------------------
  // Specification functions on limb sequences

  /** Limb-wise sum without carry, as long as the longer operand. */
  function AddLimbs(a: seq<int>, b: seq<int>): seq<int> {
    seq(Max(|a|, |b|), i requires 0 <= i < Max(|a|, |b|) => At(a, i) + At(b, i))
  }

  /** Limb-wise difference without borrow, as long as the longer operand. */
  function SubLimbs(a: seq<int>, b: seq<int>): seq<int> {
    seq(Max(|a|, |b|), i requires 0 <= i < Max(|a|, |b|) => At(a, i) - At(b, i))
  }

  /** The limbs after `increment`: an empty number becomes [1], otherwise limb 0 grows. */
  function Incremented(d: seq<int>): seq<int> {
    if d == [] then [1] else d[0 := d[0] + 1]
  }

  /** The index of the highest non-zero limb, or 0 when there is none
      (`getMostSignificantIndex`). */
  function MostSignificantIndex(d: seq<int>): (k: nat)
    ensures k < |d| || (d == [] && k == 0)
    ensures k > 0 ==> d[k] != 0
    ensures forall j :: k < j < |d| ==> d[j] == 0
  {
    if d == [] then 0
    else if d[|d| - 1] != 0 then |d| - 1
    else MostSignificantIndex(d[..|d| - 1])
  }

  /** `digits[i]` in JavaScript: `undefined` outside the list. */
  function Get(d: seq<int>, i: int): Option<int> {
    if 0 <= i < |d| then Some(d[i]) else None
  }

  /** JavaScript `>` on two limb reads: any comparison with `undefined` is false. */
  function Greater(x: Option<int>, y: Option<int>): bool {
    x.Some? && y.Some? && x.value > y.value
  }

  /** The downward scan of `isGreaterThan` from limb i: the first limb read that differs
      decides, and a scan that finds none answers false. */
  function CompareFrom(a: seq<int>, b: seq<int>, i: int): bool
    decreases i + 1
  {
    if i < 0 then false
    else if Get(a, i) != Get(b, i) then Greater(Get(a, i), Get(b, i))
    else CompareFrom(a, b, i - 1)
  }

  /** `a.isGreaterThan(b)` on the limbs, as the source computes it. */
  function GreaterThan(a: seq<int>, b: seq<int>): bool {
    var ia, ib := MostSignificantIndex(a), MostSignificantIndex(b);
    if ia != ib then ia > ib else CompareFrom(a, b, ia)
  }

  /** The limbs `fromString` pushes: nine-character groups read from the right end of the
      string, the last (leftmost) group possibly shorter. */
  function Groups(s: string): seq<int>
    requires AllDigits(s)
    decreases |s|
  {
    if s == [] then []
    else if |s| <= 9 then [DecimalValue(s)]
    else [DecimalValue(s[|s| - 9..])] + Groups(s[..|s| - 9])
  }

  /** The i-th group from the right of a string of length n starts here. */
  function GroupStart(n: int, i: int): int {
    Max(0, n - 9 * (i + 1))
  }

  /** The limbs most significant first, each as `digit.toString().padStart(9, "0")`, joined. */
  function Joined(d: seq<int>): string {
    if d == [] then "" else Joined(d[1..]) + PadStart9(IntToString(d[0]))
  }

  /** `toString(false)`: "0" for empty limbs, otherwise the joined text with its leading zeros
      removed, or "0" when nothing is left. */
  function Render(d: seq<int>): string {
    if d == [] then "0" else Canonical(Joined(d))
  }

  // ---------------------------------------------------------------------------
  // The class

  class ScalingNumber {
    var digits: seq<int>

    /** `new ScalingNumber()`: the default value 0 leaves the limbs empty. */
    constructor Zero()
      ensures digits == []
    {
      digits := [];
    }

    /** `new ScalingNumber(value)`: rejects a negative value; 0 gives no limbs, a value below
        10^9 one limb, and a larger value its base-10^9 expansion. */
    static method Create(value: int) returns (r: Result<ScalingNumber, string>)
      ensures r.Failure? <==> value < 0
      ensures r.Failure? ==> r.error == NegativeValueError
      ensures r.Success? ==> fresh(r.value)
      ensures r.Success? && value == 0 ==> r.value.digits == []
      ensures r.Success? && 0 < value < Base ==> r.value.digits == [value]
      ensures r.Success? && value >= Base ==>
        var d := r.value.digits;
        Normal(d) && |d| >= 2 && d[|d| - 1] != 0 && Value(d) == value
    {
      if value < 0 {
        return Failure(NegativeValueError);
      }
      var n := new ScalingNumber.Zero();
      if value > 0 {
        if value >= Base {
          n.digits := SplitLimbs(value);
          LimbsOfExpansion(value);
          ValueBounds(n.digits);
          assert Pow(0) == 1 && Pow(1) == Base;
        } else {
          n.digits := [value];
        }
      }
      return Success(n);
    }

    /** `add`: a fresh number whose limbs are the carry-free limb-wise sums; neither operand
        changes. */
    method Add(other: ScalingNumber) returns (result: ScalingNumber)
      ensures fresh(result)
      ensures result.digits == AddLimbs(digits, other.digits)
      ensures Value(result.digits) == Value(digits) + Value(other.digits)
    {
      result := new ScalingNumber.Zero();
      var maxLength := Max(|digits|, |other.digits|);
      for i := 0 to maxLength
        invariant |result.digits| == i
        invariant forall j :: 0 <= j < i ==> result.digits[j] == At(digits, j) + At(other.digits, j)
      {
        var a := At(digits, i);
        var b := At(other.digits, i);
        result.digits := result.digits + [a + b];
      }
      AddLimbsValue(digits, other.digits);
    }

    /** `subtract`: throws when `other.isGreaterThan(this)`; otherwise a fresh number whose
        limbs are the borrow-free limb-wise differences. */
    method Subtract(other: ScalingNumber) returns (r: Result<ScalingNumber, string>)
      ensures r.Failure? <==> GreaterThan(other.digits, digits)
      ensures r.Failure? ==> r.error == LargerSubtrahendError
      ensures r.Success? ==> fresh(r.value) && r.value.digits == SubLimbs(digits, other.digits)
      ensures r.Success? ==> Value(r.value.digits) == Value(digits) - Value(other.digits)
    {
      var larger := other.IsGreaterThan(this);
      if larger {
        return Failure(LargerSubtrahendError);
      }
      var result := new ScalingNumber.Zero();
      var maxLength := Max(|digits|, |other.digits|);
      for i := 0 to maxLength
        invariant |result.digits| == i
        invariant forall j :: 0 <= j < i ==> result.digits[j] == At(digits, j) - At(other.digits, j)
      {
        var a := At(digits, i);
        var b := At(other.digits, i);
        result.digits := result.digits + [a - b];
      }
      SubLimbsValue(digits, other.digits);
      return Success(result);
    }

    /** `isGreaterThan`: compares most significant indices, then scans limbs downwards. */
    method IsGreaterThan(other: ScalingNumber) returns (gt: bool)
      ensures gt == GreaterThan(digits, other.digits)
    {
      var thisIndex := GetMostSignificantIndex();
      var otherIndex := other.GetMostSignificantIndex();
      if thisIndex != otherIndex {
        return thisIndex > otherIndex;
      }
      var i: int := thisIndex;
      while i >= 0
        invariant -1 <= i <= thisIndex
        invariant GreaterThan(digits, other.digits) == CompareFrom(digits, other.digits, i)
      {
        var a, b := Get(digits, i), Get(other.digits, i);
        if a != b {
          return Greater(a, b);
        }
        i := i - 1;
      }
      return false;
    }

    /** `getMostSignificantIndex`: scans down from the top limb for a non-zero one. */
    method GetMostSignificantIndex() returns (k: nat)
      ensures k == MostSignificantIndex(digits)
    {
      var i: int := |digits| - 1;
      while i >= 0
        invariant -1 <= i < |digits|
        invariant forall j :: i < j < |digits| ==> digits[j] == 0
      {
        if digits[i] != 0 {
          return i;
        }
        i := i - 1;
      }
      return 0;
    }

    /** `increment`: adds one to limb 0 in place, with no carry. */
    method Increment()
      modifies this
      ensures digits == Incremented(old(digits))
      ensures Value(digits) == Value(old(digits)) + 1
    {
      if |digits| == 0 {
        digits := [1];
      } else {
        digits := digits[0 := digits[0] + 1];
      }
    }

    /** `fromString`: a string that is not one or more decimal digits throws and leaves the
        limbs alone; otherwise the old limbs are discarded and the nine-digit groups pushed
        from the right. */
    method FromString(str: string) returns (r: Outcome<string>)
      modifies this
      ensures r.Fail? <==> !IsDigitString(str)
      ensures r.Fail? ==> r.error == InvalidInputError(str) && digits == old(digits)
      ensures r.Pass? ==> digits == Groups(str)
    {
      if !IsDigitString(str) {
        return Fail(InvalidInputError(str));
      }
      digits := [];
      var i: int := |str|;
      assert str[..Max(i, 0)] == str;
      while i > 0
        invariant i <= |str|
        invariant digits + Groups(str[..Max(i, 0)]) == Groups(str)
        decreases i
      {
        var group := str[Max(0, i - 9)..i];
        GroupsOfPrefix(str, i);
        var rest := Groups(str[..Max(i - 9, 0)]);
        assert digits + ([DecimalValue(group)] + rest) == (digits + [DecimalValue(group)]) + rest;
        digits := digits + [DecimalValue(group)];
        i := i - 9;
      }
      assert str[..|str|] == str;
      return Pass;
    }

    /** `getDigits`: a copy of the limbs. */
    function GetDigits(): (d: seq<int>)
      reads this
    {
      digits
    }
  }

  /** The base-10^9 expansion of v, least significant limb first: the limbs that repeated
      `value % 1e9` and `Math.floor(value / 1e9)` produce. */
  function LimbsOf(v: nat): seq<int>
    decreases v
  {
    if v == 0 then [] else [v % Base] + LimbsOf(v / Base)
  }

  /** The expansion is normal, empty exactly for 0, has a non-zero top limb and stands for v. */
  lemma {:induction false} LimbsOfExpansion(v: nat)
    ensures var d := LimbsOf(v);
      Normal(d) && Value(d) == v && (d == [] <==> v == 0) && (d != [] ==> d[|d| - 1] != 0)
    decreases v
  {
    if v > 0 {
      var d, rest := LimbsOf(v), LimbsOf(v / Base);
      LimbsOfExpansion(v / Base);
      assert d[1..] == rest;
      if rest != [] {
        assert d[|d| - 1] == rest[|rest| - 1];
      }
    }
  }

  /** The constructor's loop: push `value % 1e9`, then divide by 1e9, until nothing is left. */
  method SplitLimbs(value: nat) returns (limbs: seq<int>)
    ensures limbs == LimbsOf(value)
  {
    limbs := [];
    var v: nat := value;
    while v > 0
      invariant limbs + LimbsOf(v) == LimbsOf(value)
      decreases v
    {
      SplitStep(limbs, v);
      limbs := limbs + [v % Base];
      v := v / Base;
    }
    assert limbs + [] == limbs;
  }

  /** One turn of the constructor's loop moves the lowest limb of v onto the pushed limbs. */
  lemma SplitStep(limbs: seq<int>, v: nat)
    requires v > 0
    ensures limbs + LimbsOf(v) == (limbs + [v % Base]) + LimbsOf(v / Base)
  {
    var m, q := v % Base, v / Base;
    var rest := LimbsOf(q);
    assert LimbsOf(v) == [m] + rest;
    assert (limbs + [m]) + rest == limbs + ([m] + rest);
  }

  // ---------------------------------------------------------------------------
  // add and subtract

  lemma {:induction false} AddLimbsValue(a: seq<int>, b: seq<int>)
    ensures Value(AddLimbs(a, b)) == Value(a) + Value(b)
    decreases |a| + |b|
  {
    var s := AddLimbs(a, b);
    if s != [] {
      assert s[1..] == AddLimbs(Drop(a), Drop(b));
      AddLimbsValue(Drop(a), Drop(b));
      ValueUnfold(a);
      ValueUnfold(b);
    }
  }

  lemma {:induction false} SubLimbsValue(a: seq<int>, b: seq<int>)
    ensures Value(SubLimbs(a, b)) == Value(a) - Value(b)
    decreases |a| + |b|
  {
    var s := SubLimbs(a, b);
    if s != [] {
      assert s[1..] == SubLimbs(Drop(a), Drop(b));
      SubLimbsValue(Drop(a), Drop(b));
      ValueUnfold(a);
      ValueUnfold(b);
    }
  }

  /** Adding two normal numbers keeps every limb non-negative but may push one to 10^9 or
      beyond, since nothing is carried. */
  lemma AddLimbsRange(a: seq<int>, b: seq<int>)
    requires Normal(a) && Normal(b)
    ensures forall i :: 0 <= i < |AddLimbs(a, b)| ==> 0 <= AddLimbs(a, b)[i] <= 2 * Base - 2
    ensures AddLimbs([Base - 1], [1]) == [Base] && !Normal([Base])
  {
    assert AddLimbs([Base - 1], [1])[0] == Base;
  }

  // ---------------------------------------------------------------------------
  // increment

  /** Incrementing raises the value by exactly one and changes nothing above limb 0. */
  lemma IncrementedValue(d: seq<int>)
    ensures Value(Incremented(d)) == Value(d) + 1
    ensures |Incremented(d)| == if d == [] then 1 else |d|
    ensures d != [] ==> Incremented(d)[1..] == d[1..]
  {
    if d != [] {
      assert Incremented(d)[1..] == d[1..];
    }
  }

  /** On normal limbs, increment stays normal exactly when limb 0 is below 10^9 - 1. */
  lemma IncrementedNormal(d: seq<int>)
    requires Normal(d) && d != []
    ensures Normal(Incremented(d)) <==> d[0] < Base - 1
  {
    if d[0] == Base - 1 {
      assert Incremented(d)[0] == Base;
    }
  }

  // ---------------------------------------------------------------------------
  // isGreaterThan

  lemma {:induction false} CompareFromSame(d: seq<int>, i: int)
    ensures !CompareFrom(d, d, i)
    decreases i + 1
  {
    if i >= 0 {
      CompareFromSame(d, i - 1);
    }
  }

  /** No number is greater than itself. */
  lemma GreaterThanIrreflexive(d: seq<int>)
    ensures !GreaterThan(d, d)
  {
    CompareFromSame(d, MostSignificantIndex(d));
  }

  /** p x >= p y + p when x > y and p >= 1. */
  lemma MulStep(p: int, x: int, y: int)
    requires p >= 1 && x > y
    ensures p * x >= p * y + p
  {
    var d := x - y;
    assert p * x == p * y + p * d;
    assert p * (d - 1) >= 0;
    assert p * d == p * (d - 1) + p;
  }

  /** On normal limbs the downward scan from limb i orders the numbers formed by limbs 0..i. */
  lemma {:induction false} CompareFromValue(a: seq<int>, b: seq<int>, i: int)
    requires Normal(a) && Normal(b)
    requires -1 <= i < |a| && i < |b|
    ensures CompareFrom(a, b, i) <==> Value(a[..i + 1]) > Value(b[..i + 1])
    decreases i + 1
  {
    if i >= 0 {
      var pa, pb := a[..i], b[..i];
      assert a[..i + 1] == pa + [a[i]];
      assert b[..i + 1] == pb + [b[i]];
      ValueSnoc(pa, a[i]);
      ValueSnoc(pb, b[i]);
      ValueBounds(pa);
      ValueBounds(pb);
      if a[i] > b[i] {
        MulStep(Pow(i), a[i], b[i]);
      } else if a[i] < b[i] {
        MulStep(Pow(i), b[i], a[i]);
      } else {
        CompareFromValue(a, b, i - 1);
      }
    }
  }

  /** A normal, non-empty number lies in [Base^k, Base^(k+1)) for its most significant index k
      (from 0 when k = 0), and only limbs 0..k contribute to its value. */
  lemma SignificantBounds(d: seq<int>)
    requires Normal(d) && d != []
    ensures var k := MostSignificantIndex(d);
      Value(d) == Value(d[..k + 1]) && Value(d) < Pow(k + 1) && (k > 0 ==> Value(d) >= Pow(k))
  {
    var k := MostSignificantIndex(d);
    HighZeros(d, k + 1);
    ValueBounds(d[..k + 1]);
    assert d[..k + 1] == d[..k] + [d[k]];
    ValueSnoc(d[..k], d[k]);
    ValueBounds(d[..k]);
    if k > 0 {
      MulStep(Pow(k), d[k], 0);
    }
  }

  /** When `other` has at least one limb and both are normal, `isGreaterThan` is the order of
      the values. */
  lemma GreaterThanIsValueOrder(a: seq<int>, b: seq<int>)
    requires Normal(a) && Normal(b) && b != []
    ensures GreaterThan(a, b) <==> Value(a) > Value(b)
  {
    var ka, kb := MostSignificantIndex(a), MostSignificantIndex(b);
    SignificantBounds(b);
    if a == [] {
      ValueBounds(b);
    } else {
      SignificantBounds(a);
      if ka > kb {
        PowMonotone(kb + 1, ka);
      } else if ka < kb {
        PowMonotone(ka + 1, kb);
      } else {
        CompareFromValue(a, b, ka);
      }
    }
  }

  /** Against an empty `other` the scan compares with `undefined`: the answer is true only when
      a limb above limb 0 is non-zero, so a non-zero single-limb number is not greater than
      zero. */
  lemma GreaterThanEmptyOther(a: seq<int>)
    ensures GreaterThan(a, []) <==> MostSignificantIndex(a) > 0
    ensures !GreaterThan([5], []) && Value([5]) > Value([])
  {
    assert Get([5], 0) == Some(5);
  }

  /** When the guard of `subtract` passes on normal operands and `this` has limbs, the result
      stands for a non-negative value; from an empty `this` the guard lets 0 - 5 through and
      produces the limb -5. */
  lemma SubtractGuard(a: seq<int>, b: seq<int>)
    requires Normal(a) && Normal(b) && a != []
    requires !GreaterThan(b, a)
    ensures Value(SubLimbs(a, b)) >= 0
    ensures !GreaterThan([5], []) && SubLimbs([], [5]) == [-5]
  {
    GreaterThanIsValueOrder(b, a);
    SubLimbsValue(a, b);
    GreaterThanEmptyOther([5]);
  }

  /** Once `add` has left a limb of 10^9 or more, the guard of `subtract` misjudges the order:
      [0, 1] minus the sum [750000000] + [750000000] passes the guard and stands for a negative
      value. */
  lemma SubtractGuardAfterAdd()
    ensures AddLimbs([750000000], [750000000]) == [1500000000]
    ensures Value([1500000000]) > Value([0, 1])
    ensures !GreaterThan([1500000000], [0, 1])
    ensures Value(SubLimbs([0, 1], [1500000000])) < 0
  {
    assert Value([1]) == 1;
    assert Value([0, 1]) == Base;
    assert SubLimbs([0, 1], [1500000000]) == [-1500000000, 1];
    assert Value([-1500000000, 1]) == -1500000000 + Base;
  }

  // ---------------------------------------------------------------------------
  // fromString

  lemma Pow10Nine()
    ensures Pow10(9) == Base
  {
    assert Pow10(1) == 10;
    assert Pow10(3) == 1000;
    assert Pow10(6) == 1000000;
  }

  /** One turn of `fromString`'s loop: the groups of the first i characters are the group
      ending at i followed by the groups of what lies before it. */
  lemma GroupsOfPrefix(s: string, i: int)
    requires AllDigits(s) && 0 < i <= |s|
    ensures AllDigits(s[Max(0, i - 9)..i])
    ensures Groups(s[..i]) == [DecimalValue(s[Max(0, i - 9)..i])] + Groups(s[..Max(i - 9, 0)])
  {
    var p := s[..i];
    assert p[Max(0, i - 9)..] == s[Max(0, i - 9)..i];
    if i > 9 {
      assert p[..i - 9] == s[..i - 9];
    } else {
      assert s[..Max(i - 9, 0)] == [];
    }
  }

  /** `fromString` yields ceil(len / 9) limbs. */
  lemma {:induction false} GroupsLength(s: string)
    requires AllDigits(s)
    ensures |Groups(s)| == (|s| + 8) / 9
    decreases |s|
  {
    if |s| > 9 {
      GroupsLength(s[..|s| - 9]);
    }
  }

  /** Each limb `fromString` yields lies in [0, 10^9). */
  lemma {:induction false} GroupsNormal(s: string)
    requires AllDigits(s)
    ensures Normal(Groups(s))
    decreases |s|
  {
    if s == [] {
    } else if |s| <= 9 {
      DecimalValueBound(s);
      PowTen(|s|);
    } else {
      GroupsNormal(s[..|s| - 9]);
      DecimalValueBound(s[|s| - 9..]);
      Pow10Nine();
    }
  }

  /** Limb i of `fromString`'s result is the value of the i-th nine-character group from the
      right end of the string. */
  lemma {:induction false} GroupsAt(s: string, i: nat)
    requires AllDigits(s) && i < |Groups(s)|
    ensures GroupStart(|s|, i) <= |s| - 9 * i <= |s|
    ensures Groups(s)[i] == DecimalValue(s[GroupStart(|s|, i)..|s| - 9 * i])
    decreases |s|
  {
    GroupsLength(s);
    if |s| <= 9 {
      assert s[GroupStart(|s|, 0)..|s|] == s;
    } else if i == 0 {
      assert GroupStart(|s|, 0) == |s| - 9;
      assert s[|s| - 9..|s| - 9 * 0] == s[|s| - 9..];
    } else {
      var hi := s[..|s| - 9];
      GroupsLength(hi);
      GroupsAt(hi, i - 1);
      assert Groups(s)[i] == Groups(hi)[i - 1];
      assert GroupStart(|s|, i) == GroupStart(|hi|, i - 1);
      assert hi[GroupStart(|hi|, i - 1)..|hi| - 9 * (i - 1)]
          == s[GroupStart(|s|, i)..|s| - 9 * i];
    }
  }

  /** 10^k <= 10^9 for k <= 9. */
  lemma {:induction false} PowTen(k: nat)
    requires k <= 9
    ensures Pow10(k) <= Base
  {
    Pow10Nine();
    if k < 9 {
      PowTenMonotone(k, 9);
    }
  }

  lemma {:induction false} PowTenMonotone(i: nat, j: nat)
    requires i <= j
    ensures Pow10(i) <= Pow10(j)
    decreases j
  {
    if i < j {
      PowTenMonotone(i, j - 1);
    }
  }

  /** The limbs `fromString` pushes stand for the number the string spells, leading zeros
      included. */
  lemma {:induction false} GroupsValue(s: string)
    requires AllDigits(s)
    ensures Value(Groups(s)) == DecimalValue(s)
    decreases |s|
  {
    if s == [] {
    } else if |s| <= 9 {
      assert Value([DecimalValue(s)]) == DecimalValue(s) + Base * Value([]);
    } else {
      var lo, hi := s[|s| - 9..], s[..|s| - 9];
      GroupsValue(hi);
      assert s == hi + lo;
      DecimalValueAppend(hi, lo);
      Pow10Nine();
      assert Groups(s)[1..] == Groups(hi);
    }
  }

  // ---------------------------------------------------------------------------
  // toString(false)

  /** On normal limbs the joined text is nine digits per limb and spells the value. */
  lemma {:induction false} JoinedDigits(d: seq<int>)
    requires Normal(d)
    ensures AllDigits(Joined(d)) && |Joined(d)| == 9 * |d|
    ensures DecimalValue(Joined(d)) == Value(d)
  {
    if d != [] {
      JoinedDigits(d[1..]);
      var p := PadStart9(IntToString(d[0]));
      PaddedLimb(d[0]);
      Pow10Nine();
      DecimalValueAppend(Joined(d[1..]), p);
    }
  }

  /** A limb in [0, 10^9) prints, after padding, as nine digits spelling it. */
  lemma PaddedLimb(x: int)
    requires 0 <= x < Base
    ensures var p := PadStart9(IntToString(x));
      AllDigits(p) && |p| == 9 && DecimalValue(p) == x
  {
    var t := NatToString(x);
    Pow10Nine();
    NatToStringLength(x, 9);
    if |t| < 9 {
      LeadingZerosValue(9 - |t|, t);
    }
  }

  /** `toString(false)` on normal limbs is the decimal text of the value, without leading
      zeros ("0" for no limbs). */
  lemma RenderIsDecimal(d: seq<int>)
    requires Normal(d)
    ensures Value(d) >= 0 && Render(d) == NatToString(Value(d))
  {
    ValueBounds(d);
    if d != [] {
      JoinedDigits(d);
      CanonicalIsNatToString(Joined(d));
    }
  }

  /** `toString(false)` after a successful `fromString(s)` gives s without its leading zeros,
      or "0" when s is all zeros. */
  lemma FromStringThenRender(s: string)
    requires IsDigitString(s)
    ensures Render(Groups(s)) == Canonical(s)
  {
    GroupsLength(s);
    GroupsNormal(s);
    GroupsValue(s);
    RenderIsDecimal(Groups(s));
    CanonicalIsNatToString(s);
  }

  /** The limbs the constructor builds print as the decimal text of the value passed in. */
  lemma CreateThenRender(value: nat)
    ensures Render(LimbsOf(value)) == NatToString(value)
  {
    LimbsOfExpansion(value);
    RenderIsDecimal(LimbsOf(value));
  }
}
