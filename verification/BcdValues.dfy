/**
  Binary coded decimals as values: what a triple of digits, scale and sign denotes,
  shifting the decimal point, and the canonical form.
*/
module BcdValues {
  import opened Decimals

  /** m_nibbles, m_scale, m_sign */
  datatype Num = Num(nibbles: seq<Digit>, scale: nat, sign: bool)

  /** What the code asserts of its operands: at least one digit before the decimal point. */
  predicate Proper(x: Num) {
    |x.nibbles| > x.scale
  }

  /** No leading zero but the one before the point, no trailing zero behind it. */
  predicate Normalized(x: Num) {
    && Proper(x)
    && (|x.nibbles| - x.scale == 1 || x.nibbles[0] != 0)
    && (x.scale > 0 ==> x.nibbles[|x.nibbles| - 1] != 0)
  }

  /** The absolute value as a rational number. */
  function Magnitude(x: Num): real {
    Ratio(Nat(x.nibbles), x.scale)
  }

  function Value(x: Num): real {
    if x.sign then Magnitude(x) else -Magnitude(x)
  }

  function Abs(x: Num): Num {
    x.(sign := true)
  }

  lemma MagnitudeNonNegative(x: Num)
    ensures Magnitude(x) >= 0.0
    ensures Magnitude(x) == 0.0 <==> Nat(x.nibbles) == 0
  {
    RatioOrder(0, Nat(x.nibbles), x.scale);
    RatioOrder(Nat(x.nibbles), 0, x.scale);
    RatioOf(0, x.scale);
    PowPositive(x.scale);
  }

  function Max(m: nat, n: nat): nat {
    if m > n then m else n
  }

  // ----- shifting the decimal point ------------------------------------------------------------

  function ShiftedLeft(x: Num, c: nat): Num {
    if c > x.scale then x.(nibbles := x.nibbles + Zeros(c - x.scale), scale := 0) else x.(scale := x.scale - c)
  }

  function ShiftedRight(x: Num, c: nat): Num
    requires Proper(x)
  {
    x.(nibbles := Zeros(Max(|x.nibbles|, x.scale + c + 1) - |x.nibbles|) + x.nibbles, scale := x.scale + c)
  }

  method ShiftLeft(x: Num, c: nat) returns (r: Num)
    ensures r == ShiftedLeft(x, c)
  {
    if c == 0 { assert x.nibbles + Zeros(0) == x.nibbles; return x; }
    r := x;
    var n := c;
    if r.scale > 0 {
      if n > r.scale {
        n := n - r.scale;
        r := r.(scale := 0);
      } else {
        return r.(scale := r.scale - n);
      }
    }
    ghost var k := n;
    while n > 0
      invariant 0 <= n <= k && r == x.(nibbles := x.nibbles + Zeros(k - n), scale := 0)
    {
      assert x.nibbles + Zeros(k - n) + [0] == x.nibbles + Zeros(k - (n - 1));
      r := r.(nibbles := r.nibbles + [0]);
      n := n - 1;
    }
  }

  method ShiftRight(x: Num, c: nat) returns (r: Num)
    requires Proper(x)
    ensures r == ShiftedRight(x, c) && Proper(r)
  {
    hide ShiftedRight;
    r := x;
    ShiftRightNone(x);
    for i := 0 to c
      invariant r == ShiftedRight(x, i) && Proper(r)
    {
      ShiftRightStep(x, i);
      r := r.(scale := r.scale + 1);
      if r.scale >= |r.nibbles| {
        r := r.(nibbles := [0] + r.nibbles);
      }
    }
  }

  lemma ShiftRightNone(x: Num)
    requires Proper(x)
    ensures ShiftedRight(x, 0) == x
  {
    assert Zeros(0) + x.nibbles == x.nibbles;
  }

  lemma ShiftRightStep(x: Num, i: nat)
    requires Proper(x)
    ensures var r, s := ShiftedRight(x, i), ShiftedRight(x, i + 1);
            && Proper(r) && Proper(s) && s.scale == r.scale + 1 && s.sign == r.sign
            && s.nibbles == if r.scale + 1 >= |r.nibbles| then [0] + r.nibbles else r.nibbles
  {
    var k := Max(|x.nibbles|, x.scale + i + 1) - |x.nibbles|;
    assert Zeros(k + 1) == [0] + Zeros(k);
    assert ([0] + Zeros(k)) + x.nibbles == [0] + (Zeros(k) + x.nibbles);
  }

  /** Shifting left multiplies by a power of ten. */
  lemma ShiftLeftMultiplies(x: Num, c: nat)
    ensures Magnitude(ShiftedLeft(x, c)) == Magnitude(x) * Pow(c) as real && ShiftedLeft(x, c).sign == x.sign
  {
    hide Ratio, Pow, Nat, Zeros;
    if c > x.scale {
      NatAppend(x.nibbles, c - x.scale);
      ShiftedRatio(Nat(x.nibbles), x.scale, c, Nat(x.nibbles) * Pow(c - x.scale), 0);
    } else {
      ShiftedRatio(Nat(x.nibbles), x.scale, c, Nat(x.nibbles), x.scale - c);
    }
  }

  lemma ShiftedRatio(n: nat, s: nat, c: nat, m: nat, t: nat)
    requires if c > s then t == 0 && m == n * Pow(c - s) else t == s - c && m == n
    ensures Ratio(m, t) == Ratio(n, s) * Pow(c) as real
  {
    hide Ratio, Pow;
    RatioOf(n, s);
    RatioOf(m, t);
    PowPositive(t);
    if c > s {
      PowSum(s, c - s);
      CastProduct(Pow(s), Pow(c - s));
      CastProduct(n, Pow(c - s));
      assert Pow(0) == 1 by { PowZero(); }
      assert Ratio(n, s) * (Pow(s) as real * Pow(c - s) as real) == (Ratio(n, s) * Pow(s) as real) * Pow(c - s) as real;
    } else {
      PowSum(c, t);
      CastProduct(Pow(c), Pow(t));
      assert Ratio(n, s) * Pow(c) as real * Pow(t) as real == Ratio(n, s) * (Pow(c) as real * Pow(t) as real);
      Cancel(Ratio(m, t), Ratio(n, s) * Pow(c) as real, Pow(t) as real);
    }
  }

  lemma PowZero()
    ensures Pow(0) == 1
  {
  }

  /** Shifting right divides by a power of ten. */
  lemma ShiftRightDivides(x: Num, c: nat)
    requires Proper(x)
    ensures Magnitude(ShiftedRight(x, c)) * Pow(c) as real == Magnitude(x) && ShiftedRight(x, c).sign == x.sign
    ensures Nat(ShiftedRight(x, c).nibbles) == Nat(x.nibbles)
  {
    hide Ratio, Pow, Nat;
    var n := Nat(x.nibbles);
    NatPrepend(Max(|x.nibbles|, x.scale + c + 1) - |x.nibbles|, x.nibbles);
    ShiftedRatio(n, x.scale + c, c, n, x.scale);
  }

  // ----- a common scale ---------------------------------------------------------------------------

  /** The digits of x written with scale sc, without the point. */
  function AtScale(x: Num, sc: nat): seq<Digit>
    requires sc >= x.scale
  {
    x.nibbles + Zeros(sc - x.scale)
  }

  lemma ShiftedToScale(x: Num, sc: nat)
    requires sc >= x.scale
    ensures ShiftedLeft(x, sc) == Num(AtScale(x, sc), 0, x.sign)
  {
    if sc == x.scale { assert x.nibbles + Zeros(0) == x.nibbles; }
  }

  lemma AtScaleMagnitude(x: Num, sc: nat)
    requires sc >= x.scale
    ensures Ratio(Nat(AtScale(x, sc)), sc) == Magnitude(x)
  {
    NatAppend(x.nibbles, sc - x.scale);
    RatioScale(Nat(x.nibbles), x.scale, sc - x.scale);
  }

  /** scale_zero: both operands as integers of a common scale. */
  method ScaleZero(s1: Num, s2: Num) returns (d1: Num, d2: Num, sc: nat)
    requires Proper(s1) && Proper(s2)
    ensures sc == Max(s1.scale, s2.scale)
    ensures d1 == Num(AtScale(s1, sc), 0, s1.sign) && d2 == Num(AtScale(s2, sc), 0, s2.sign)
  {
    sc := if s1.scale > s2.scale then s1.scale else s2.scale;
    ShiftedToScale(s1, sc);
    ShiftedToScale(s2, sc);
    if sc > 0 {
      d1 := ShiftLeft(s1, sc);
      d2 := ShiftLeft(s2, sc);
    } else {
      d1, d2 := s1, s2;
    }
  }

  lemma AtScaleOrder(a: Num, b: Num, sc: nat)
    requires sc >= a.scale && sc >= b.scale
    ensures Magnitude(a) < Magnitude(b) <==> Nat(AtScale(a, sc)) < Nat(AtScale(b, sc))
    ensures Magnitude(a) == Magnitude(b) <==> Nat(AtScale(a, sc)) == Nat(AtScale(b, sc))
  {
    hide AtScale;
    AtScaleMagnitude(a, sc);
    AtScaleMagnitude(b, sc);
    RatioOrder(Nat(AtScale(a, sc)), Nat(AtScale(b, sc)), sc);
  }

  /** On a common scale the longer of two normalized numbers is the larger. */
  lemma LongerIsLarger(a: Num, b: Num, sc: nat)
    requires Normalized(a) && Normalized(b) && sc >= a.scale && sc >= b.scale
    requires |AtScale(a, sc)| < |AtScale(b, sc)|
    ensures Nat(AtScale(a, sc)) < Nat(AtScale(b, sc))
  {
    hide Nat, Pow;
    var x, y := AtScale(a, sc), AtScale(b, sc);
    assert y[0] == b.nibbles[0];
    NatBound(x);
    NatLower(y);
    PowMono(|x|, |y| - 1);
  }

  /** The canonical form is unique. */
  lemma NormalizedUnique(a: Num, b: Num)
    requires Normalized(a) && Normalized(b) && Magnitude(a) == Magnitude(b) && a.sign == b.sign
    ensures a == b
  {
    hide Nat, Magnitude;
    var sc := Max(a.scale, b.scale);
    var x, y := AtScale(a, sc), AtScale(b, sc);
    AtScaleOrder(a, b, sc);
    if |x| < |y| { LongerIsLarger(a, b, sc); }
    if |y| < |x| { LongerIsLarger(b, a, sc); }
    NatInjective(x, y);
    assert a.scale <= b.scale by { SameTail(a, b, sc); }
    assert b.scale <= a.scale by { SameTail(b, a, sc); }
    assert a.nibbles == x[..|a.nibbles|] && b.nibbles == y[..|b.nibbles|];
  }

  lemma SameTail(a: Num, b: Num, sc: nat)
    requires Normalized(a) && Normalized(b) && sc == Max(a.scale, b.scale) && AtScale(a, sc) == AtScale(b, sc)
    ensures a.scale <= b.scale
  {
    var x, y := AtScale(a, sc), AtScale(b, sc);
    assert sc == a.scale ==> x == a.nibbles;
    PaddedTail(b, sc);
  }

  lemma PaddedTail(x: Num, sc: nat)
    requires Proper(x) && sc >= x.scale
    ensures sc > x.scale ==> AtScale(x, sc)[|AtScale(x, sc)| - 1] == 0
  {
  }

  // ----- comparison ----------------------------------------------------------------------------------

  /** Digit strings by length, then by value. */
  predicate Before(s: seq<Digit>, t: seq<Digit>) {
    |s| < |t| || (|s| == |t| && Nat(s) < Nat(t))
  }

  /** The common part of the comparisons: the sign of |a| - |b|, for operands without redundant digits. */
  method Compare(a: Num, b: Num) returns (c: int)
    requires Proper(a) && Proper(b)
    ensures c in {-1, 0, 1}
    ensures Normalized(a) && Normalized(b) ==>
              (c < 0 <==> Magnitude(a) < Magnitude(b)) && (c == 0 <==> Magnitude(a) == Magnitude(b))
    ensures a.scale == 0 && b.scale == 0 ==>
              (c < 0 <==> Before(a.nibbles, b.nibbles)) && (c == 0 <==> a.nibbles == b.nibbles)
  {
    hide Nat, Magnitude, AtScale, Normalized;
    var valA, valB, sc := ScaleZero(a, b);
    IntegerAtScale(a);
    IntegerAtScale(b);
    AtScaleOrder(a, b, sc);
    AtScaleOrder(b, a, sc);
    if |valA.nibbles| < |valB.nibbles| {
      if Normalized(a) && Normalized(b) { LongerIsLarger(a, b, sc); }
      return -1;
    }
    if |valA.nibbles| > |valB.nibbles| {
      if Normalized(a) && Normalized(b) { LongerIsLarger(b, a, sc); }
      return 1;
    }
    for i := 0 to |valA.nibbles|
      invariant valA.nibbles[..i] == valB.nibbles[..i]
    {
      if valA.nibbles[i] == valB.nibbles[i] { continue; }
      if valA.nibbles[i] < valB.nibbles[i] {
        FirstDifference(valA.nibbles, valB.nibbles, i);
        return -1;
      } else {
        FirstDifference(valB.nibbles, valA.nibbles, i);
        return 1;
      }
    }
    assert valA.nibbles == valA.nibbles[..|valA.nibbles|] && valB.nibbles == valB.nibbles[..|valB.nibbles|];
    return 0;
  }

  lemma IntegerAtScale(x: Num)
    ensures x.scale == 0 ==> AtScale(x, 0) == x.nibbles
  {
    assert x.nibbles + Zeros(0) == x.nibbles;
  }

  predicate NegativeZero(x: Num) {
    !x.sign && Magnitude(x) == 0.0
  }

  /** operator<: decides the rational order, except that negative zero is below zero. */
  method Less(a: Num, b: Num) returns (r: bool)
    requires Proper(a) && Proper(b)
    ensures Normalized(a) && Normalized(b) ==>
              (r <==> Value(a) < Value(b) || (NegativeZero(a) && b.sign && Magnitude(b) == 0.0))
  {
    hide Magnitude, Normalized;
    MagnitudeNonNegative(a);
    MagnitudeNonNegative(b);
    if a.sign != b.sign { return b.sign; }
    var c := Compare(a, b);
    r := if a.sign then c < 0 else c > 0;
  }

  /** operator> */
  method Greater(a: Num, b: Num) returns (r: bool)
    requires Proper(a) && Proper(b)
    ensures Normalized(a) && Normalized(b) ==>
              (r <==> Value(a) > Value(b) || (NegativeZero(b) && a.sign && Magnitude(a) == 0.0))
    ensures a.scale == 0 && b.scale == 0 && a.sign && b.sign ==>
              (r <==> !Before(a.nibbles, b.nibbles) && a.nibbles != b.nibbles)
  {
    hide Magnitude, Normalized;
    MagnitudeNonNegative(a);
    MagnitudeNonNegative(b);
    if a.sign != b.sign { return a.sign; }
    var c := Compare(a, b);
    r := if a.sign then c > 0 else c < 0;
  }

  /** operator==: equality of rationals, except that zero and negative zero differ. */
  method Equal(a: Num, b: Num) returns (r: bool)
    requires Proper(a) && Proper(b)
    ensures Normalized(a) && Normalized(b) ==> (r <==> Value(a) == Value(b) && NegativeZero(a) == NegativeZero(b))
    ensures Normalized(a) && Normalized(b) ==> (r <==> a == b)
    ensures a.scale == 0 && b.scale == 0 && a.sign == b.sign ==> (r <==> a.nibbles == b.nibbles)
  {
    hide Magnitude, Normalized;
    MagnitudeNonNegative(a);
    MagnitudeNonNegative(b);
    var c := Compare(a, b);
    r := c == 0 && a.sign == b.sign;
    if Normalized(a) && Normalized(b) && Magnitude(a) == Magnitude(b) && a.sign == b.sign { NormalizedUnique(a, b); }
  }
}
