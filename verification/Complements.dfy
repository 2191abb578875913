/**
  When subtraction by ten's complement works: the subtrahend's complement loses its
  leading zeros, and the sum is taken as negative if it has no carry.
*/
module Complements {
  import opened Decimals
  import opened BcdValues

  /** The ten's complement of an l-digit number. */
  function Complement(l: nat, b: nat): nat {
    if b < Pow(l) then Pow(l) - b else 0
  }

  /**
    What sub computes for digit strings of la and lb digits denoting a and b: whether
    the result is taken as negative, and its absolute value.
  */
  function Subtracted(la: nat, a: nat, lb: nat, b: nat): (bool, int) {
    var c := Complement(Max(la, lb), b);
    var w := Max(la, Width(c));
    if a + c >= Pow(w) then (false, a + c - Pow(w)) else (true, Pow(Max(w, lb)) - (a + c))
  }

  /**
    The complement is as long as the minuend, or keeps its length, or at least adding
    it does not overflow the digits there are.
  */
  predicate ComplementFits(la: nat, a: nat, lb: nat, b: nat) {
    && b != 0
    && (|| la >= lb
        || Width(Complement(lb, b)) == lb
        || a + Complement(lb, b) < Pow(Max(la, Width(Complement(lb, b)))))
  }

  function Distance(a: nat, b: nat): nat {
    if a >= b then a - b else b - a
  }

  lemma WidthFromBounds(n: nat, k: nat)
    requires k >= 1 && n < Pow(k) && (k == 1 || n >= Pow(k - 1))
    ensures Width(n) == k
  {
    var w := Width(n);
    WidthBounds(n);
    if w < k { PowMono(w, k - 1); }
    if w > k { PowMono(k, w - 1); }
  }

  /** A zero subtrahend has a complement of one digit too many, and the result is always wrong. */
  lemma SubtractZero(la: nat, a: nat, lb: nat)
    requires la >= 1 && lb >= 1 && a < Pow(la)
    ensures Subtracted(la, a, lb, 0) == (true, 9 * Pow(Max(la, lb)) - a)
    ensures 9 * Pow(Max(la, lb)) - a > a
  {
    var l := Max(la, lb);
    PowMono(la, l);
    PowPositive(l);
    WidthFromBounds(Pow(l), l + 1);
  }

  lemma ComplementWidth(l: nat, b: nat)
    requires l >= 1 && 0 < b < Pow(l)
    ensures 1 <= Width(Pow(l) - b) <= l
  {
    var c := Pow(l) - b;
    WidthBounds(c);
    if Width(c) > l { PowMono(l, Width(c) - 1); }
  }

  /** With a full-length sum, sub is right. */
  lemma SubtractFull(la: nat, a: nat, lb: nat, b: nat)
    requires la >= 1 && lb >= 1 && a < Pow(la) && 0 < b < Pow(lb)
    requires la >= lb || Width(Pow(lb) - b) == lb
    ensures Subtracted(la, a, lb, b) == (a < b, Distance(a, b))
  {
    hide Pow, Width;
    var l := Max(la, lb);
    PowMono(lb, l);
    ComplementWidth(l, b);
  }

  /** With a short sum, sub is right exactly when the sum does not overflow. */
  lemma SubtractShort(la: nat, a: nat, lb: nat, b: nat)
    requires 1 <= la < lb && a < Pow(la) && 0 < b < Pow(lb) && Width(Pow(lb) - b) < lb
    ensures var w := Max(la, Width(Pow(lb) - b));
            if a + Pow(lb) - b < Pow(w) then Subtracted(la, a, lb, b) == (a < b, Distance(a, b))
            else 0 <= Subtracted(la, a, lb, b).1 < Distance(a, b) && a < b && !Subtracted(la, a, lb, b).0
  {
    hide Width, Pow;
    var c := Pow(lb) - b;
    var w := Max(la, Width(c));
    WidthBounds(c);
    PowMono(Width(c), lb - 1);
    PowMono(la, lb - 1);
    PowMono(w, lb - 1);
    PowStep(lb - 1);
    PowPositive(lb - 1);
  }

  /**
    sub yields the distance with the right sign if and only if the complement fits;
    otherwise not even the distance.
  */
  lemma SubtractedIff(la: nat, a: nat, lb: nat, b: nat)
    requires la >= 1 && lb >= 1 && a < Pow(la) && b < Pow(lb)
    ensures ComplementFits(la, a, lb, b) ==> Subtracted(la, a, lb, b) == (a < b, Distance(a, b))
    ensures !ComplementFits(la, a, lb, b) ==> Subtracted(la, a, lb, b).1 != Distance(a, b)
    ensures !ComplementFits(la, a, lb, b) ==>
              (if Subtracted(la, a, lb, b).0 then -Subtracted(la, a, lb, b).1 else Subtracted(la, a, lb, b).1) != a - b
    ensures Subtracted(la, a, lb, b).1 >= 0
  {
    hide Pow, Width, Subtracted;
    if b == 0 {
      SubtractZero(la, a, lb);
    } else {
      if la < lb { ComplementWidth(lb, b); }
      if la >= lb || Width(Pow(lb) - b) == lb {
        SubtractFull(la, a, lb, b);
      } else {
        SubtractShort(la, a, lb, b);
      }
    }
  }

  /** The condition on two numbers. */
  predicate SubtractionFits(x: Num, y: Num) {
    var sc := Max(x.scale, y.scale);
    var a, b := AtScale(x, sc), AtScale(y, sc);
    ComplementFits(|a|, Nat(a), |b|, Nat(b))
  }

  /** For normalized numbers |x| >= |y| > 0 is enough. */
  lemma LargerMinuendFits(x: Num, y: Num)
    requires Normalized(x) && Normalized(y) && Magnitude(x) >= Magnitude(y) > 0.0
    ensures SubtractionFits(x, y)
  {
    hide Nat, Pow, Magnitude, Width, AtScale;
    var sc := Max(x.scale, y.scale);
    AtScaleOrder(x, y, sc);
    if |AtScale(x, sc)| < |AtScale(y, sc)| { LongerIsLarger(x, y, sc); }
    assert Nat(AtScale(y, sc)) != 0 by {
      AtScaleMagnitude(y, sc);
      RatioZero(sc);
    }
  }

  lemma RatioZero(s: nat)
    ensures Ratio(0, s) == 0.0
  {
  }

  /** A shorter minuend can be lost: 5 - 95 comes out as 0. */
  lemma ShortMinuendFails()
    ensures var x, y := Num([5], 0, true), Num([9, 5], 0, true);
            Normalized(x) && Normalized(y) && !SubtractionFits(x, y) && Subtracted(1, 5, 2, 95) == (false, 0)
  {
    hide *;
    SmallNumbers();
    FiveAndNinetyFive();
    ShortSum();
  }

  /** For integers the condition is about their own digits. */
  lemma IntegersFit(x: Num, y: Num)
    requires x.scale == 0 && y.scale == 0
    ensures SubtractionFits(x, y) <==> ComplementFits(|x.nibbles|, Nat(x.nibbles), |y.nibbles|, Nat(y.nibbles))
  {
    hide Nat, ComplementFits;
    assert x.nibbles + Zeros(0) == x.nibbles && y.nibbles + Zeros(0) == y.nibbles;
  }

  lemma FiveAndNinetyFive()
    ensures var x, y := Num([5], 0, true), Num([9, 5], 0, true);
            Normalized(x) && Normalized(y) && (SubtractionFits(x, y) <==> ComplementFits(1, Nat([5]), 2, Nat([9, 5])))
  {
    hide Nat, ComplementFits, SubtractionFits;
    IntegersFit(Num([5], 0, true), Num([9, 5], 0, true));
  }

  lemma ShortSum()
    ensures !ComplementFits(1, 5, 2, 95) && Subtracted(1, 5, 2, 95) == (false, 0)
  {
    hide Nat, Pow, Width;
    SmallNumbers();
    assert Complement(2, 95) == 5;
  }

  lemma SmallNumbers()
    ensures Pow(1) == 10 && Pow(2) == 100 && Width(5) == 1 && Nat([5]) == 5 && Nat([9, 5]) == 95
  {
    NatSingle(5);
    NatSingle(9);
    assert [9, 5][..1] == [9];
  }
}
