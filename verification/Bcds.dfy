/**
  The decimal number class: addition with carry, subtraction by ten's complement,
  multiplication by repeated addition, and the canonical form.

  An operand of another object is passed as its value, so an object may be its own
  operand.
*/
module Bcds {
  import opened Decimals
  import opened BcdValues
  import opened Complements
  import opened Products

  // ----- adding digit strings --------------------------------------------------------------------

  lemma TailStep(a: seq<Digit>, i: nat)
    requires 0 < i <= |a|
    ensures Nat(a[i - 1..]) == a[i - 1] * Pow(|a| - i) + Nat(a[i..])
  {
    assert a[i - 1..] == [a[i - 1]] + a[i..];
    NatCons(a[i - 1], a[i..]);
  }

  /** One column: the digits da and db and the old carry give the digit d and the new carry. */
  lemma Column(r: seq<Digit>, na: nat, nb: nat, da: nat, db: nat, carry: nat, d: Digit, carry': nat)
    requires Nat(r) + carry * Pow(|r|) == na + nb
    requires da + db + carry == d + 10 * carry'
    ensures Nat([d] + r) + carry' * Pow(|r| + 1) == (da * Pow(|r|) + na) + (db * Pow(|r|) + nb)
  {
    hide Nat, Pow;
    NatCons(d, r);
    PowStep(|r|);
    Distribute(da, db, carry, Pow(|r|));
    Distribute(d, 10 * carry', 0, Pow(|r|));
    Regroup(carry', Pow(|r|));
  }

  lemma Distribute(x: int, y: int, z: int, p: int)
    ensures (x + y + z) * p == x * p + y * p + z * p
  {
  }

  lemma Regroup(x: int, p: int)
    ensures x * (10 * p) == (10 * x) * p
  {
  }

  /** The digit loop of add and sub: n-digit sums with the carry that is left over. */
  method AddDigits(a: seq<Digit>, b: seq<Digit>) returns (r: seq<Digit>, carry: nat)
    ensures |r| == Max(|a|, |b|) && carry <= 1
    ensures Nat(r) + carry * Pow(|r|) == Nat(a) + Nat(b)
  {
    hide Nat, Pow;
    r, carry := [], 0;
    var i, j := |a|, |b|;
    EmptyTails(a, b);
    while i > 0 || j > 0
      invariant 0 <= i <= |a| && 0 <= j <= |b| && carry <= 1
      invariant i == (if |a| > |r| then |a| - |r| else 0) && j == (if |b| > |r| then |b| - |r| else 0)
      invariant |r| <= Max(|a|, |b|)
      invariant Nat(r) + carry * Pow(|r|) == Nat(a[i..]) + Nat(b[j..])
      decreases i + j
    {
      ghost var na, nb, before := Nat(a[i..]), Nat(b[j..]), carry;
      var val, da, db := carry, 0, 0;
      if i > 0 {
        TailStep(a, i);
        i := i - 1;
        da := a[i];
        val := val + da;
      }
      if j > 0 {
        TailStep(b, j);
        j := j - 1;
        db := b[j];
        val := val + db;
      }
      var d: Digit;
      if val < 10 {
        d, carry := val, 0;
      } else {
        d, carry := (val + 6) % 16, 1;
      }
      Column(r, na, nb, da, db, before, d, carry);
      assert da == 0 ==> da * Pow(|r|) == 0;
      assert db == 0 ==> db * Pow(|r|) == 0;
      r := [d] + r;
    }
    assert a[0..] == a && b[0..] == b;
  }

  lemma EmptyTails(a: seq<Digit>, b: seq<Digit>)
    ensures Nat(a[|a|..]) == 0 && Nat(b[|b|..]) == 0 && Nat([]) == 0
  {
  }

  // ----- the class ------------------------------------------------------------------------------------

  class Bcd {
    var m_nibbles: seq<Digit>
    var m_scale: nat
    var m_sign: bool

    function Contents(): Num
      reads this
    {
      Num(m_nibbles, m_scale, m_sign)
    }

    constructor ()
      ensures Contents() == Num([], 0, true)
    {
      m_nibbles, m_scale, m_sign := [], 0, true;
    }

    /** The copy constructor. */
    constructor Copy(x: Num)
      ensures Contents() == x
    {
      m_nibbles, m_scale, m_sign := x.nibbles, x.scale, x.sign;
    }

    method Assign(x: Num)
      modifies this
      ensures Contents() == x
    {
      m_scale, m_nibbles, m_sign := x.scale, x.nibbles, x.sign;
    }

    /** set_value for an integer. */
    method SetValue(v: int)
      modifies this
      ensures Normalized(Contents()) && m_scale == 0 && m_sign == (v >= 0)
      ensures Nat(m_nibbles) == if v >= 0 then v else -v
    {
      hide Nat, Pow;
      m_nibbles := [];
      m_sign := v >= 0;
      m_scale := 0;
      var n := if v >= 0 then v else -v;
      ghost var w := n;
      EmptyTails([], []);
      PowZero();
      var first := true;
      while first || n > 0
        invariant n >= 0 && m_scale == 0 && m_sign == (v >= 0) && (first <==> m_nibbles == [])
        invariant Nat(m_nibbles) + n * Pow(|m_nibbles|) == w
        invariant !first && n == 0 ==> |m_nibbles| == 1 || m_nibbles[0] != 0
        invariant |m_nibbles| >= 1 && w < 10 ==> n == 0
        invariant |m_nibbles| >= 1 && w >= 10 && n == 0 ==> |m_nibbles| > 1
        decreases n, first
      {
        var d: Digit := n % 10;
        NatCons(d, m_nibbles);
        PowStep(|m_nibbles|);
        SplitDigit(n, Pow(|m_nibbles|));
        m_nibbles := [d] + m_nibbles;
        n := n / 10;
        first := false;
      }
    }

    /** Remove redundant zeros. */
    method Normalize()
      requires Proper(Contents())
      modifies this
      ensures Normalized(Contents()) && Magnitude(Contents()) == old(Magnitude(Contents())) && m_sign == old(m_sign)
      ensures m_scale <= old(m_scale)
    {
      hide Nat, Pow, Magnitude;
      ghost var x := Contents();
      var p := 0;
      var endp := if m_scale == 0 then |m_nibbles| - 1 else |m_nibbles| - m_scale - 1;
      while p != endp && m_nibbles[p] == 0
        invariant 0 <= p <= endp && m_nibbles[..p] == Zeros(p)
      {
        p := p + 1;
      }
      LeadingZeros(x, p);
      m_nibbles := m_nibbles[p..];
      while m_scale > 0 && m_nibbles[|m_nibbles| - 1] == 0
        invariant Proper(Contents()) && Magnitude(Contents()) == Magnitude(x) && m_sign == x.sign && m_scale <= x.scale
        invariant |m_nibbles| - m_scale == 1 || m_nibbles[0] != 0
        decreases m_scale
      {
        TrailingZero(Contents());
        m_scale := m_scale - 1;
        m_nibbles := m_nibbles[..|m_nibbles| - 1];
      }
    }

    /** add: the sum of the absolute values. */
    method Add(summand: Num)
      requires Proper(Contents()) && Proper(summand)
      modifies this
      ensures Normalized(Contents()) && m_sign && m_scale <= Max(old(m_scale), summand.scale)
      ensures Magnitude(Contents()) == old(Magnitude(Contents())) + Magnitude(summand)
    {
      hide Nat, Pow, Magnitude, Normalized, AtScale;
      ghost var x := Contents();
      var sumA, sumB, sc := ScaleZero(Contents(), summand);
      AtScaleSize(x, sc);
      var r, carry := AddDigits(sumA.nibbles, sumB.nibbles);
      if carry > 0 {
        NatCons(1, r);
        r := [1] + r;
      }
      AtScaleSum(x, summand, sc, Nat(r));
      ShiftedMagnitude(Num(r, 0, true), sc);
      var shifted := ShiftRight(Num(r, 0, true), sc);
      Assign(shifted);
      Normalize();
    }

    /** compl10: the ten's complement of an integer, without leading zeros. */
    static method Compl10(x: Num) returns (r: Num)
      requires x.nibbles != []
      ensures Proper(r) && r.scale == 0 && r.sign
      ensures Nat(x.nibbles) < Pow(|x.nibbles|) && Nat(r.nibbles) == Complement(|x.nibbles|, Nat(x.nibbles))
      ensures |r.nibbles| == Decimals.Width(Complement(|x.nibbles|, Nat(x.nibbles)))
    {
      hide Nat, Pow, Magnitude, Width;
      var nines := seq(|x.nibbles|, i requires 0 <= i < |x.nibbles| => 9 - x.nibbles[i]);
      NinesComplement(x.nibbles, nines);
      NatBound(x.nibbles);
      var result := new Bcd.Copy(Num(nines, 0, true));
      var one := new Bcd();
      one.SetValue(1);
      // both are positive, so the sum is formed by add
      result.Add(one.Contents());
      r := result.Contents();
      IntegerSum(Num(nines, 0, true), one.Contents(), r);
      WidthOf(r.nibbles);
    }

    /** sub: the difference of the absolute values, when the complement fits. */
    method Sub(subtrahend: Num)
      requires Proper(Contents()) && Proper(subtrahend)
      modifies this
      ensures Normalized(Contents())
      ensures SubtractionFits(old(Contents()), subtrahend) <==>
              Value(Contents()) == old(Magnitude(Contents())) - Magnitude(subtrahend)
      ensures SubtractionFits(old(Contents()), subtrahend) <==>
              Magnitude(Contents()) == Gap(old(Magnitude(Contents())), Magnitude(subtrahend))
      ensures SubtractionFits(old(Contents()), subtrahend) ==>
              m_sign == (old(Magnitude(Contents())) >= Magnitude(subtrahend))
      ensures old(m_scale) == 0 && subtrahend.scale == 0 ==>
                && m_scale == 0 && Nat(m_nibbles) == Difference(Of(old(Contents())), Of(subtrahend))
    {
      hide Nat, Pow, Magnitude, Normalized, AtScale, Subtracted;
      hide Complement, SubtractionFits, ComplementFits, Width, Zeros;
      ghost var x := Contents();
      var termA, termB, sc := ScaleZero(Contents(), subtrahend);
      AtScaleSize(x, sc);
      AtScaleSize(subtrahend, sc);
      var termBPrec := |termB.nibbles|;
      NatBound(termB.nibbles);
      if |termA.nibbles| > |termB.nibbles| {
        NatPrepend(|termA.nibbles| - |termB.nibbles|, termB.nibbles);
        termB := termB.(nibbles := Zeros(|termA.nibbles| - |termB.nibbles|) + termB.nibbles);
        ZerosSize(|termA.nibbles| - termBPrec);
      }
      termB := Compl10(termB);
      var r, carry := AddDigits(termA.nibbles, termB.nibbles);
      var result := Num(r, 0, true);
      NatBound(r);
      if carry == 0 {
        if |r| < termBPrec {
          NatPrepend(termBPrec - |r|, r);
          ZerosSize(termBPrec - |r|);
          result := result.(nibbles := Zeros(termBPrec - |r|) + r);
        }
        result := Compl10(result);
        result := result.(sign := false);
      }
      SubtractedIs(|termA.nibbles|, Nat(termA.nibbles), termBPrec, Nat(AtScale(subtrahend, sc)), |r|, carry, Nat(r),
                   result);
      SubtractedMeans(x, subtrahend, sc, result);
      ShiftedMagnitude(result, sc);
      IntegerAtScale(x);
      IntegerAtScale(subtrahend);
      var shifted := ShiftRight(result, sc);
      Assign(shifted);
      Normalize();
      if sc == 0 { SameInteger(Nat(result.nibbles), Contents()); }
    }

    /** std::abs(*this) >= std::abs(b) */
    method NotBelow(x: Num, y: Num) returns (r: bool)
      requires Proper(x) && Proper(y)
      ensures Normalized(x) && Normalized(y) ==> (r <==> Magnitude(x) >= Magnitude(y))
      ensures x.scale == 0 && y.scale == 0 ==> (r <==> !Shorter(Of(x), Of(y)))
    {
      hide Magnitude, Normalized, Nat;
      AbsFacts(x);
      AbsFacts(y);
      r := Equal(Abs(x), Abs(y));
      if !r { r := Greater(Abs(x), Abs(y)); }
    }

    /**
      operator+=.  Equal signs always give the sum; otherwise the sum comes out if and
      only if the subtraction of the absolute values fits.
    */
    method AddAssign(b: Num)
      requires Proper(Contents()) && Proper(b)
      modifies this
      ensures Normalized(Contents())
      ensures old(m_sign) == b.sign ==>
                && Value(Contents()) == old(Value(Contents())) + Value(b)
                && m_sign == b.sign && m_scale <= Max(old(m_scale), b.scale)
      ensures old(Normalized(Contents())) && Normalized(b) ==>
                (Value(Contents()) == old(Value(Contents())) + Value(b) <==>
                 old(m_sign) == b.sign || SubtractionFits(old(Contents()), b))
      ensures old(Normalized(Contents())) && Normalized(b) && old(m_sign) != b.sign ==>
                var x := old(Contents());
                m_sign == if b.sign then Magnitude(b) >= Magnitude(x) else Magnitude(x) >= Magnitude(b)
      ensures old(m_scale) == 0 && b.scale == 0 ==>
                && m_scale == 0 && Fine(Of(old(Contents()))) && Fine(Of(b))
                && Of(Contents()) == Sum(Of(old(Contents())), Of(b))
    {
      hide Nat, Magnitude, Normalized, SubtractionFits, Shorter;
      ghost var x := Contents();
      IntegerIsFine(x);
      IntegerIsFine(b);
      if m_sign == b.sign {
        Add(b);
        if x.scale == 0 && b.scale == 0 { IntegerSum(x, b, Contents()); }
        SetSign(b.sign);
      } else if m_sign {
        var sig := NotBelow(Contents(), b);
        Sub(b);
        SetSign(sig);
      } else {
        var sig := NotBelow(b, Contents());
        Sub(b);
        SetSign(sig);
      }
      NormalizedLength(Contents());
    }

    method SetSign(sig: bool)
      modifies this`m_sign
      ensures m_sign == sig
      ensures Magnitude(Contents()) == old(Magnitude(Contents()))
      ensures Normalized(Contents()) == old(Normalized(Contents()))
      ensures Of(Contents()) == Of(old(Contents())).(sign := sig)
    {
      m_sign := sig;
    }

    /**
      operator-=.  The difference comes out if and only if: for equal signs, the
      subtraction of the absolute values fits and two negatives do not cross zero; for
      a positive minus a negative, the first is not the smaller; for a negative minus a
      positive, the first is the larger, or both are zero.
    */
    method SubAssign(b: Num)
      requires Proper(Contents()) && Proper(b)
      modifies this
      ensures Normalized(Contents())
      ensures old(Normalized(Contents())) && Normalized(b) ==>
                var x := old(Contents());
                (Value(Contents()) == Value(x) - Value(b) <==>
                  if x.sign == b.sign then SubtractionFits(x, b) && (x.sign || Magnitude(x) >= Magnitude(b))
                  else if x.sign then Magnitude(x) >= Magnitude(b)
                  else Magnitude(x) > Magnitude(b) || Magnitude(x) == Magnitude(b) == 0.0)
      ensures old(Normalized(Contents())) && Normalized(b) ==>
                var x := old(Contents());
                m_sign == if x.sign then Magnitude(x) >= Magnitude(b) else b.sign && Magnitude(x) <= Magnitude(b)
      ensures old(Contents()) == b && Normalized(b) && b.sign && Magnitude(b) > 0.0 ==> Contents() == Num([0], 0, true)
    {
      hide Nat, Magnitude, Normalized, SubtractionFits;
      ghost var x := Contents();
      MagnitudeNonNegative(x);
      MagnitudeNonNegative(b);
      if m_sign == b.sign {
        var above := NotBelow(Contents(), b);
        var sig := if above then m_sign else false;
        if x == b && Normalized(b) && Magnitude(b) > 0.0 { LargerMinuendFits(x, b); }
        Sub(b);
        MagnitudeNonNegative(Contents());
        SetSign(sig);
        if b.sign && Magnitude(Contents()) == 0.0 { NormalizedZero(Contents()); }
      } else if m_sign {
        var sig := NotBelow(Contents(), b);
        Add(b);
        SetSign(sig);
      } else {
        var sig := NotBelow(b, Contents());
        Add(b);
        SetSign(sig);
      }
    }

    /**
      mul: add up the multiplicand as often as the digits of the multiplier say.  The
      product comes out if and only if the multiplication fits, which it does for every
      positive number.
    */
    method Mul(multiplier: Num)
      requires Proper(Contents()) && Proper(multiplier)
      modifies this
      ensures Normalized(Contents())
      ensures MultiplicationFits(old(Contents()), multiplier) <==>
              Magnitude(Contents()) == old(Magnitude(Contents())) * Magnitude(multiplier)
      ensures MultiplicationFits(old(Contents()), multiplier) ==>
              m_sign == (old(m_sign) || Magnitude(multiplier) == 0.0)
    {
      hide Nat, Pow, Magnitude, Normalized, AtScale, Proper, Times, Product, Shifted, Sum, MultiplicationFits;
      ghost var x := Contents();
      var factorA, factorB, sc := ScaleZero(Contents(), multiplier);
      AtScaleProper(x, sc);
      IntegerIsFine(factorA);
      var result := new Bcd();
      result.SetValue(0);
      var digits := factorB.nibbles;
      var b, c := |digits|, 0;
      ghost var a := Of(factorA);
      NothingYet(a, digits, result.Contents());
      while b > 0
        invariant 0 <= b <= |digits| && c == |digits| - b && fresh(result)
        invariant Normalized(result.Contents()) && result.m_scale == 0
        invariant Of(result.Contents()) == Product(a, digits[b..])
      {
        b := b - 1;
        var v := Multiple(factorA, digits[b]);
        ShiftedProper(v, c);
        ShiftedInteger(v, c);
        var shifted := ShiftLeft(v, c);
        Suffix(digits, b);
        ProductUnfolds(a, digits[b..]);
        c := c + 1;
        NormalizedIsProper(result.Contents());
        result.AddAssign(shifted);
      }
      assert digits[0..] == digits;
      NormalizedIsProper(result.Contents());
      ProductMeans(x, multiplier, sc, result.Contents());
      var once := ShiftRight(result.Contents(), sc);
      var twice := ShiftRight(once, sc);
      Assign(twice);
      Normalize();
    }

    /** The inner loop of mul: d times the multiplicand. */
    static method Multiple(factorA: Num, d: nat) returns (r: Num)
      requires Proper(factorA) && factorA.scale == 0
      ensures Proper(r) && r.scale == 0 && Fine(Of(factorA)) && Of(r) == Times(Of(factorA), d)
    {
      hide Nat, Magnitude, Normalized, Proper, Sum;
      IntegerIsFine(factorA);
      var v := new Bcd();
      v.SetValue(0);
      ZeroNumber(v.Contents());
      for i := 0 to d
        invariant fresh(v) && Normalized(v.Contents()) && v.m_scale == 0
        invariant Of(v.Contents()) == Times(Of(factorA), i)
      {
        NormalizedIsProper(v.Contents());
        v.AddAssign(factorA);
      }
      r := v.Contents();
      NormalizedIsProper(r);
    }

    /** operator*=: exact for all operands. */
    method MulAssign(b: Num)
      requires Proper(Contents()) && Proper(b)
      modifies this
      ensures Normalized(Contents()) && Value(Contents()) == old(Value(Contents())) * Value(b)
      ensures m_sign == (old(m_sign) == b.sign)
    {
      hide Nat, Magnitude, Normalized;
      ghost var y := Contents();
      AbsFacts(y);
      AbsFacts(b);
      var sig := m_sign == b.sign;
      var x := new Bcd.Copy(Abs(Contents()));
      AlwaysFits(Abs(y), Abs(b));
      x.Mul(Abs(b));
      x.SetSign(sig);
      Assign(x.Contents());
      SignRule(Magnitude(y), y.sign, Magnitude(b), b.sign);
    }
  }

  lemma AbsFacts(x: Num)
    ensures Magnitude(Abs(x)) == Magnitude(x) && (Normalized(Abs(x)) <==> Normalized(x))
    ensures (Proper(Abs(x)) <==> Proper(x))
  {
  }

  lemma NormalizedIsProper(x: Num)
    requires Normalized(x)
    ensures Proper(x)
  {
  }

  lemma AtScaleProper(x: Num, sc: nat)
    requires Proper(x) && sc >= x.scale
    ensures Proper(Num(AtScale(x, sc), 0, x.sign))
  {
  }

  lemma ShiftedProper(x: Num, c: nat)
    requires Proper(x)
    ensures Proper(ShiftedLeft(x, c))
  {
  }

  lemma ShiftedInteger(x: Num, c: nat)
    requires Proper(x) && x.scale == 0
    ensures Fine(Of(x)) && ShiftedLeft(x, c).scale == 0 && Of(ShiftedLeft(x, c)) == Shifted(Of(x), c)
  {
    hide Nat, Pow;
    IntegerIsFine(x);
    NatAppend(x.nibbles, c);
    assert x.nibbles + Zeros(0) == x.nibbles;
  }

  /** An integer as an operand of the specifications. */
  function Of(x: Num): Signed {
    Signed(x.sign, |x.nibbles|, Nat(x.nibbles))
  }

  lemma IntegerIsFine(x: Num)
    requires Proper(x)
    ensures Fine(Of(x))
  {
    NatBound(x.nibbles);
  }

  function Difference(x: Signed, y: Signed): int {
    Subtracted(x.len, x.n, y.len, y.n).1
  }

  lemma SameInteger(n: nat, x: Num)
    requires x.scale == 0 && Magnitude(x) == Ratio(n, 0)
    ensures Nat(x.nibbles) == n
  {
    RatioOrder(Nat(x.nibbles), n, 0);
  }

  lemma NormalizedLength(x: Num)
    requires Normalized(x)
    ensures x.scale == 0 ==> |x.nibbles| == Decimals.Width(Nat(x.nibbles))
  {
    if x.scale == 0 { WidthOf(x.nibbles); }
  }

  lemma NormalizedZero(x: Num)
    requires Normalized(x) && Magnitude(x) == 0.0
    ensures x == Num([0], 0, x.sign)
  {
    hide Nat;
    MagnitudeNonNegative(x);
    MagnitudeNonNegative(Num([0], 0, x.sign));
    NatSingle(0);
    NormalizedUnique(x, Num([0], 0, x.sign));
  }

  lemma ZeroNumber(x: Num)
    requires Normalized(x) && x.scale == 0 && x.sign && Nat(x.nibbles) == 0
    ensures Of(x) == ZERO
  {
    NormalizedLength(x);
  }

  lemma NothingYet(a: Signed, ds: seq<Digit>, x: Num)
    requires Fine(a) && Normalized(x) && x.scale == 0 && x.sign && Nat(x.nibbles) == 0
    ensures Of(x) == Product(a, ds[|ds|..])
  {
    ZeroNumber(x);
    assert ds[|ds|..] == [];
  }

  lemma Suffix(ds: seq<Digit>, b: nat)
    requires b < |ds|
    ensures ds[b..][1..] == ds[b + 1..] && ds[b..][0] == ds[b] && |ds[b..]| == |ds| - b
  {
  }

  /**
    When a product comes out: the multiplicand is positive, or the multiplier zero, or
    the multiplicand is not zero and the multiplier, on the common scale, has no zero
    digit above one that is not zero.
  */
  predicate MultiplicationFits(x: Num, y: Num) {
    || x.sign || Magnitude(y) == 0.0
    || (Magnitude(x) != 0.0 && Gapless(AtScale(y, Max(x.scale, y.scale))))
  }

  lemma AlwaysFits(x: Num, y: Num)
    requires x.sign
    ensures MultiplicationFits(x, y)
  {
  }

  /** The digits of the two operands, and the product that they should have. */
  lemma ProductMeans(x: Num, y: Num, sc: nat, r: Num)
    requires Proper(x) && Proper(y) && Proper(r) && r.scale == 0 && sc == Max(x.scale, y.scale)
    requires Fine(Of(Num(AtScale(x, sc), 0, x.sign)))
    requires Of(r) == Product(Of(Num(AtScale(x, sc), 0, x.sign)), AtScale(y, sc))
    ensures Proper(ShiftedRight(r, sc)) && Proper(ShiftedRight(ShiftedRight(r, sc), sc))
    ensures ShiftedRight(ShiftedRight(r, sc), sc).sign == r.sign
    ensures MultiplicationFits(x, y) <==>
            Magnitude(ShiftedRight(ShiftedRight(r, sc), sc)) == Magnitude(x) * Magnitude(y)
    ensures MultiplicationFits(x, y) ==> r.sign == (x.sign || Magnitude(y) == 0.0)
  {
    hide Nat, AtScale, Ratio, Magnitude, Product, Gapless, AllZero;
    var a, ds := Of(Num(AtScale(x, sc), 0, x.sign)), AtScale(y, sc);
    ProductExactIff(a, ds);
    AllZeroValue(ds);
    ZeroAtScale(x, sc);
    ZeroAtScale(y, sc);
    AtScaleMagnitude(x, sc);
    AtScaleMagnitude(y, sc);
    RatioProduct(a.n, Nat(ds), sc, sc);
    ShiftRightDivides(r, sc);
    ShiftRightDivides(ShiftedRight(r, sc), sc);
    TwiceRight(r, sc);
    RatioOrder(Nat(r.nibbles), a.n * Nat(ds), sc + sc);
  }

  lemma ZeroAtScale(x: Num, sc: nat)
    requires sc >= x.scale
    ensures Nat(AtScale(x, sc)) == 0 <==> Magnitude(x) == 0.0
  {
    hide Nat, Ratio;
    AtScaleMagnitude(x, sc);
    RatioOrder(Nat(AtScale(x, sc)), 0, sc);
    RatioZero(sc);
  }

  lemma TwiceRight(r: Num, sc: nat)
    requires Proper(r) && r.scale == 0
    ensures Proper(ShiftedRight(r, sc)) && Proper(ShiftedRight(ShiftedRight(r, sc), sc))
    ensures Magnitude(ShiftedRight(ShiftedRight(r, sc), sc)) == Ratio(Nat(r.nibbles), sc + sc)
  {
    hide Nat, Ratio;
    NatPrepend(|ShiftedRight(r, sc).nibbles| - |r.nibbles|, r.nibbles);
    var s := ShiftedRight(r, sc);
    NatPrepend(|ShiftedRight(s, sc).nibbles| - |s.nibbles|, s.nibbles);
  }

  lemma SignRule(a: real, s: bool, b: real, t: bool)
    ensures (if s then a else -a) * (if t then b else -b) == if s == t then a * b else -(a * b)
  {
  }

  lemma {:induction false} NinesComplement(ds: seq<Digit>, nines: seq<Digit>)
    requires |nines| == |ds| && forall i :: 0 <= i < |ds| ==> nines[i] == 9 - ds[i]
    ensures Nat(nines) == Pow(|ds|) - 1 - Nat(ds)
  {
    if ds != [] { NinesComplement(ds[..|ds| - 1], nines[..|ds| - 1]); }
  }

  lemma IntegerMagnitude(x: Num)
    requires x.scale == 0
    ensures Magnitude(x) == Nat(x.nibbles) as real
  {
    RatioOf(Nat(x.nibbles), 0);
    PowZero();
  }

  lemma IntegerSum(x: Num, y: Num, z: Num)
    requires x.scale == 0 && y.scale == 0 && z.scale == 0 && Magnitude(z) == Magnitude(x) + Magnitude(y)
    ensures Nat(z.nibbles) == Nat(x.nibbles) + Nat(y.nibbles)
  {
    hide Nat, Magnitude;
    IntegerMagnitude(x);
    IntegerMagnitude(y);
    IntegerMagnitude(z);
  }

  lemma ShiftedMagnitude(x: Num, sc: nat)
    requires Proper(x) && x.scale == 0
    ensures Magnitude(ShiftedRight(x, sc)) == Ratio(Nat(x.nibbles), sc)
  {
    ShiftRightDivides(x, sc);
  }

  /** The digits computed by sub are those of the specification. */
  lemma SubtractedIs(la: nat, a: nat, lb: nat, b: nat, w: nat, carry: nat, n: nat, result: Num)
    requires b < Pow(lb) && lb >= 1 && n < Pow(w) && carry <= 1
    requires w == Max(la, Width(Complement(Max(la, lb), b)))
    requires n + carry * Pow(w) == a + Complement(Max(la, lb), b)
    requires if carry == 0 then !result.sign && Nat(result.nibbles) == Complement(Max(w, lb), n)
             else result.sign && Nat(result.nibbles) == n
    ensures (!result.sign, Nat(result.nibbles)) == Subtracted(la, a, lb, b)
  {
    hide Pow, Nat, Width;
    PowMono(lb, Max(la, lb));
    PowMono(w, Max(w, lb));
    assert carry == 1 ==> carry * Pow(w) == Pow(w);
    assert carry == 0 ==> carry * Pow(w) == 0;
  }

  lemma SubtractedMeans(x: Num, y: Num, sc: nat, result: Num)
    requires Proper(x) && Proper(y) && sc == Max(x.scale, y.scale)
    requires (!result.sign, Nat(result.nibbles)) ==
             Subtracted(|AtScale(x, sc)|, Nat(AtScale(x, sc)), |AtScale(y, sc)|, Nat(AtScale(y, sc)))
    ensures var n := Nat(result.nibbles);
            && (SubtractionFits(x, y) <==>
                  (if result.sign then Ratio(n, sc) else -Ratio(n, sc)) == Magnitude(x) - Magnitude(y))
            && (SubtractionFits(x, y) <==> Ratio(n, sc) == Gap(Magnitude(x), Magnitude(y)))
            && (SubtractionFits(x, y) ==> result.sign == (Magnitude(x) >= Magnitude(y)))
  {
    hide Nat, Pow, Ratio, Magnitude, Subtracted, ComplementFits, AtScale;
    AtScaleSize(x, sc);
    AtScaleSize(y, sc);
    var p, q := AtScale(x, sc), AtScale(y, sc);
    var a: int, b: int, n: int := Nat(p), Nat(q), Nat(result.nibbles);
    NatBound(p);
    NatBound(q);
    SubtractedIff(|p|, a, |q|, b);
    AtScaleMagnitude(x, sc);
    AtScaleMagnitude(y, sc);
    AtScaleOrder(x, y, sc);
    RatioDifference(a, b, sc);
    RatioDifference(b, a, sc);
    RatioSum(0, n, sc);
    var signed: int := if result.sign then n else -n;
    RatioOrder(signed, a - b, sc);
    RatioOrder(n, Distance(a, b), sc);
  }

  lemma RatioDifference(m: int, n: int, s: nat)
    ensures Ratio(m - n, s) == Ratio(m, s) - Ratio(n, s)
  {
    hide Ratio;
    RatioSum(m, -n, s);
    RatioSum(n, 0, s);
  }

  lemma SplitDigit(n: int, p: int)
    requires n >= 0
    ensures (n % 10) * p + (n / 10) * (10 * p) == n * p
  {
    Regroup(n / 10, p);
    Distribute(n % 10, 10 * (n / 10), 0, p);
    assert n % 10 + 10 * (n / 10) == n;
  }

  lemma LeadingZeros(x: Num, p: nat)
    requires Proper(x) && p < |x.nibbles| - x.scale && x.nibbles[..p] == Zeros(p)
    ensures Magnitude(x.(nibbles := x.nibbles[p..])) == Magnitude(x)
  {
    NatPrepend(p, x.nibbles[p..]);
    assert x.nibbles == Zeros(p) + x.nibbles[p..];
  }

  lemma TrailingZero(x: Num)
    requires x.nibbles != [] && x.scale > 0 && x.nibbles[|x.nibbles| - 1] == 0
    ensures Magnitude(x.(nibbles := x.nibbles[..|x.nibbles| - 1], scale := x.scale - 1)) == Magnitude(x)
  {
    hide Ratio;
    var n := Nat(x.nibbles[..|x.nibbles| - 1]);
    assert Nat(x.nibbles) == n * 10;
    assert Pow(1) == 10;
    RatioScale(n, x.scale - 1, 1);
  }

  lemma AtScaleSize(x: Num, sc: nat)
    requires Proper(x) && sc >= x.scale
    ensures |AtScale(x, sc)| == |x.nibbles| + sc - x.scale >= 1
  {
  }

  lemma ZerosSize(k: nat)
    ensures |Zeros(k)| == k
  {
  }

  lemma AtScaleSum(x: Num, y: Num, sc: nat, n: nat)
    requires sc >= x.scale && sc >= y.scale && n == Nat(AtScale(x, sc)) + Nat(AtScale(y, sc))
    ensures Ratio(n, sc) == Magnitude(x) + Magnitude(y)
  {
    hide Ratio, Nat, AtScale, Magnitude;
    AtScaleMagnitude(x, sc);
    AtScaleMagnitude(y, sc);
    RatioSum(Nat(AtScale(x, sc)), Nat(AtScale(y, sc)), sc);
  }

  function Gap(x: real, y: real): real {
    if x >= y then x - y else y - x
  }
}
