/**
  What multiplication by repeated addition computes, for integers.

  A positive multiplicand gives the product.  For a negative one the partial products
  of zero digits come out as +0, and adding them to a negative sum subtracts zero, which
  the complement gets wrong.  The product is right if and only if no zero digit of the
  multiplier stands above a digit that is not zero.
*/
module Products {
  import opened Decimals
  import opened BcdValues
  import opened Complements

  /** An integer as the class holds it: its sign, how many digits it is written with, and its absolute value. */
  datatype Signed = Signed(sign: bool, len: nat, n: nat)

  predicate Fine(x: Signed) {
    x.len >= 1 && x.n < Pow(x.len)
  }

  const ZERO := Signed(true, 1, 0)

  /** How comparison orders absolute values: by length, then by value. */
  predicate Shorter(x: Signed, y: Signed) {
    x.len < y.len || (x.len == y.len && x.n < y.n)
  }

  /** operator+= on integers; the result has no leading zeros. */
  function Sum(x: Signed, y: Signed): (r: Signed)
    requires Fine(x) && Fine(y)
    ensures Fine(r) && r.len == Width(r.n)
  {
    SubtractedIff(x.len, x.n, y.len, y.n);
    var n := if x.sign == y.sign then x.n + y.n else Subtracted(x.len, x.n, y.len, y.n).1;
    WidthBounds(n);
    var sign := if x.sign == y.sign then y.sign else if x.sign then !Shorter(x, y) else !Shorter(y, x);
    Signed(sign, Width(n), n)
  }

  /** d times the multiplicand. */
  function Times(a: Signed, d: nat): (r: Signed)
    requires Fine(a)
    ensures Fine(r) && r.len == Width(r.n)
  {
    if d == 0 then ZeroIsFine(); ZERO else Sum(Times(a, d - 1), a)
  }

  lemma ZeroIsFine()
    ensures Fine(ZERO) && ZERO.len == Width(ZERO.n)
  {
    PowStep(0);
  }

  function Shifted(x: Signed, c: nat): (r: Signed)
    requires Fine(x)
    ensures Fine(r)
  {
    ShiftedIsFine(x, c);
    Signed(x.sign, x.len + c, x.n * Pow(c))
  }

  lemma ShiftedIsFine(x: Signed, c: nat)
    requires Fine(x)
    ensures Fine(Signed(x.sign, x.len + c, x.n * Pow(c)))
  {
    hide Pow;
    PowSum(x.len, c);
    PowPositive(c);
    MulStep(x.n, Pow(x.len), Pow(c));
  }

  /** The sum of the partial products, the lowest digit first. */
  function Product(a: Signed, ds: seq<Digit>): (r: Signed)
    requires Fine(a)
    ensures Fine(r) && r.len == Width(r.n)
  {
    if ds == [] then ZeroIsFine(); ZERO
    else Sum(Product(a, ds[1..]), Shifted(Times(a, ds[0]), |ds| - 1))
  }

  lemma ProductUnfolds(a: Signed, ds: seq<Digit>)
    requires Fine(a) && ds != []
    ensures Product(a, ds) == Sum(Product(a, ds[1..]), Shifted(Times(a, ds[0]), |ds| - 1))
  {
    hide Pow, Width, Times, Sum, Shifted;
  }

  /** A zero digit has only zeros below it. */
  predicate Gapless(ds: seq<Digit>) {
    forall i, j :: 0 <= i < j < |ds| && ds[i] == 0 ==> ds[j] == 0
  }

  predicate AllZero(ds: seq<Digit>) {
    forall i :: 0 <= i < |ds| ==> ds[i] == 0
  }

  // ----- multiples -------------------------------------------------------------------------------

  ghost predicate Divides(q: int, x: int) {
    exists k: int :: x == k * q
  }

  lemma DividesSum(q: int, x: int, y: int)
    requires Divides(q, x) && Divides(q, y)
    ensures Divides(q, x + y) && Divides(q, x - y) && Divides(q, -x)
  {
    var k: int :| x == k * q;
    var l: int :| y == l * q;
    assert x + y == (k + l) * q && x - y == (k - l) * q && -x == (-k) * q;
  }

  lemma DividesTimes(q: int, k: int)
    ensures Divides(q, k * q) && Divides(q, 0)
  {
    assert 0 == 0 * q;
  }

  lemma DividesSmall(q: int, x: int)
    requires q > 0 && Divides(q, x) && -q < x < q
    ensures x == 0
  {
    var k: int :| x == k * q;
    assert (-k) * q == -(k * q);
    if k >= 1 { MulLower(k, q); }
    if k <= -1 { MulLower(-k, q); }
  }

  lemma DividesPow(s: nat, t: nat)
    requires s <= t
    ensures Divides(Pow(s), Pow(t))
  {
    hide Pow;
    PowSum(t - s, s);
    assert t - s + s == t;
  }

  lemma DividesLess(s: nat, t: nat, x: int)
    requires s <= t && Divides(Pow(t), x)
    ensures Divides(Pow(s), x)
  {
    hide Pow;
    var k: int :| x == k * Pow(t);
    PowSum(t - s, s);
    assert t - s + s == t;
    Associate(k, Pow(t - s), Pow(s));
  }

  lemma Associate(x: int, y: int, z: int)
    ensures (x * y) * z == x * (y * z)
  {
  }

  /** A positive multiple of a power of ten has more digits than the power has zeros. */
  lemma WideMultiple(s: nat, n: nat)
    requires n > 0 && Divides(Pow(s), n)
    ensures n >= Pow(s) && Width(n) > s
  {
    hide Pow, Width;
    PowPositive(s);
    if n < Pow(s) { DividesSmall(Pow(s), n); }
    WidthAbove(s, n);
  }

  lemma WidthAbove(s: nat, n: nat)
    requires n >= Pow(s)
    ensures Width(n) > s
  {
    hide Pow, Width;
    WidthBounds(n);
    if Width(n) <= s { PowMono(Width(n), s); }
  }

  // ----- one addition, up to multiples -----------------------------------------------------------

  /** The same up to its sign and multiples of q. */
  ghost predicate Congruent(q: int, x: int, y: int) {
    Divides(q, x - y) || Divides(q, x + y)
  }

  lemma CongruentTrans(q: int, x: int, y: int, z: int)
    requires Congruent(q, x, y) && Congruent(q, y, z)
    ensures Congruent(q, x, z)
  {
    hide Divides;
    if Divides(q, x - y) {
      if Divides(q, y - z) { DividesSum(q, x - y, y - z); } else { DividesSum(q, x - y, y + z); }
    } else {
      if Divides(q, y - z) { DividesSum(q, x + y, y - z); } else { DividesSum(q, x + y, y + z); }
    }
  }

  /** Subtraction is right up to multiples of Pow(s), if the numbers at work have s digits. */
  lemma SubtractedCongruent(la: nat, a: nat, lb: nat, b: nat, s: nat)
    requires la >= 1 && lb >= 1 && a < Pow(la) && b < Pow(lb) && Max(la, lb) >= s
    requires Max(la, Width(Complement(Max(la, lb), b))) >= s
    ensures Subtracted(la, a, lb, b).1 >= 0 && Congruent(Pow(s), Subtracted(la, a, lb, b).1, a - b)
  {
    hide Pow, Width, Divides, Congruent, Subtracted;
    SubtractedIff(la, a, lb, b);
    var l := Max(la, lb);
    PowMono(lb, l);
    var w := Max(la, Width(Complement(l, b)));
    var v := Max(w, lb);
    SubtractedForm(la, a, lb, b);
    PowersCongruent(s, l, w, a - b);
    PowersCongruent(s, l, v, a - b);
  }

  lemma SubtractedForm(la: nat, a: nat, lb: nat, b: nat)
    requires la >= 1 && lb >= 1 && a < Pow(la) && b < Pow(lb) <= Pow(Max(la, lb))
    ensures var l := Max(la, lb);
            var w := Max(la, Width(Complement(l, b)));
            || Subtracted(la, a, lb, b).1 == (a - b) + Pow(l) - Pow(w)
            || Subtracted(la, a, lb, b).1 == Pow(Max(w, lb)) - Pow(l) - (a - b)
  {
    hide Pow, Width;
  }

  lemma PowersCongruent(s: nat, l: nat, w: nat, d: int)
    requires s <= l && s <= w
    ensures Congruent(Pow(s), d + Pow(l) - Pow(w), d) && Congruent(Pow(s), Pow(w) - Pow(l) - d, d)
  {
    hide Pow, Divides;
    DividesPow(s, l);
    DividesPow(s, w);
    DividesSum(Pow(s), Pow(l), Pow(w));
    DividesSum(Pow(s), Pow(w), Pow(l));
    assert (d + Pow(l) - Pow(w)) - d == Pow(l) - Pow(w);
    assert (Pow(w) - Pow(l) - d) + d == Pow(w) - Pow(l);
  }

  /** A difference, where what is added is a multiple of Pow(j). */
  lemma SumOpposite(x: Signed, y: Signed, j: nat, s: nat)
    requires Fine(x) && Fine(y) && x.sign != y.sign && Divides(Pow(j), y.n) && s <= j + 1
    requires y.n == 0 ==> Max(x.len, y.len) >= s
    ensures Congruent(Pow(s), Sum(x, y).n, x.n - y.n)
  {
    hide Pow, Width, Divides, Subtracted, Congruent;
    var l := Max(x.len, y.len);
    PowMono(y.len, l);
    var c := Complement(l, y.n);
    if y.n > 0 {
      LongMultiple(y, j);
      DividesPow(j, l);
      DividesSum(Pow(j), Pow(l), y.n);
      WideMultiple(j, c);
    } else {
      WidthAbove(l, c);
    }
    SubtractedCongruent(x.len, x.n, y.len, y.n, s);
  }

  lemma LongMultiple(y: Signed, j: nat)
    requires Fine(y) && y.n > 0 && Divides(Pow(j), y.n)
    ensures y.len > j
  {
    hide Pow, Divides, Width;
    WideMultiple(j, y.n);
    if y.len <= j { PowMono(y.len, j); }
  }

  /** Adding a multiple of Pow(s). */
  lemma SumCongruent(x: Signed, y: Signed, s: nat)
    requires Fine(x) && Fine(y) && Divides(Pow(s), y.n) && (y.n == 0 ==> Max(x.len, y.len) >= s)
    ensures Congruent(Pow(s), Sum(x, y).n, x.n)
  {
    hide Pow, Width, Subtracted;
    if x.sign != y.sign {
      SumOpposite(x, y, s, s);
      assert Congruent(Pow(s), x.n - y.n, x.n) by { DividesSum(Pow(s), y.n, y.n); }
      CongruentTrans(Pow(s), Sum(x, y).n, x.n - y.n, x.n);
    }
  }

  // ----- a positive multiplicand ----------------------------------------------------------------

  lemma {:induction false} TimesPositive(a: Signed, d: nat)
    requires Fine(a) && a.sign
    ensures Times(a, d).sign && Times(a, d).n == a.n * d
  {
    hide Pow, Width, Subtracted;
    if d > 0 {
      TimesPositive(a, d - 1);
      OneMore(a.n, d - 1);
    } else {
      assert a.n * 0 == 0;
    }
  }

  lemma OneMore(n: int, d: int)
    ensures n * (d + 1) == n * d + n
  {
  }

  lemma TailValue(ds: seq<Digit>)
    requires ds != []
    ensures Nat(ds) == ds[0] * Pow(|ds| - 1) + Nat(ds[1..])
  {
    assert ds == [ds[0]] + ds[1..];
    NatCons(ds[0], ds[1..]);
  }

  lemma Expand(n: int, d: int, p: int, rest: int)
    ensures n * (d * p + rest) == n * d * p + n * rest
  {
    assert n * (d * p) == n * d * p;
  }

  lemma {:induction false} ProductPositive(a: Signed, ds: seq<Digit>)
    requires Fine(a) && a.sign
    ensures Product(a, ds).sign && Product(a, ds).n == a.n * Nat(ds)
  {
    hide Pow, Width, Times, Nat;
    if ds == [] {
      assert Nat(ds) == 0 by { EmptyIsZero(); }
    } else {
      ProductPositive(a, ds[1..]);
      TimesPositive(a, ds[0]);
      TailValue(ds);
      Expand(a.n, ds[0], Pow(|ds| - 1), Nat(ds[1..]));
    }
  }

  lemma EmptyIsZero()
    ensures Nat([]) == 0
  {
  }

  // ----- a negative multiplicand ----------------------------------------------------------------

  lemma {:induction false} TimesNegative(a: Signed, d: nat)
    requires Fine(a) && !a.sign && a.n > 0
    ensures d == 0 ==> Times(a, d) == ZERO
    ensures d > 0 ==> !Times(a, d).sign && Times(a, d).n == a.n * d
  {
    hide Pow, Width, Subtracted;
    if d == 1 {
      assert Times(a, 0) == ZERO;
      assert Times(a, 1) == Sum(ZERO, a);
      FromZero(a);
    } else if d > 1 {
      TimesNegative(a, d - 1);
    }
  }

  /** Subtracting from zero works. */
  lemma FromZero(y: Signed)
    requires Fine(y) && Fine(ZERO) && y.n > 0
    ensures Sum(ZERO, y).n == y.n && Sum(ZERO, y).sign == y.sign
  {
    hide Pow, Width, Subtracted;
    if !y.sign {
      SubtractedIff(1, 0, y.len, y.n);
      WidthBounds(Complement(y.len, y.n));
      PowMono(Width(Complement(y.len, y.n)), Max(1, Width(Complement(y.len, y.n))));
    }
  }

  lemma AllZeroValue(ds: seq<Digit>)
    ensures AllZero(ds) <==> Nat(ds) == 0
  {
    hide Nat, Pow;
    if AllZero(ds) {
      assert ds == Zeros(|ds|);
      NatZeros(|ds|);
    } else {
      var i :| 0 <= i < |ds| && ds[i] != 0;
      assert ds == ds[..i] + ds[i..];
      NatConcat(ds[..i], ds[i..]);
      NatLower(ds[i..]);
      PowPositive(|ds| - i - 1);
      MulNonNegative(Nat(ds[..i]), Pow(|ds[i..]|));
    }
  }

  /** What the sum of the partial products is behind the digits ds. */
  ghost predicate Right(a: Signed, ds: seq<Digit>, p: Signed) {
    if AllZero(ds) then p == ZERO else Gapless(ds) && !p.sign && p.n == a.n * Nat(ds)
  }

  /** It is too large. */
  ghost predicate Over(a: Signed, ds: seq<Digit>, p: Signed) {
    !AllZero(ds) && !p.sign && p.n > a.n * Nat(ds)
  }

  /** It has just come out positive. */
  ghost predicate Turned(a: Signed, ds: seq<Digit>, p: Signed) {
    && !AllZero(ds) && p.sign
    && exists b: nat :: p.n == 9 * Pow(|ds|) - b && b >= a.n * Nat(ds) && 10 * b < Pow(|ds|)
  }

  /** Its last digits are wrong, and stay so. */
  ghost predicate Lost(a: Signed, ds: seq<Digit>, p: Signed) {
    exists s: nat :: s <= |ds| && !Congruent(Pow(s), p.n, a.n * Nat(ds))
  }

  ghost predicate Astray(a: Signed, ds: seq<Digit>, p: Signed) {
    !Gapless(ds) && (Over(a, ds, p) || Turned(a, ds, p) || Lost(a, ds, p))
  }

  lemma {:induction false} ProductTracked(a: Signed, ds: seq<Digit>)
    requires Fine(a) && !a.sign && a.n > 0
    ensures Right(a, ds, Product(a, ds)) || Astray(a, ds, Product(a, ds))
  {
    hide Pow, Width, Times, Nat, Right, Astray, Sum, Gapless, Shifted;
    if ds == [] {
      assert Right(a, [], ZERO) by { RightAtFirst(a); }
    } else {
      var rest, j := ds[1..], |ds| - 1;
      ProductTracked(a, rest);
      var x, y := Product(a, rest), Shifted(Times(a, ds[0]), j);
      if Right(a, rest, x) {
        RightStep(a, ds, x, y);
      } else {
        AstrayStep(a, ds, x, y);
      }
    }
  }

  lemma RightAtFirst(a: Signed)
    ensures Right(a, [], ZERO)
  {
  }

  /** The next partial product. */
  lemma Partial(a: Signed, ds: seq<Digit>, y: Signed)
    requires Fine(a) && !a.sign && a.n > 0 && ds != [] && y == Shifted(Times(a, ds[0]), |ds| - 1)
    ensures Fine(y) && Divides(Pow(|ds| - 1), y.n) && y.n == a.n * ds[0] * Pow(|ds| - 1)
    ensures ds[0] == 0 ==> y.sign && y.len == |ds| && y.n == 0
    ensures ds[0] > 0 ==> !y.sign && y.n > 0
    ensures a.n * Nat(ds) == a.n * Nat(ds[1..]) + y.n
  {
    hide Pow, Width, Times, Nat;
    TimesNegative(a, ds[0]);
    TailValue(ds);
    Expand(a.n, ds[0], Pow(|ds| - 1), Nat(ds[1..]));
    DividesTimes(Pow(|ds| - 1), a.n * ds[0]);
    PowPositive(|ds| - 1);
    if ds[0] > 0 {
      MulLower(ds[0], a.n);
      MulLower(a.n * ds[0], Pow(|ds| - 1));
    }
  }

  lemma GaplessTail(ds: seq<Digit>)
    requires ds != []
    ensures Gapless(ds) <==> Gapless(ds[1..]) && (ds[0] == 0 ==> AllZero(ds[1..]))
    ensures AllZero(ds) <==> ds[0] == 0 && AllZero(ds[1..])
    ensures AllZero(ds[1..]) ==> Gapless(ds[1..])
  {
    assert forall i :: 0 <= i < |ds| - 1 ==> ds[1..][i] == ds[i + 1];
    if Gapless(ds[1..]) && (ds[0] == 0 ==> AllZero(ds[1..])) {
      forall i, j | 0 <= i < j < |ds| && ds[i] == 0 ensures ds[j] == 0 {
        assert ds[j] == ds[1..][j - 1];
        if i > 0 { assert ds[i] == ds[1..][i - 1]; }
      }
    }
    if AllZero(ds) {
      forall i | 0 <= i < |ds| - 1 ensures ds[1..][i] == 0 { assert ds[i + 1] == 0; }
    }
    if ds[0] == 0 && AllZero(ds[1..]) {
      forall i | 0 <= i < |ds| ensures ds[i] == 0 { if i > 0 { assert ds[i] == ds[1..][i - 1]; } }
    }
    if Gapless(ds) {
      forall i, j | 0 <= i < j < |ds| - 1 && ds[1..][i] == 0 ensures ds[1..][j] == 0 { assert ds[i + 1] == 0; }
      if ds[0] == 0 { forall i | 0 <= i < |ds| - 1 ensures ds[1..][i] == 0 { assert ds[i + 1] == 0; } }
    }
  }

  lemma RightStep(a: Signed, ds: seq<Digit>, x: Signed, y: Signed)
    requires Fine(a) && !a.sign && a.n > 0 && ds != [] && y == Shifted(Times(a, ds[0]), |ds| - 1)
    requires Fine(x) && x.len == Width(x.n) && Right(a, ds[1..], x)
    ensures Right(a, ds, Sum(x, y)) || Astray(a, ds, Sum(x, y))
  {
    hide Pow, Width, Times, Nat, Subtracted, Gapless, AllZero, Shifted;
    Partial(a, ds, y);
    GaplessTail(ds);
    AllZeroValue(ds[1..]);
    if AllZero(ds[1..]) {
      if ds[0] == 0 {
        ZeroIsFine();
      } else {
        assert a.n * 0 == 0;
        ZeroIsFine();
        FromZero(y);
      }
    } else if ds[0] == 0 {
      MulLower(Nat(ds[1..]), a.n);
      ZeroStep(a, ds, x, y);
    }
  }

  /** Adding +0 to a negative sum: it comes out too large, and perhaps positive. */
  lemma ZeroStep(a: Signed, ds: seq<Digit>, x: Signed, y: Signed)
    requires Fine(x) && x.len == Width(x.n) && Fine(y) && !x.sign && y.sign && y.n == 0 && y.len == |ds|
    requires x.n >= a.n * Nat(ds) && x.n > 0 && !AllZero(ds)
    ensures Over(a, ds, Sum(x, y)) || Turned(a, ds, Sum(x, y))
  {
    hide Pow, Width, Nat, Subtracted, AllZero, Sum;
    ZeroAdded(x, y);
    if x.len < |ds| {
      PowMono(x.len, |ds| - 1);
      PowStep(|ds| - 1);
      assert Sum(x, y).n == 9 * Pow(|ds|) - x.n && x.n >= a.n * Nat(ds) && 10 * x.n < Pow(|ds|);
    }
  }

  lemma ZeroAdded(x: Signed, y: Signed)
    requires Fine(x) && Fine(y) && !x.sign && y.sign && y.n == 0 && x.n > 0
    ensures Sum(x, y).n == 9 * Pow(Max(x.len, y.len)) - x.n > x.n && (Sum(x, y).sign <==> y.len > x.len)
  {
    hide Pow, Width, Subtracted;
    SubtractZero(x.len, x.n, y.len);
  }

  lemma AstrayStep(a: Signed, ds: seq<Digit>, x: Signed, y: Signed)
    requires Fine(a) && !a.sign && a.n > 0 && ds != [] && y == Shifted(Times(a, ds[0]), |ds| - 1)
    requires Fine(x) && x.len == Width(x.n) && Astray(a, ds[1..], x)
    ensures Astray(a, ds, Sum(x, y))
  {
    hide Pow, Width, Times, Nat, Subtracted, Gapless, AllZero, Shifted, Lost, Turned, Sum;
    Partial(a, ds, y);
    GaplessTail(ds);
    AllZeroValue(ds[1..]);
    if Over(a, ds[1..], x) {
      MulNonNegative(a.n, Nat(ds[1..]));
      if ds[0] == 0 { ZeroStep(a, ds, x, y); } else { SameSigns(x, y); }
    } else if Turned(a, ds[1..], x) {
      TurnedStep(a, ds, x, y);
    } else {
      LostStep(a, ds, x, y);
    }
  }

  lemma SameSigns(x: Signed, y: Signed)
    requires Fine(x) && Fine(y) && x.sign == y.sign
    ensures Sum(x, y).sign == y.sign && Sum(x, y).n == x.n + y.n
  {
  }

  lemma CongruentSelf(q: int, x: int)
    ensures Congruent(q, x, x)
  {
    DividesTimes(q, 0);
  }

  lemma CongruentSwap(q: int, x: int, y: int)
    requires Congruent(q, x, y)
    ensures Congruent(q, y, x)
  {
    hide Divides;
    if Divides(q, x - y) {
      DividesSum(q, x - y, x - y);
      assert -(x - y) == y - x;
    }
  }

  /** The next digit fixes the last digits to wrong ones. */
  lemma TurnedStep(a: Signed, ds: seq<Digit>, x: Signed, y: Signed)
    requires Fine(a) && !a.sign && a.n > 0 && ds != [] && y == Shifted(Times(a, ds[0]), |ds| - 1)
    requires Fine(x) && x.len == Width(x.n) && Turned(a, ds[1..], x)
    ensures Lost(a, ds, Sum(x, y))
  {
    hide Pow, Width, Times, Nat, Subtracted, AllZero, Shifted, Sum, Congruent;
    var j := |ds| - 1;
    var q, t := Pow(j), a.n * Nat(ds[1..]);
    Partial(a, ds, y);
    AllZeroValue(ds[1..]);
    MulLower(Nat(ds[1..]), a.n);
    var b: nat :| x.n == 9 * Pow(j) - b && b >= t && 10 * b < Pow(j);
    PowStep(j);
    if ds[0] == 0 {
      SameSigns(x, y);
      CongruentSelf(Pow(j + 1), x.n);
    } else {
      SumOpposite(x, y, j, j + 1);
    }
    TurnedWrong(q, a.n * ds[0], b, t);
    if Congruent(10 * q, Sum(x, y).n, t + y.n) {
      CongruentSwap(10 * q, Sum(x, y).n, x.n - y.n);
      CongruentTrans(10 * q, x.n - y.n, Sum(x, y).n, t + y.n);
    }
  }

  lemma TurnedWrong(q: nat, k: nat, b: nat, t: nat)
    requires 0 < t <= b && 10 * b < q
    ensures !Congruent(10 * q, 9 * q - b - k * q, t + k * q)
  {
    hide Divides;
    var x, y := 9 * q - b - k * q, t + k * q;
    if Divides(10 * q, x - y) {
      var l: int :| x - y == l * (10 * q) by { DividesBy(10 * q, x - y); }
      assert l * (10 * q) == (10 * l) * q && (9 - 2 * k - 10 * l) * q == 9 * q - 2 * (k * q) - (10 * l) * q;
      DividesTimes(q, 9 - 2 * k - 10 * l);
      DividesSmall(q, b + t);
    }
    if Divides(10 * q, x + y) { DividesSmall(10 * q, x + y); }
  }

  lemma DividesBy(q: int, x: int)
    requires Divides(q, x)
    ensures exists k: int :: x == k * q
  {
  }

  lemma LostStep(a: Signed, ds: seq<Digit>, x: Signed, y: Signed)
    requires Fine(a) && !a.sign && a.n > 0 && ds != [] && y == Shifted(Times(a, ds[0]), |ds| - 1)
    requires Fine(x) && x.len == Width(x.n) && Lost(a, ds[1..], x)
    ensures Lost(a, ds, Sum(x, y))
  {
    hide Pow, Width, Times, Nat, Subtracted, AllZero, Shifted, Sum, Congruent;
    var t := a.n * Nat(ds[1..]);
    Partial(a, ds, y);
    var s: nat :| s <= |ds| - 1 && !Congruent(Pow(s), x.n, t);
    DividesLess(s, |ds| - 1, y.n);
    SumCongruent(x, y, s);
    if Congruent(Pow(s), Sum(x, y).n, t + y.n) {
      CongruentSwap(Pow(s), Sum(x, y).n, x.n);
      CongruentTrans(Pow(s), x.n, Sum(x, y).n, t + y.n);
      assert Congruent(Pow(s), t + y.n, t) by { CongruentNear(Pow(s), t, y.n); }
      CongruentTrans(Pow(s), x.n, t + y.n, t);
    }
  }

  lemma CongruentNear(q: int, x: int, y: int)
    requires Divides(q, y)
    ensures Congruent(q, x + y, x)
  {
    hide Divides;
    assert (x + y) - x == y;
  }

  /** For a negative number the product comes out if and only if no zero digit stands above one that is not zero. */
  lemma ProductNegative(a: Signed, ds: seq<Digit>)
    requires Fine(a) && !a.sign && a.n > 0
    ensures Product(a, ds).n == a.n * Nat(ds) <==> Gapless(ds)
    ensures Gapless(ds) ==> Product(a, ds).sign == AllZero(ds)
  {
    hide Pow, Width, Times, Nat, Sum, Gapless, Shifted, Product, Congruent;
    ProductTracked(a, ds);
    AllZeroValue(ds);
    var p := Product(a, ds);
    if Right(a, ds, p) {
      if AllZero(ds) {
        assert a.n * 0 == 0;
        GaplessZeros(ds);
      }
    } else {
      if Turned(a, ds, p) { MulNonNegative(a.n, Nat(ds)); }
      if Lost(a, ds, p) {
        var s: nat :| s <= |ds| && !Congruent(Pow(s), p.n, a.n * Nat(ds));
        CongruentSelf(Pow(s), p.n);
      }
    }
  }

  lemma GaplessZeros(ds: seq<Digit>)
    requires AllZero(ds)
    ensures Gapless(ds)
  {
  }

  // ----- negative zero -----------------------------------------------------------------------------

  /** The last digit before s zeros is a nine or a one. */
  ghost predicate Marked(n: nat, s: nat) {
    s > 0 && Congruent(Pow(s), n, 9 * Pow(s - 1))
  }

  lemma MarkedLarge(n: nat, s: nat)
    requires Marked(n, s)
    ensures n >= Pow(s - 1) && Width(n) >= s && n > 0
  {
    hide Pow, Width, Divides;
    PowStep(s - 1);
    PowPositive(s - 1);
    var q := Pow(s - 1);
    if n < q {
      if Divides(Pow(s), n - 9 * q) { DividesSmall(Pow(s), n - 9 * q); }
      if Divides(Pow(s), n + 9 * q) { DividesSmall(Pow(s), n + 9 * q); }
    }
    WidthAbove(s - 1, n);
  }

  lemma MarkedSum(x: Signed, y: Signed, s: nat)
    requires Fine(x) && Fine(y) && x.len == Width(x.n) && Marked(x.n, s) && Divides(Pow(s), y.n)
    ensures Marked(Sum(x, y).n, s)
  {
    hide Pow, Width, Divides, Sum, Congruent;
    MarkedLarge(x.n, s);
    SumCongruent(x, y, s);
    CongruentTrans(Pow(s), Sum(x, y).n, x.n, 9 * Pow(s - 1));
  }

  lemma MarkedFirst(l: nat)
    ensures Marked(9 * Pow(l), l + 1)
  {
    CongruentSelf(Pow(l + 1), 9 * Pow(l));
  }

  /** Already the multiples of negative zero are wrong. */
  lemma {:induction false} TimesZero(a: Signed, d: nat)
    requires Fine(a) && !a.sign && a.n == 0
    ensures d == 0 ==> Times(a, d) == ZERO
    ensures d > 0 ==> Marked(Times(a, d).n, a.len + 1)
  {
    hide Pow, Width, Subtracted, Marked, Sum;
    if d == 1 {
      assert Times(a, 0) == ZERO && Times(a, 1) == Sum(ZERO, a);
      FromNothing(a);
      MarkedFirst(a.len);
    } else if d > 1 {
      TimesZero(a, d - 1);
      DividesTimes(Pow(a.len + 1), 0);
      MarkedSum(Times(a, d - 1), a, a.len + 1);
    }
  }

  lemma FromNothing(a: Signed)
    requires Fine(a) && Fine(ZERO) && !a.sign && a.n == 0
    ensures Sum(ZERO, a).n == 9 * Pow(a.len)
  {
    hide Pow, Width, Subtracted;
    SubtractZero(1, 0, a.len);
  }

  /** Nothing later makes up for it: the product is zero only where no multiple was formed. */
  lemma {:induction false} ProductOfNegativeZero(a: Signed, ds: seq<Digit>)
    requires Fine(a) && !a.sign && a.n == 0
    ensures AllZero(ds) ==> Product(a, ds) == ZERO
    ensures !AllZero(ds) ==> exists s: nat :: s <= a.len + |ds| && Marked(Product(a, ds).n, s)
  {
    hide Pow, Width, Times, Subtracted, Marked, AllZero, Sum, Shifted;
    if ds == [] {
      assert AllZero([]) by { NoDigits(); }
    } else {
      ProductOfNegativeZero(a, ds[1..]);
      GaplessTail(ds);
      var x, y := Product(a, ds[1..]), Shifted(Times(a, ds[0]), |ds| - 1);
      assert Product(a, ds) == Sum(x, y);
      NegativeZeroStep(a, ds, x, y);
    }
  }

  lemma NoDigits()
    ensures AllZero([])
  {
  }

  lemma ShiftedMarked(x: Signed, s: nat, c: nat)
    requires Fine(x) && Marked(x.n, s)
    ensures Marked(Shifted(x, c).n, s + c) && Shifted(x, c).n > 0
  {
    hide Pow, Width, Congruent;
    MarkedLarge(x.n, s);
    PowPositive(c);
    MulLower(x.n, Pow(c));
    PowSum(s, c);
    PowSum(s - 1, c);
    assert s - 1 + c == s + c - 1;
    ScaledCongruent(Pow(s), x.n, 9 * Pow(s - 1), Pow(c));
    Associate(9, Pow(s - 1), Pow(c));
  }

  lemma ScaledCongruent(q: int, x: int, y: int, p: int)
    requires Congruent(q, x, y)
    ensures Congruent(q * p, x * p, y * p)
  {
    if k: int :| x - y == k * q {
      assert x * p - y * p == (x - y) * p == k * (q * p);
    } else {
      var k: int :| x + y == k * q;
      assert x * p + y * p == (x + y) * p == k * (q * p);
    }
  }

  lemma NegativeZeroStep(a: Signed, ds: seq<Digit>, x: Signed, y: Signed)
    requires Fine(a) && !a.sign && a.n == 0 && ds != [] && y == Shifted(Times(a, ds[0]), |ds| - 1)
    requires Fine(x) && x.len == Width(x.n) && Fine(y)
    requires AllZero(ds[1..]) ==> x == ZERO
    requires !AllZero(ds[1..]) ==> exists s: nat :: s <= a.len + |ds| - 1 && Marked(x.n, s)
    ensures ds[0] == 0 && AllZero(ds[1..]) ==> Sum(x, y) == ZERO
    ensures ds[0] != 0 || !AllZero(ds[1..]) ==> exists s: nat :: s <= a.len + |ds| && Marked(Sum(x, y).n, s)
  {
    hide Pow, Width, Times, Subtracted, Marked, AllZero, Sum, Congruent;
    var j := |ds| - 1;
    TimesZero(a, ds[0]);
    if AllZero(ds[1..]) {
      if ds[0] == 0 {
        NothingToNothing(x, y);
      } else {
        ShiftedMarked(Times(a, ds[0]), a.len + 1, j);
        ZeroIsFine();
        FromZero(y);
        assert Marked(Sum(x, y).n, a.len + 1 + j);
      }
    } else {
      var s: nat :| s <= a.len + j && Marked(x.n, s);
      NegativeZeroMultiple(a, ds[0], j);
      DividesLess(s, a.len + j, y.n);
      MarkedSum(x, y, s);
    }
  }

  lemma NothingToNothing(x: Signed, y: Signed)
    requires x == ZERO && Fine(x) && Fine(y) && y.n == 0 && y.sign
    ensures Sum(x, y) == ZERO
  {
    hide Subtracted;
  }

  lemma NegativeZeroMultiple(a: Signed, d: nat, j: nat)
    requires Fine(a) && !a.sign && a.n == 0
    ensures Divides(Pow(a.len + j), Shifted(Times(a, d), j).n)
  {
    hide Pow, Width, Times, Divides, Congruent;
    TimesZero(a, d);
    var l, n := a.len, Times(a, d).n;
    if d == 0 {
      assert 0 * Pow(j) == 0;
      DividesTimes(Pow(l + j), 0);
    } else {
      MarkedDivides(n, l);
      PowSum(l, j);
      ScaledDivides(Pow(l), n, Pow(j));
    }
  }

  lemma MarkedDivides(n: nat, l: nat)
    requires Marked(n, l + 1)
    ensures Divides(Pow(l), n)
  {
    hide Pow, Divides;
    var q := Pow(l);
    PowStep(l);
    DividesTimes(q, 9);
    if Divides(Pow(l + 1), n - 9 * q) {
      DividesLess(l, l + 1, n - 9 * q);
      DividesSum(q, n - 9 * q, 9 * q);
    } else {
      DividesLess(l, l + 1, n + 9 * q);
      DividesSum(q, n + 9 * q, 9 * q);
    }
  }

  lemma ScaledDivides(q: int, x: int, p: int)
    requires Divides(q, x)
    ensures Divides(q * p, x * p)
  {
    var k: int :| x == k * q;
    Associate(k, q, p);
  }

  // ----- all of it ---------------------------------------------------------------------------------

  /** When the product is right. */
  predicate ProductFits(a: Signed, ds: seq<Digit>) {
    a.sign || AllZero(ds) || (a.n != 0 && Gapless(ds))
  }

  /**
    The product is right if and only if the multiplicand is positive, or the multiplier
    zero, or the multiplicand is not zero and the multiplier has no zero digit above
    another one.
  */
  lemma ProductExactIff(a: Signed, ds: seq<Digit>)
    requires Fine(a)
    ensures Product(a, ds).n == a.n * Nat(ds) <==> ProductFits(a, ds)
    ensures ProductFits(a, ds) ==> Product(a, ds).sign == (a.sign || AllZero(ds))
  {
    hide Pow, Width, Nat, Product, Gapless, AllZero, Marked;
    if a.sign {
      ProductPositive(a, ds);
    } else if a.n > 0 {
      ProductNegative(a, ds);
      if AllZero(ds) { GaplessZeros(ds); }
    } else {
      ProductOfNegativeZero(a, ds);
      assert 0 * Nat(ds) == 0;
      if !AllZero(ds) {
        var s: nat :| s <= a.len + |ds| && Marked(Product(a, ds).n, s);
        MarkedLarge(Product(a, ds).n, s);
      }
    }
  }
}
