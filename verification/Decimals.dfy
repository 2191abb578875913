/**
  Decimal digit strings, most significant digit first, and the numbers they denote.
*/
module Decimals {

  type Digit = d: int | 0 <= d < 10

  function Pow(k: nat): nat {
    if k == 0 then 1 else 10 * Pow(k - 1)
  }

  function Nat(ds: seq<Digit>): nat {
    if ds == [] then 0 else 10 * Nat(ds[..|ds| - 1]) + ds[|ds| - 1]
  }

  function Zeros(k: nat): seq<Digit> {
    seq(k, _ => 0)
  }

  lemma {:induction false} PowPositive(k: nat)
    ensures Pow(k) >= 1
  {
    if k > 0 { PowPositive(k - 1); }
  }

  lemma {:induction false} PowSum(j: nat, k: nat)
    ensures Pow(j + k) == Pow(j) * Pow(k)
  {
    if k > 0 {
      PowSum(j, k - 1);
      TenTimes(Pow(j), Pow(k - 1));
    }
  }

  lemma MulLower(x: int, p: int)
    requires x >= 1 && p >= 0
    ensures x * p >= p && p * x >= p
  {
    assert (x - 1) * p >= 0;
  }

  lemma PowMono(j: nat, k: nat)
    requires j <= k
    ensures Pow(j) <= Pow(k)
  {
    PowPositive(k - j);
    PowSum(j, k - j);
    MulLower(Pow(k - j), Pow(j));
  }

  lemma TenTimes(x: int, p: int)
    ensures 10 * (x * p) == x * (10 * p)
  {
  }

  lemma PowStep(k: nat)
    ensures Pow(0) == 1 && Pow(k + 1) == 10 * Pow(k)
  {
  }

  lemma NatSnoc(ds: seq<Digit>, d: Digit)
    ensures Nat([]) == 0 && Nat(ds + [d]) == 10 * Nat(ds) + d
  {
    assert (ds + [d])[..|ds|] == ds;
  }

  lemma {:induction false} NatConcat(a: seq<Digit>, b: seq<Digit>)
    ensures Nat(a + b) == Nat(a) * Pow(|b|) + Nat(b)
  {
    hide Nat, Pow;
    PowStep(0);
    NatSnoc([], 0);
    if b == [] {
      assert a + b == a;
    } else {
      var n := |b| - 1;
      assert a + b == (a + b[..n]) + [b[n]];
      assert b == b[..n] + [b[n]];
      NatSnoc(a + b[..n], b[n]);
      NatSnoc(b[..n], b[n]);
      NatConcat(a, b[..n]);
      PowStep(n);
      TenTimes(Nat(a), Pow(n));
    }
  }

  lemma {:induction false} NatZeros(k: nat)
    ensures Nat(Zeros(k)) == 0
  {
    if k > 0 {
      assert Zeros(k)[..k - 1] == Zeros(k - 1);
      NatZeros(k - 1);
    }
  }

  lemma NatAppend(ds: seq<Digit>, k: nat)
    ensures Nat(ds + Zeros(k)) == Nat(ds) * Pow(k)
  {
    NatConcat(ds, Zeros(k));
    NatZeros(k);
  }

  lemma NatPrepend(k: nat, ds: seq<Digit>)
    ensures Nat(Zeros(k) + ds) == Nat(ds)
  {
    NatConcat(Zeros(k), ds);
    NatZeros(k);
  }

  lemma NatSingle(d: Digit)
    ensures Nat([d]) == d
  {
    assert [d][..0] == [];
  }

  lemma NatCons(d: Digit, ds: seq<Digit>)
    ensures Nat([d] + ds) == d * Pow(|ds|) + Nat(ds)
  {
    NatConcat([d], ds);
    NatSingle(d);
  }

  lemma {:induction false} NatBound(ds: seq<Digit>)
    ensures Nat(ds) < Pow(|ds|)
  {
    if ds != [] { NatBound(ds[..|ds| - 1]); }
  }

  lemma NatLower(ds: seq<Digit>)
    requires ds != [] && ds[0] > 0
    ensures Nat(ds) >= Pow(|ds| - 1)
  {
    assert ds == [ds[0]] + ds[1..];
    NatCons(ds[0], ds[1..]);
    MulLower(ds[0], Pow(|ds| - 1));
  }

  lemma {:induction false} NatInjective(a: seq<Digit>, b: seq<Digit>)
    requires |a| == |b| && Nat(a) == Nat(b)
    ensures a == b
  {
    if a != [] {
      var n := |a| - 1;
      NatInjective(a[..n], b[..n]);
      assert a == a[..n] + [a[n]] && b == b[..n] + [b[n]];
    }
  }

  lemma HeadDecides(x: Digit, s: seq<Digit>, y: Digit, t: seq<Digit>)
    requires |s| == |t| && x < y
    ensures Nat([x] + s) < Nat([y] + t)
  {
    hide Nat;
    NatCons(x, s);
    NatCons(y, t);
    NatBound(s);
    MulStep(x, y, Pow(|s|));
  }

  /** The first difference of two strings of the same length decides their order. */
  lemma FirstDifference(a: seq<Digit>, b: seq<Digit>, i: nat)
    requires |a| == |b| && i < |a| && a[..i] == b[..i] && a[i] < b[i]
    ensures Nat(a) < Nat(b)
  {
    hide Nat, Pow;
    var s, t := [a[i]] + a[i + 1..], [b[i]] + b[i + 1..];
    assert a == a[..i] + s && b == b[..i] + t;
    HeadDecides(a[i], a[i + 1..], b[i], b[i + 1..]);
    NatConcat(a[..i], s);
    NatConcat(b[..i], t);
  }

  lemma MulStep(x: int, y: int, p: nat)
    requires x < y
    ensures x * p + p <= y * p
  {
    MulNonNegative(y - x - 1, p);
    MulExpand(x, y, p);
  }

  lemma MulNonNegative(x: int, p: int)
    requires x >= 0 && p >= 0
    ensures x * p >= 0
  {
  }

  lemma MulExpand(x: int, y: int, p: int)
    ensures (y - x - 1) * p == y * p - x * p - p
  {
  }

  /** The number of digits of n without leading zeros. */
  function Width(n: nat): nat {
    if n < 10 then 1 else 1 + Width(n / 10)
  }

  lemma {:induction false} WidthBounds(n: nat)
    ensures n < Pow(Width(n)) && Width(n) >= 1 && (n > 0 ==> Pow(Width(n) - 1) <= n)
  {
    if n >= 10 { WidthBounds(n / 10); }
  }

  /** A string without leading zeros is as wide as its number. */
  lemma WidthOf(ds: seq<Digit>)
    requires ds != [] && (|ds| == 1 || ds[0] > 0)
    ensures Width(Nat(ds)) == |ds|
  {
    var n, w := Nat(ds), Width(Nat(ds));
    WidthBounds(n);
    NatBound(ds);
    if |ds| == 1 {
      assert ds == [ds[0]];
      NatSingle(ds[0]);
    } else {
      NatLower(ds);
      PowPositive(|ds| - 1);
      if w < |ds| { PowMono(w, |ds| - 1); }
      if w > |ds| { PowMono(|ds|, w - 1); }
    }
  }

  // ----- ratios -----------------------------------------------------------------------

  function Ratio(n: int, s: nat): real
    ensures Pow(s) >= 1
  {
    PowPositive(s);
    n as real / Pow(s) as real
  }

  lemma RatioOf(n: int, s: nat)
    ensures Ratio(n, s) * Pow(s) as real == n as real
  {
    PowPositive(s);
  }

  lemma Cancel(a: real, b: real, p: real)
    requires p > 0.0
    ensures a * p == b * p <==> a == b
    ensures a * p < b * p <==> a < b
  {
    if a < b { assert (b - a) * p > 0.0; }
    if b < a { assert (a - b) * p > 0.0; }
  }

  lemma CastProduct(m: int, n: int)
    ensures (m * n) as real == m as real * n as real
  {
  }

  lemma ScaleCancel(x: real, y: real, n: real, p: real, q: real)
    requires p > 0.0 && q > 0.0 && y * p == n && x * (p * q) == n * q
    ensures x == y
  {
    assert y * p * q == y * (p * q);
    assert p * q > 0.0;
    Cancel(x, y, p * q);
  }

  /** Multiplying by a power of ten and dividing by it. */
  lemma RatioScale(n: int, s: nat, k: nat)
    ensures Ratio(n * Pow(k), s + k) == Ratio(n, s)
  {
    hide Ratio, Pow;
    PowPositive(s);
    PowPositive(k);
    PowSum(s, k);
    RatioOf(n, s);
    RatioOf(n * Pow(k), s + k);
    CastProduct(n, Pow(k));
    CastProduct(Pow(s), Pow(k));
    ScaleCancel(Ratio(n * Pow(k), s + k), Ratio(n, s), n as real, Pow(s) as real, Pow(k) as real);
  }

  lemma RatioOrder(m: int, n: int, s: nat)
    ensures Ratio(m, s) < Ratio(n, s) <==> m < n
    ensures Ratio(m, s) == Ratio(n, s) <==> m == n
  {
    PowPositive(s);
    RatioOf(m, s);
    RatioOf(n, s);
    Cancel(Ratio(m, s), Ratio(n, s), Pow(s) as real);
  }

  lemma RatioSum(m: int, n: int, s: nat)
    ensures Ratio(m + n, s) == Ratio(m, s) + Ratio(n, s)
    ensures Ratio(-n, s) == -Ratio(n, s)
  {
    hide Ratio, Pow;
    PowPositive(s);
    RatioOf(m, s);
    RatioOf(n, s);
    RatioOf(-n, s);
    RatioOf(m + n, s);
    assert (m + n) as real == m as real + n as real && (-n) as real == -(n as real);
    SumCancel(Ratio(m, s), Ratio(n, s), Ratio(m + n, s), Pow(s) as real, m as real, n as real);
    MinusCancel(Ratio(n, s), Ratio(-n, s), Pow(s) as real, n as real);
  }

  lemma MinusCancel(x: real, y: real, p: real, a: real)
    requires p > 0.0 && x * p == a && y * p == -a
    ensures y == -x
  {
    assert (-x) * p == -(x * p);
    Cancel(y, -x, p);
  }

  lemma SumCancel(x: real, y: real, z: real, p: real, a: real, b: real)
    requires p > 0.0 && x * p == a && y * p == b && z * p == a + b
    ensures z == x + y
  {
    assert (x + y) * p == x * p + y * p;
    Cancel(z, x + y, p);
  }

  lemma RatioProduct(m: int, n: int, s: nat, k: nat)
    ensures Ratio(m * n, s + k) == Ratio(m, s) * Ratio(n, k)
  {
    hide Ratio, Pow;
    PowPositive(s);
    PowPositive(k);
    PowSum(s, k);
    RatioOf(m, s);
    RatioOf(n, k);
    RatioOf(m * n, s + k);
    CastProduct(m, n);
    CastProduct(Pow(s), Pow(k));
    ProductCancel(Ratio(m * n, s + k), Ratio(m, s), Ratio(n, k), Pow(s) as real, Pow(k) as real);
  }

  lemma ProductCancel(x: real, y: real, z: real, p: real, q: real)
    requires p > 0.0 && q > 0.0 && x * (p * q) == (y * p) * (z * q)
    ensures x == y * z
  {
    assert (y * p) * (z * q) == (y * z) * (p * q);
    assert p * q > 0.0;
    Cancel(x, y * z, p * q);
  }
}
