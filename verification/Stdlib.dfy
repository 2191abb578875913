/**
  The C library's qsort, as its callers may rely on it: a sorted permutation.
*/
module Stdlib {
  import MSort

  lemma InsertedSorted<T(!new)>(ys: seq<T>, k: nat, x: T, le: (T, T) -> bool)
    requires MSort.TotalPreorder(le) && MSort.SortedBy(ys, le) && k <= |ys|
    requires forall i :: 0 <= i < k ==> le(ys[i], x)
    requires k < |ys| ==> !le(ys[k], x)
    ensures MSort.SortedBy(ys[..k] + [x] + ys[k..], le)
  {
    forall i | k <= i < |ys| ensures le(x, ys[i]) {
      assert le(x, ys[k]) && (i == k || le(ys[k], ys[i]));
    }
  }

  method Qsort<T(!new)>(xs: seq<T>, le: (T, T) -> bool) returns (ys: seq<T>)
    requires MSort.TotalPreorder(le)
    ensures MSort.SortedBy(ys, le) && multiset(ys) == multiset(xs)
  {
    ys := [];
    for n := 0 to |xs|
      invariant MSort.SortedBy(ys, le) && multiset(ys) == multiset(xs[..n])
    {
      var k := 0;
      while k < |ys| && le(ys[k], xs[n])
        invariant k <= |ys| && forall i :: 0 <= i < k ==> le(ys[i], xs[n])
      {
        k := k + 1;
      }
      InsertedSorted(ys, k, xs[n], le);
      assert xs[..n + 1] == xs[..n] + [xs[n]];
      assert ys == ys[..k] + ys[k..];
      ys := ys[..k] + [xs[n]] + ys[k..];
    }
    assert xs[..|xs|] == xs;
  }
}
