/**
  Lists without repetitions, and permutations.
*/
module Lists {

  ghost predicate Distinct<T>(xs: seq<T>) {
    forall i, j :: 0 <= i < j < |xs| ==> xs[i] != xs[j]
  }

  lemma {:induction false} DistinctCounts<T>(xs: seq<T>)
    ensures Distinct(xs) <==> forall x :: x in xs ==> multiset(xs)[x] == 1
  {
    if xs != [] {
      var front, last := xs[..|xs| - 1], xs[|xs| - 1];
      DistinctCounts(front);
      assert xs == front + [last];
      if Distinct(xs) {
        assert last !in front;
        forall x | x in xs ensures multiset(xs)[x] == 1 { assert x in front || x == last; }
      }
      if forall x :: x in xs ==> multiset(xs)[x] == 1 {
        assert last in xs && multiset(xs)[last] == 1;
        assert last !in multiset(front);
        forall x | x in front ensures multiset(front)[x] == 1 { assert x in xs; }
      }
    }
  }

  /** A permutation has the same elements, and repeats one only if the original does. */
  lemma Permuted<T>(xs: seq<T>, ys: seq<T>)
    requires multiset(xs) == multiset(ys)
    ensures |xs| == |ys| && (Distinct(xs) ==> Distinct(ys)) && forall x :: x in xs <==> x in ys
  {
    assert |multiset(xs)| == |xs| && |multiset(ys)| == |ys|;
    DistinctCounts(xs);
    DistinctCounts(ys);
    forall x ensures x in xs <==> x in ys {
      assert x in xs <==> x in multiset(xs);
      assert x in ys <==> x in multiset(ys);
    }
  }
}
