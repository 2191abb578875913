/**
  Sorting item lists by rule and dot (Configcmp), so that a set of items has one
  representation as a list.
*/
module SortedItems {
  import opened Automata
  import opened Configlist
  import opened Lists
  import MSort

  /** Configcmp(a, b) <= 0 */
  predicate ItemLe(a: Item, b: Item) {
    a.rule < b.rule || (a.rule == b.rule && a.dot <= b.dot)
  }

  lemma ItemLePreorder()
    ensures MSort.TotalPreorder(ItemLe)
  {
  }

  ghost predicate Ordered(xs: seq<Item>) {
    Distinct(xs) && MSort.SortedBy(xs, ItemLe)
  }

  lemma SortedIsOrdered(xs: seq<Item>)
    requires Distinct(xs) && |xs| < 0x4000_0000
    ensures Ordered(MSort.Sorted(xs, ItemLe)) && ItemSet(MSort.Sorted(xs, ItemLe)) == ItemSet(xs)
  {
    ItemLePreorder();
    MSort.SortCorrect(xs, ItemLe);
    Permuted(xs, MSort.Sorted(xs, ItemLe));
  }

  /** Two ordered lists of the same items are equal. */
  lemma {:induction false} OrderedUnique(xs: seq<Item>, ys: seq<Item>)
    requires Ordered(xs) && Ordered(ys) && ItemSet(xs) == ItemSet(ys)
    ensures xs == ys
  {
    assert ys != [] ==> ys[0] in ItemSet(ys);
    if xs != [] {
      assert xs[0] in ItemSet(xs) && xs[0] in ys;
      assert ys[0] in ItemSet(ys) && ys[0] in xs;
      var i :| 0 <= i < |xs| && xs[i] == ys[0];
      var j :| 0 <= j < |ys| && ys[j] == xs[0];
      assert ItemLe(xs[0], xs[i]) && ItemLe(ys[0], ys[j]);
      assert xs[0] == ys[0];
      TailSet(xs);
      TailSet(ys);
      OrderedUnique(xs[1..], ys[1..]);
      assert xs == [xs[0]] + xs[1..] && ys == [ys[0]] + ys[1..];
    }
  }

  lemma TailSet(xs: seq<Item>)
    requires xs != [] && Distinct(xs)
    ensures ItemSet(xs[1..]) == ItemSet(xs) - {xs[0]}
  {
    forall it | it in xs && it != xs[0] ensures it in xs[1..] {
      var i :| 0 <= i < |xs| && xs[i] == it;
      assert xs[1..][i - 1] == it;
    }
  }

  /** Configlist_sort and Configlist_sortbasis. */
  method SortItems(xs: seq<Item>) returns (ys: seq<Item>)
    requires Distinct(xs) && |xs| < 0x4000_0000
    ensures Ordered(ys) && ItemSet(ys) == ItemSet(xs)
    ensures forall i, j :: 0 <= i < j < |ys| ==>
              ys[i].rule < ys[j].rule || (ys[i].rule == ys[j].rule && ys[i].dot < ys[j].dot)
  {
    ys := MSort.SortSeq(xs, ItemLe);
    SortedIsOrdered(xs);
  }
}
