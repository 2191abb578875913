/**
  The generic list merge sort (`merge` and `msort`).

  `Node` is a structure with a "next" field; a null-terminated list is described
  by the sequence of its nodes (`Chain`).  `Merged` and `Sorted30` say on
  sequences what the two routines do to the lists; the methods relink the nodes
  in place and are proved to produce exactly those sequences.
*/
module MSort {
  import opened Lists

  const LISTSIZE: nat := 30

  // ----- orderings ----------------------------------------------------------

  ghost predicate TotalPreorder<T(!new)>(le: (T, T) -> bool) {
    && (forall a, b :: le(a, b) || le(b, a))
    && (forall a, b, c :: le(a, b) && le(b, c) ==> le(a, c))
  }

  ghost predicate SortedBy<T>(xs: seq<T>, le: (T, T) -> bool) {
    forall i, j :: 0 <= i < j < |xs| ==> le(xs[i], xs[j])
  }

  // ----- what merging does to sequences --------------------------------------

  function Merged<T>(xs: seq<T>, ys: seq<T>, le: (T, T) -> bool): seq<T> {
    if xs == [] then ys
    else if ys == [] then xs
    else if le(xs[0], ys[0]) then [xs[0]] + Merged(xs[1..], ys, le)
    else [ys[0]] + Merged(xs, ys[1..], le)
  }

  lemma {:induction false} MergedKeepsElements<T>(xs: seq<T>, ys: seq<T>, le: (T, T) -> bool)
    ensures multiset(Merged(xs, ys, le)) == multiset(xs) + multiset(ys)
    ensures |Merged(xs, ys, le)| == |xs| + |ys|
  {
    if xs == [] || ys == [] {
    } else if le(xs[0], ys[0]) {
      MergedKeepsElements(xs[1..], ys, le);
      assert xs == [xs[0]] + xs[1..];
    } else {
      MergedKeepsElements(xs, ys[1..], le);
      assert ys == [ys[0]] + ys[1..];
    }
  }

  lemma InMerged<T>(xs: seq<T>, ys: seq<T>, le: (T, T) -> bool, x: T)
    ensures x in Merged(xs, ys, le) <==> x in xs || x in ys
  {
    MergedKeepsElements(xs, ys, le);
    assert x in Merged(xs, ys, le) <==> x in multiset(Merged(xs, ys, le));
    assert x in xs + ys <==> x in multiset(xs) + multiset(ys);
  }

  lemma {:induction false} MergedSorted<T(!new)>(xs: seq<T>, ys: seq<T>, le: (T, T) -> bool)
    requires TotalPreorder(le) && SortedBy(xs, le) && SortedBy(ys, le)
    ensures SortedBy(Merged(xs, ys, le), le)
  {
    if xs == [] || ys == [] {
    } else if le(xs[0], ys[0]) {
      MergedSorted(xs[1..], ys, le);
      HeadBelow(xs[0], xs[1..], ys, le);
    } else {
      MergedSorted(xs, ys[1..], le);
      HeadBelow(ys[0], xs, ys[1..], le);
    }
  }

  /** An element below both (sorted) arguments is below the whole merge. */
  lemma HeadBelow<T(!new)>(x: T, xs: seq<T>, ys: seq<T>, le: (T, T) -> bool)
    requires forall i :: 0 <= i < |xs| ==> le(x, xs[i])
    requires TotalPreorder(le) && SortedBy(ys, le)
    requires ys != [] ==> le(x, ys[0])
    ensures forall z :: z in Merged(xs, ys, le) ==> le(x, z)
  {
    forall z | z in Merged(xs, ys, le) ensures le(x, z) {
      InMerged(xs, ys, le, z);
    }
  }

  /** The elements that compare equal to z, in order. */
  ghost function Ties<T>(xs: seq<T>, z: T, le: (T, T) -> bool): seq<T> {
    if xs == [] then [] else (if le(xs[0], z) && le(z, xs[0]) then [xs[0]] else []) + Ties(xs[1..], z, le)
  }

  lemma {:induction false} NoTies<T(!new)>(xs: seq<T>, z: T, le: (T, T) -> bool)
    requires forall i :: 0 <= i < |xs| ==> !le(xs[i], z)
    ensures Ties(xs, z, le) == []
  {
    if xs != [] { NoTies(xs[1..], z, le); }
  }

  /** Of elements that compare equal, those of the first list come first, each list keeping its order. */
  lemma {:induction false} MergedTies<T(!new)>(xs: seq<T>, ys: seq<T>, z: T, le: (T, T) -> bool)
    requires TotalPreorder(le) && SortedBy(xs, le) && SortedBy(ys, le)
    ensures Ties(Merged(xs, ys, le), z, le) == Ties(xs, z, le) + Ties(ys, z, le)
  {
    if xs == [] || ys == [] {
    } else if le(xs[0], ys[0]) {
      MergedTies(xs[1..], ys, z, le);
    } else {
      MergedTies(xs, ys[1..], z, le);
      if le(ys[0], z) && le(z, ys[0]) {
        AllAbove(xs, ys[0], z, le);
        NoTies(xs, z, le);
      }
    }
  }

  lemma AllAbove<T(!new)>(xs: seq<T>, y: T, z: T, le: (T, T) -> bool)
    requires TotalPreorder(le) && SortedBy(xs, le) && xs != [] && !le(xs[0], y) && le(z, y)
    ensures forall i :: 0 <= i < |xs| ==> !le(xs[i], z)
  {
    forall i | 0 <= i < |xs| ensures !le(xs[i], z) {
      assert le(xs[0], xs[i]);
    }
  }

  // ----- the bins: a binary counter of sorted runs ---------------------------

  function Pow2(i: nat): nat {
    if i == 0 then 1 else 2 * Pow2(i - 1)
  }

  /** Bin k is empty or holds exactly 2^k elements. */
  ghost predicate Counter<T>(bins: seq<seq<T>>) {
    && |bins| == LISTSIZE
    && forall k :: 0 <= k < LISTSIZE ==> bins[k] == [] || |bins[k]| == Pow2(k)
  }

  ghost predicate AllSorted<T>(bins: seq<seq<T>>, le: (T, T) -> bool) {
    forall k :: 0 <= k < |bins| ==> SortedBy(bins[k], le)
  }

  ghost predicate FullFrom<T>(bins: seq<seq<T>>, i: nat) {
    forall k :: i <= k < |bins| ==> bins[k] != []
  }

  /** Carry a run of 2^i elements into the bins; an occupied last bin is overwritten. */
  function Carried<T>(bins: seq<seq<T>>, i: nat, ep: seq<T>, le: (T, T) -> bool): (r: seq<seq<T>>)
    requires |bins| == LISTSIZE && i < LISTSIZE
    ensures |r| == LISTSIZE
    decreases LISTSIZE - i, bins
  {
    if i < LISTSIZE - 1 && bins[i] != [] then
      Carried(bins[i := []], i + 1, Merged(ep, bins[i], le), le)
    else
      bins[i := ep]
  }

  function Filled<T>(list: seq<T>, bins: seq<seq<T>>, le: (T, T) -> bool): (r: seq<seq<T>>)
    requires |bins| == LISTSIZE
    ensures |r| == LISTSIZE
  {
    if list == [] then bins
    else Filled(list[1..], Carried(bins, 0, [list[0]], le), le)
  }

  function Drained<T>(bins: seq<seq<T>>, i: nat, ep: seq<T>, le: (T, T) -> bool): seq<T>
    requires |bins| == LISTSIZE && i <= LISTSIZE
    decreases LISTSIZE - i, bins
  {
    if i == LISTSIZE then ep
    else Drained(bins, i + 1, if bins[i] != [] then Merged(bins[i], ep, le) else ep, le)
  }

  function NoBins<T>(): seq<seq<T>> {
    seq(LISTSIZE, _ => [])
  }

  /** The list that `msort` returns. */
  function Sorted<T>(list: seq<T>, le: (T, T) -> bool): seq<T> {
    Drained(Filled(list, NoBins(), le), 0, [], le)
  }

  ghost function Content<T>(bins: seq<seq<T>>): multiset<T> {
    if bins == [] then multiset{} else multiset(bins[0]) + Content(bins[1..])
  }

  lemma {:induction false} ContentUpdate<T>(bins: seq<seq<T>>, i: nat, run: seq<T>)
    requires i < |bins|
    ensures Content(bins[i := run]) + multiset(bins[i]) == Content(bins) + multiset(run)
  {
    if i == 0 {
      assert bins[i := run][1..] == bins[1..];
    } else {
      var rest := bins[1..];
      ContentUpdate(rest, i - 1, run);
      assert bins[i := run][1..] == rest[i - 1 := run];
      assert rest[i - 1] == bins[i];
      var first, before, after := multiset(bins[0]), Content(rest), Content(rest[i - 1 := run]);
      assert Content(bins[i := run]) == first + after;
      assert first + after + multiset(bins[i]) == first + (after + multiset(bins[i]));
    }
  }

  lemma {:induction false} ContentOfEmpty<T>(bins: seq<seq<T>>)
    requires forall k :: 0 <= k < |bins| ==> bins[k] == []
    ensures Content(bins) == multiset{}
  {
    if bins != [] { ContentOfEmpty(bins[1..]); }
  }

  /** A counter with n bins holds at most 2^n - 1 elements, and exactly that many iff no bin is empty. */
  lemma {:induction false} CounterCapacity<T>(bins: seq<seq<T>>, n: nat)
    requires n <= |bins|
    requires forall k :: 0 <= k < n ==> bins[k] == [] || |bins[k]| == Pow2(k)
    ensures |Content(bins[..n])| <= Pow2(n) - 1
    ensures |Content(bins[..n])| == Pow2(n) - 1 <==> forall k :: 0 <= k < n ==> bins[k] != []
  {
    hide Content, Pow2;
    if n == 0 {
      assert bins[..0] == [];
      EmptyCapacity<T>();
    } else {
      CounterCapacity(bins, n - 1);
      PrefixSize(bins, n);
      Pow2Step(n - 1);
    }
  }

  lemma EmptyCapacity<T>()
    ensures Pow2(0) == 1 && Content<T>([]) == multiset{}
  {
  }

  lemma Pow2Step(n: nat)
    ensures Pow2(n + 1) == 2 * Pow2(n) && Pow2(n) >= 1
  {
    if n > 0 { Pow2Step(n - 1); }
  }

  lemma PrefixSize<T>(bins: seq<seq<T>>, n: nat)
    requires 0 < n <= |bins|
    ensures |Content(bins[..n])| == |Content(bins[..n - 1])| + |bins[n - 1]|
  {
    hide Content;
    ContentSnoc(bins[..n - 1], bins[n - 1]);
    assert bins[..n] == bins[..n - 1] + [bins[n - 1]];
    assert |multiset(bins[n - 1])| == |bins[n - 1]|;
  }

  lemma {:induction false} ContentSnoc<T>(bins: seq<seq<T>>, run: seq<T>)
    ensures Content(bins + [run]) == Content(bins) + multiset(run)
  {
    if bins == [] {
      assert (bins + [run])[1..] == [];
    } else {
      ContentSnoc(bins[1..], run);
      assert (bins + [run])[1..] == bins[1..] + [run];
    }
  }

  /** Carrying keeps the counter shape; it keeps every element unless all the bins it visits are occupied. */
  lemma {:induction false} CarryKeepsCounter<T>(bins: seq<seq<T>>, i: nat, ep: seq<T>, le: (T, T) -> bool)
    requires Counter(bins) && i < LISTSIZE && |ep| == Pow2(i)
    ensures Counter(Carried(bins, i, ep, le))
    decreases LISTSIZE - i
  {
    if i < LISTSIZE - 1 && bins[i] != [] {
      MergedKeepsElements(ep, bins[i], le);
      CarryKeepsCounter(bins[i := []], i + 1, Merged(ep, bins[i], le), le);
    }
  }

  lemma {:induction false} CarryKeepsContent<T>(bins: seq<seq<T>>, i: nat, ep: seq<T>, le: (T, T) -> bool)
    requires |bins| == LISTSIZE && i < LISTSIZE && !FullFrom(bins, i)
    ensures Content(Carried(bins, i, ep, le)) == Content(bins) + multiset(ep)
    decreases LISTSIZE - i
  {
    if i < LISTSIZE - 1 && bins[i] != [] {
      var bins', run := bins[i := []], Merged(ep, bins[i], le);
      assert multiset(run) == multiset(ep) + multiset(bins[i]) by { MergedKeepsElements(ep, bins[i], le); }
      assert Content(bins') + multiset(bins[i]) == Content(bins) by { ContentUpdate(bins, i, []); }
      assert !FullFrom(bins', i + 1) by {
        var k :| i <= k < |bins| && bins[k] == [];
        assert bins'[k] == [];
      }
      CarryKeepsContent(bins', i + 1, run, le);
    } else {
      ContentUpdate(bins, i, ep);
    }
  }

  lemma {:induction false} CarryKeepsSorted<T(!new)>(bins: seq<seq<T>>, i: nat, ep: seq<T>, le: (T, T) -> bool)
    requires |bins| == LISTSIZE && i < LISTSIZE && TotalPreorder(le) && AllSorted(bins, le) && SortedBy(ep, le)
    ensures AllSorted(Carried(bins, i, ep, le), le)
    decreases LISTSIZE - i
  {
    if i < LISTSIZE - 1 && bins[i] != [] {
      MergedSorted(ep, bins[i], le);
      CarryKeepsSorted(bins[i := []], i + 1, Merged(ep, bins[i], le), le);
    }
  }

  lemma CapacityIs30Bits()
    ensures Pow2(30) == 0x4000_0000
  {
    assert Pow2(10) == 1024;
    assert Pow2(20) == 1024 * 1024;
  }

  lemma {:induction false} FillKeepsContent<T>(list: seq<T>, bins: seq<seq<T>>, le: (T, T) -> bool)
    requires Counter(bins)
    ensures Counter(Filled(list, bins, le))
    ensures |Content(bins)| + |list| < Pow2(LISTSIZE) ==>
              Content(Filled(list, bins, le)) == Content(bins) + multiset(list)
  {
    hide Content, Pow2, Carried, FullFrom;
    if list != [] {
      var bins' := Carried(bins, 0, [list[0]], le);
      Pow2Step(0);
      EmptyCapacity<T>();
      CarryKeepsCounter(bins, 0, [list[0]], le);
      FillKeepsContent(list[1..], bins', le);
      if |Content(bins)| + |list| < Pow2(LISTSIZE) {
        SpareBin(bins);
        CarryKeepsContent(bins, 0, [list[0]], le);
        assert list == [list[0]] + list[1..];
      }
    }
  }

  lemma SpareBin<T>(bins: seq<seq<T>>)
    requires Counter(bins) && |Content(bins)| < Pow2(LISTSIZE) - 1
    ensures !FullFrom(bins, 0)
  {
    CounterCapacity(bins, LISTSIZE);
    assert bins[..LISTSIZE] == bins;
  }

  lemma {:induction false} FillKeepsSorted<T(!new)>(list: seq<T>, bins: seq<seq<T>>, le: (T, T) -> bool)
    requires |bins| == LISTSIZE && TotalPreorder(le) && AllSorted(bins, le)
    ensures AllSorted(Filled(list, bins, le), le)
  {
    if list != [] {
      CarryKeepsSorted(bins, 0, [list[0]], le);
      FillKeepsSorted(list[1..], Carried(bins, 0, [list[0]], le), le);
    }
  }

  /** One bin is merged into the run. */
  lemma MergeBin<T(!new)>(run: seq<T>, ep: seq<T>, le: (T, T) -> bool)
    ensures var r := if run != [] then Merged(run, ep, le) else ep;
            && multiset(r) == multiset(run) + multiset(ep)
            && (TotalPreorder(le) && SortedBy(run, le) && SortedBy(ep, le) ==> SortedBy(r, le))
  {
    hide TotalPreorder, SortedBy;
    MergedKeepsElements(run, ep, le);
    if TotalPreorder(le) && SortedBy(run, le) && SortedBy(ep, le) { MergedSorted(run, ep, le); }
  }

  lemma {:induction false} DrainKeeps<T(!new)>(bins: seq<seq<T>>, i: nat, ep: seq<T>, le: (T, T) -> bool)
    requires |bins| == LISTSIZE && i <= LISTSIZE
    ensures multiset(Drained(bins, i, ep, le)) == multiset(ep) + Content(bins[i..])
    ensures TotalPreorder(le) && AllSorted(bins, le) && SortedBy(ep, le) ==> SortedBy(Drained(bins, i, ep, le), le)
    decreases LISTSIZE - i
  {
    hide TotalPreorder, SortedBy, Merged;
    if i < LISTSIZE {
      MergeBin(bins[i], ep, le);
      DrainKeeps(bins, i + 1, if bins[i] != [] then Merged(bins[i], ep, le) else ep, le);
      assert bins[i..][1..] == bins[i + 1..];
    }
  }

  lemma AllCapacity<T>(bins: seq<seq<T>>)
    requires Counter(bins)
    ensures |Content(bins)| < 0x4000_0000
  {
    hide Content, Pow2;
    assert bins[..LISTSIZE] == bins;
    CounterCapacity(bins, LISTSIZE);
    CapacityIs30Bits();
  }

  /** `msort` always returns a sorted list, and a permutation of its input exactly for fewer than 2^30 nodes. */
  lemma SortCorrect<T(!new)>(list: seq<T>, le: (T, T) -> bool)
    requires TotalPreorder(le)
    ensures SortedBy(Sorted(list, le), le)
    ensures multiset(Sorted(list, le)) == multiset(list) <==> |list| < 0x4000_0000
  {
    hide Content, Pow2, Filled, Drained, Counter, TotalPreorder;
    var bins := Filled(list, NoBins(), le);
    assert Counter(NoBins<T>()) && AllSorted(NoBins<T>(), le) by { NoBinsOk(le); }
    ContentOfEmpty(NoBins<T>());
    FillKeepsContent(list, NoBins(), le);
    FillKeepsSorted(list, NoBins(), le);
    DrainKeeps(bins, 0, [], le);
    assert bins[0..] == bins;
    AllCapacity(bins);
    CapacityIs30Bits();
    assert |multiset(list)| == |list|;
  }

  lemma NoBinsOk<T(!new)>(le: (T, T) -> bool)
    ensures Counter(NoBins<T>()) && AllSorted(NoBins<T>(), le)
  {
  }

  // ----- the linked lists -----------------------------------------------------

  class Node<T> {
    const data: T
    var next: Node?<T>

    constructor (data: T, next: Node?<T>)
      ensures this.data == data && this.next == next
    {
      this.data := data;
      this.next := next;
    }
  }

  function Data<T>(ns: seq<Node<T>>): seq<T> {
    seq(|ns|, i requires 0 <= i < |ns| => ns[i].data)
  }

  /** `head` is a null-terminated list that visits exactly the nodes `ns`, in that order. */
  ghost predicate Chain<T>(head: Node?<T>, ns: seq<Node<T>>)
    reads ns
  {
    && head == (if ns == [] then null else ns[0])
    && (forall i {:trigger ns[i].next} :: 0 <= i < |ns| ==> ns[i].next == if i + 1 < |ns| then ns[i + 1] else null)
    && Distinct(ns)
  }

  ghost predicate Disjoint<T>(xs: seq<T>, ys: seq<T>) {
    forall x :: x in xs ==> x !in ys
  }

  /** `ns` is linked up to its last node, whose own link may be anything. */
  ghost predicate Linked<T>(ns: seq<Node<T>>)
    reads ns
  {
    && (forall i {:trigger ns[i].next} :: 0 <= i < |ns| - 1 ==> ns[i].next == ns[i + 1])
    && Distinct(ns)
  }

  lemma ChainTail<T>(head: Node?<T>, ns: seq<Node<T>>)
    requires Chain(head, ns) && ns != []
    ensures Chain(ns[0].next, ns[1..]) && ns[0] !in ns[1..]
    ensures Data(ns) == [ns[0].data] + Data(ns[1..])
  {
  }

  lemma LinkedSnoc<T>(ns: seq<Node<T>>, p: Node<T>)
    requires ns != [] && Linked(ns) && p !in ns && ns[|ns| - 1].next == p
    ensures Linked(ns + [p]) && Data(ns + [p]) == Data(ns) + [p.data]
  {
  }

  lemma ChainJoin<T>(front: seq<Node<T>>, head: Node?<T>, back: seq<Node<T>>)
    requires front != [] && Linked(front) && Chain(head, back) && Disjoint(front, back)
    requires front[|front| - 1].next == head
    ensures Chain(front[0], front + back) && Data(front + back) == Data(front) + Data(back)
  {
    var ns := front + back;
    forall i | 0 <= i < |ns| ensures ns[i].next == if i + 1 < |ns| then ns[i + 1] else null {
      if i < |front| - 1 {
        assert front[i].next == front[i + 1];
      } else if i >= |front| {
        assert back[i - |front|].next == ns[i].next;
      }
    }
    forall i, j | 0 <= i < j < |ns| ensures ns[i] != ns[j] {
      assert i < |front| ==> ns[i] in front;
      assert j >= |front| ==> ns[j] in back;
    }
  }

  /** The two lists still to merge, and the list `zs` (ending in `ptr`) merged so far. */
  ghost predicate MergeState<T>(a: Node?<T>, b: Node?<T>, ptr: Node<T>,
                                ra: seq<Node<T>>, rb: seq<Node<T>>, zs: seq<Node<T>>)
    reads ra, rb, zs
  {
    && Chain(a, ra) && Chain(b, rb) && Linked(zs)
    && zs != [] && zs[|zs| - 1] == ptr
    && Disjoint(zs, ra) && Disjoint(zs, rb) && Disjoint(ra, rb)
  }

  /** Append the head `a` of the list `ra` to the merged list. */
  method Append<T>(a: Node<T>, ptr: Node<T>, ghost b: Node?<T>,
                   ghost ra: seq<Node<T>>, ghost rb: seq<Node<T>>, ghost zs: seq<Node<T>>)
    requires MergeState(a, b, ptr, ra, rb, zs)
    modifies ptr`next
    ensures ra != [] && a == ra[0] && MergeState(a.next, b, a, ra[1..], rb, zs + [a])
    ensures Data(ra) == [a.data] + Data(ra[1..]) && Data(zs + [a]) == Data(zs) + [a.data]
  {
    assert ptr in zs && ptr !in ra && ptr !in rb;
    ptr.next := a;
    assert Chain(a, ra) && Chain(b, rb);
    ChainTail(a, ra);
    LinkedSnoc(zs, a);
  }

  lemma MergedTakeLeft<T>(xs: seq<T>, ys: seq<T>, le: (T, T) -> bool, x: T, xs': seq<T>, zs: seq<T>)
    requires xs == [x] + xs' && (ys == [] || le(x, ys[0]))
    ensures zs + Merged(xs, ys, le) == zs + [x] + Merged(xs', ys, le)
  {
    assert xs[1..] == xs';
  }

  lemma MergedTakeRight<T>(xs: seq<T>, ys: seq<T>, le: (T, T) -> bool, y: T, ys': seq<T>, zs: seq<T>)
    requires ys == [y] + ys' && xs != [] && !le(xs[0], y)
    ensures zs + Merged(xs, ys, le) == zs + [y] + Merged(xs, ys', le)
  {
    assert ys[1..] == ys';
  }

  /** The merging loop: append the smaller head until one list is used up, then link the rest of the other. */
  method MergeLoop<T>(a0: Node?<T>, b0: Node?<T>, ptr0: Node<T>, le: (T, T) -> bool,
                      ghost ra0: seq<Node<T>>, ghost rb0: seq<Node<T>>, ghost zs0: seq<Node<T>>)
    returns (ghost zs: seq<Node<T>>)
    requires MergeState(a0, b0, ptr0, ra0, rb0, zs0)
    modifies (set n | n in zs0 + ra0 + rb0)`next
    ensures zs != [] && zs[0] == zs0[0] && Chain(zs[0], zs)
    ensures Data(zs) == Data(zs0) + Merged(Data(ra0), Data(rb0), le)
    ensures forall n :: n in zs <==> n in zs0 + ra0 + rb0
  {
    var a, b := a0, b0;
    var ptr: Node<T> := ptr0;
    ghost var ra, rb := ra0, rb0;
    zs := zs0;
    while a != null && b != null
      invariant MergeState(a, b, ptr, ra, rb, zs) && zs[0] == zs0[0]
      invariant forall n :: n in zs + ra + rb <==> n in zs0 + ra0 + rb0
      invariant Data(zs) + Merged(Data(ra), Data(rb), le) == Data(zs0) + Merged(Data(ra0), Data(rb0), le)
      decreases |ra| + |rb|
    {
      assert ptr in zs + ra + rb;
      if le(a.data, b.data) {
        Append(a, ptr, b, ra, rb, zs);
        MergedTakeLeft(Data(ra), Data(rb), le, a.data, Data(ra[1..]), Data(zs));
        zs, ra := zs + [a], ra[1..];
        ptr := a;
        a := a.next;
      } else {
        Append(b, ptr, a, rb, ra, zs);
        MergedTakeRight(Data(ra), Data(rb), le, b.data, Data(rb[1..]), Data(zs));
        zs, rb := zs + [b], rb[1..];
        ptr := b;
        b := b.next;
      }
    }
    zs := LinkRest(a, b, ptr, ra, rb, zs);
  }

  method LinkRest<T>(a: Node?<T>, b: Node?<T>, ptr: Node<T>,
                     ghost ra: seq<Node<T>>, ghost rb: seq<Node<T>>, ghost zs0: seq<Node<T>>)
    returns (ghost zs: seq<Node<T>>)
    requires MergeState(a, b, ptr, ra, rb, zs0) && (a == null || b == null)
    modifies ptr`next
    ensures zs == zs0 + ra + rb && Chain(zs0[0], zs)
    ensures Data(zs) == Data(zs0) + (if ra == [] then Data(rb) else Data(ra))
  {
    assert ptr in zs0 && ptr !in ra && ptr !in rb;
    if a != null {
      ptr.next := a;
      assert Chain(a, ra);
      ChainJoin(zs0, a, ra);
      zs := zs0 + ra + rb;
      assert zs == zs0 + ra;
    } else {
      ptr.next := b;
      assert Chain(b, rb);
      ChainJoin(zs0, b, rb);
      zs := zs0 + ra + rb;
      assert zs == zs0 + rb;
    }
  }

  /** Merge two lists by relinking their nodes. */
  method Merge<T>(a: Node?<T>, b: Node?<T>, le: (T, T) -> bool, ghost xs: seq<Node<T>>, ghost ys: seq<Node<T>>)
    returns (head: Node?<T>, ghost zs: seq<Node<T>>)
    requires Chain(a, xs) && Chain(b, ys) && Disjoint(xs, ys)
    modifies (set n | n in xs + ys)`next
    ensures Chain(head, zs)
    ensures Data(zs) == Merged(Data(xs), Data(ys), le)
    ensures forall n :: n in zs <==> n in xs + ys
  {
    if a == null {
      head, zs := b, ys;
    } else if b == null {
      head, zs := a, xs;
    } else if le(a.data, b.data) {
      ChainTail(a, xs);
      MergedTakeLeft(Data(xs), Data(ys), le, a.data, Data(xs[1..]), []);
      zs := MergeLoop(a.next, b, a, le, xs[1..], ys, [a]);
      head := a;
    } else {
      ChainTail(b, ys);
      MergedTakeRight(Data(xs), Data(ys), le, b.data, Data(ys[1..]), []);
      zs := MergeLoop(a, b.next, b, le, xs, ys[1..], [b]);
      head := b;
    }
  }

  function DataBins<T>(bins: seq<seq<Node<T>>>): seq<seq<T>> {
    seq(|bins|, k requires 0 <= k < |bins| => Data(bins[k]))
  }

  /** The array of bins holds the lists `bins`, made of nodes in `all`, and no two bins share a node. */
  ghost predicate BinState<T>(slots: array<Node?<T>>, bins: seq<seq<Node<T>>>, all: set<Node<T>>)
    reads slots, all
  {
    && slots.Length == LISTSIZE == |bins|
    && Within(bins, all)
    && (forall k :: 0 <= k < LISTSIZE ==> Chain(slots[k], bins[k]))
    && (forall k, l :: 0 <= k < l < LISTSIZE ==> Disjoint(bins[k], bins[l]))
  }

  ghost predicate Within<T>(bins: seq<seq<Node<T>>>, all: set<Node<T>>) {
    forall k :: 0 <= k < |bins| ==> forall n :: n in bins[k] ==> n in all
  }

  /** No node of `run` is in a bin. */
  ghost predicate Free<T>(run: seq<Node<T>>, bins: seq<seq<Node<T>>>) {
    forall k :: 0 <= k < |bins| ==> Disjoint(bins[k], run)
  }

  /** A list `ep` in hand (its nodes are `run`) beside the bins. */
  ghost predicate Carrying<T>(slots: array<Node?<T>>, bins: seq<seq<Node<T>>>, all: set<Node<T>>,
                              ep: Node?<T>, run: seq<Node<T>>)
    reads slots, all
  {
    && BinState(slots, bins, all)
    && (forall n :: n in run ==> n in all)
    && Chain(ep, run) && Free(run, bins)
  }

  lemma DataBinsUpdate<T>(bins: seq<seq<Node<T>>>, i: nat, run: seq<Node<T>>)
    requires i < |bins|
    ensures DataBins(bins[i := run]) == DataBins(bins)[i := Data(run)] && DataBins(bins)[i] == Data(bins[i])
    ensures Data(bins[i]) == [] <==> bins[i] == []
  {
  }

  /** Merge the run in hand with the list in bin i, and empty that bin. */
  method CarryOne<T>(slots: array<Node?<T>>, i: nat, ep0: Node?<T>, le: (T, T) -> bool,
                     ghost run0: seq<Node<T>>, ghost bins: seq<seq<Node<T>>>, ghost all: set<Node<T>>)
    returns (ep: Node?<T>, ghost run: seq<Node<T>>)
    requires Carrying(slots, bins, all, ep0, run0) && i < LISTSIZE
    modifies slots, all`next
    ensures Carrying(slots, bins[i := []], all, ep, run)
    ensures Data(run) == Merged(Data(run0), Data(bins[i]), le)
  {
    hide Merged, Data;
    ep, run := Merge(ep0, slots[i], le, run0, bins[i]);
    forall k | 0 <= k < LISTSIZE && k != i ensures Chain(slots[k], bins[k]) && Disjoint(bins[k], run) {
      assert Disjoint(bins[k], run0) && Disjoint(bins[k], bins[i]);
    }
    slots[i] := null;
  }

  method PutBin<T>(slots: array<Node?<T>>, i: nat, ep: Node?<T>,
                   ghost run: seq<Node<T>>, ghost bins: seq<seq<Node<T>>>, ghost all: set<Node<T>>)
    requires Carrying(slots, bins, all, ep, run) && i < LISTSIZE
    modifies slots
    ensures BinState(slots, bins[i := run], all)
  {
    slots[i] := ep;
  }

  lemma CarriedStep<T>(bins: seq<seq<Node<T>>>, i: nat, run: seq<Node<T>>, run': seq<Node<T>>, le: (T, T) -> bool)
    requires |bins| == LISTSIZE && i < LISTSIZE - 1 && bins[i] != []
    requires Data(run') == Merged(Data(run), Data(bins[i]), le)
    ensures Carried(DataBins(bins), i, Data(run), le) == Carried(DataBins(bins[i := []]), i + 1, Data(run'), le)
  {
    DataBinsUpdate(bins, i, []);
    assert Data<T>([]) == [];
  }

  lemma CarriedStop<T>(bins: seq<seq<Node<T>>>, i: nat, run: seq<Node<T>>, le: (T, T) -> bool)
    requires |bins| == LISTSIZE && i < LISTSIZE && (i == LISTSIZE - 1 || bins[i] == [])
    ensures Carried(DataBins(bins), i, Data(run), le) == DataBins(bins[i := run])
  {
    DataBinsUpdate(bins, i, run);
  }

  /** Carry one list into the bins: the inner loop of `msort`. */
  method CarryInto<T>(slots: array<Node?<T>>, ep0: Node<T>, le: (T, T) -> bool,
                      ghost run0: seq<Node<T>>, ghost bins0: seq<seq<Node<T>>>, ghost all: set<Node<T>>)
    returns (ghost bins: seq<seq<Node<T>>>)
    requires Carrying(slots, bins0, all, ep0, run0)
    modifies slots, all`next
    ensures BinState(slots, bins, all)
    ensures DataBins(bins) == Carried(DataBins(bins0), 0, Data(run0), le)
  {
    var i := 0;
    var ep: Node?<T> := ep0;
    ghost var run := run0;
    ghost var goal := Carried(DataBins(bins0), 0, Data(run0), le);
    bins := bins0;
    while i < LISTSIZE - 1 && slots[i] != null
      invariant i <= LISTSIZE - 1
      invariant Carrying(slots, bins, all, ep, run)
      invariant Carried(DataBins(bins), i, Data(run), le) == goal
    {
      assert Chain(slots[i], bins[i]);
      ghost var run';
      ep, run' := CarryOne(slots, i, ep, le, run, bins, all);
      CarriedStep(bins, i, run, run', le);
      bins, run := bins[i := []], run';
      i := i + 1;
    }
    assert Chain(slots[i], bins[i]);
    CarriedStop(bins, i, run, le);
    PutBin(slots, i, ep, run, bins, all);
    bins := bins[i := run];
  }

  /** Take the first node off a list. */
  method Detach<T>(list: Node<T>, ghost ns: seq<Node<T>>) returns (rest: Node?<T>)
    requires Chain(list, ns)
    modifies list`next
    ensures ns != [] && list == ns[0] && list !in ns[1..]
    ensures Chain(rest, ns[1..]) && Chain(list, [list])
    ensures Data(ns) == [list.data] + Data(ns[1..])
  {
    ChainTail(list, ns);
    rest := list.next;
    list.next := null;
  }

  /** The bins from i on, beside the list `ep` already merged from the others. */
  ghost predicate Draining<T>(slots: array<Node?<T>>, bins: seq<seq<Node<T>>>, i: nat, all: set<Node<T>>,
                              ep: Node?<T>, run: seq<Node<T>>)
    reads slots, all
  {
    && slots.Length == LISTSIZE == |bins| && i <= LISTSIZE
    && Within(bins, all) && (forall n :: n in run ==> n in all)
    && (forall k :: i <= k < LISTSIZE ==> Chain(slots[k], bins[k]) && Disjoint(bins[k], run))
    && (forall k, l :: i <= k < l < LISTSIZE ==> Disjoint(bins[k], bins[l]))
    && Chain(ep, run)
  }

  method DrainOne<T>(slots: array<Node?<T>>, i: nat, ep0: Node?<T>, le: (T, T) -> bool,
                     ghost run0: seq<Node<T>>, ghost bins: seq<seq<Node<T>>>, ghost all: set<Node<T>>)
    returns (ep: Node?<T>, ghost run: seq<Node<T>>)
    requires i < LISTSIZE && Draining(slots, bins, i, all, ep0, run0)
    modifies all`next
    ensures Draining(slots, bins, i + 1, all, ep, run)
    ensures Data(run) == Merged(Data(bins[i]), Data(run0), le)
  {
    ep, run := Merge(slots[i], ep0, le, bins[i], run0);
    forall k | i < k < LISTSIZE ensures Chain(slots[k], bins[k]) && Disjoint(bins[k], run) {
      assert Disjoint(bins[k], run0) && Disjoint(bins[i], bins[k]);
    }
  }

  lemma DrainedStep<T>(bins: seq<seq<Node<T>>>, i: nat, run: seq<Node<T>>, run': seq<Node<T>>, le: (T, T) -> bool)
    requires |bins| == LISTSIZE && i < LISTSIZE
    requires if bins[i] == [] then run' == run else Data(run') == Merged(Data(bins[i]), Data(run), le)
    ensures Drained(DataBins(bins), i, Data(run), le) == Drained(DataBins(bins), i + 1, Data(run'), le)
  {
    DataBinsUpdate(bins, i, []);
  }

  /** Merge all the bins, smallest first: the last loop of `msort`. */
  method Drain<T>(slots: array<Node?<T>>, le: (T, T) -> bool, ghost bins: seq<seq<Node<T>>>, ghost all: set<Node<T>>)
    returns (ep: Node?<T>, ghost run: seq<Node<T>>)
    requires BinState(slots, bins, all)
    modifies all`next
    ensures Chain(ep, run) && (forall n :: n in run ==> n in all)
    ensures Data(run) == Drained(DataBins(bins), 0, [], le)
  {
    hide Drained, Merged;
    ep, run := null, [];
    var i := 0;
    assert Data<T>([]) == [];
    while i < LISTSIZE
      invariant i <= LISTSIZE && Draining(slots, bins, i, all, ep, run)
      invariant Drained(DataBins(bins), i, Data(run), le) == Drained(DataBins(bins), 0, [], le)
    {
      assert Chain(slots[i], bins[i]);
      ghost var run' := run;
      if slots[i] != null {
        ep, run' := DrainOne(slots, i, ep, le, run, bins, all);
      }
      DrainedStep(bins, i, run, run', le);
      run := run';
      i := i + 1;
    }
    DrainedEnd(DataBins(bins), Data(run), le);
  }

  lemma DrainedEnd<T>(bins: seq<seq<T>>, ep: seq<T>, le: (T, T) -> bool)
    requires |bins| == LISTSIZE
    ensures Drained(bins, LISTSIZE, ep, le) == ep
  {
  }

  /** Sort a null-terminated list of nodes by relinking it. */
  method Msort<T>(list0: Node?<T>, le: (T, T) -> bool, ghost ns: seq<Node<T>>)
    returns (head: Node?<T>, ghost zs: seq<Node<T>>)
    requires Chain(list0, ns)
    modifies (set n | n in ns)`next
    ensures Chain(head, zs)
    ensures Data(zs) == Sorted(Data(ns), le)
  {
    ghost var used: set<Node<T>> := {};
    var slots := new Node?<T>[LISTSIZE](_ => null);
    ghost var bins: seq<seq<Node<T>>> := NoBins();
    assert DataBins(bins) == NoBins() by { assert Data<T>([]) == []; }
    var list := list0;
    ghost var rest := ns;
    while list != null
      invariant BinState(slots, bins, used) && Chain(list, rest)
      invariant forall n :: n in rest ==> n in ns && n !in used
      invariant forall n :: n in used ==> n in ns
      invariant Filled(Data(rest), DataBins(bins), le) == Filled(Data(ns), NoBins(), le)
      decreases |rest|
    {
      var ep := list;
      list := Detach(ep, rest);
      assert BinState(slots, bins, used + {ep});
      ghost var bins' := CarryInto(slots, ep, le, [ep], bins, used + {ep});
      FilledStep(bins, rest, bins', ep, le);
      used := used + {ep};
      bins, rest := bins', rest[1..];
    }
    head, zs := Drain(slots, le, bins, used);
  }

  lemma FilledStep<T>(bins: seq<seq<Node<T>>>, rest: seq<Node<T>>, bins': seq<seq<Node<T>>>, ep: Node<T>,
                      le: (T, T) -> bool)
    requires |bins| == LISTSIZE == |bins'| && rest != [] && ep == rest[0]
    requires DataBins(bins') == Carried(DataBins(bins), 0, Data([ep]), le)
    ensures Filled(Data(rest), DataBins(bins), le) == Filled(Data(rest[1..]), DataBins(bins'), le)
  {
    assert Data([ep]) == [ep.data];
    assert Data(rest)[0] == ep.data && Data(rest)[1..] == Data(rest[1..]);
  }

  /** Read a list back as a sequence. */
  method ToSeq<T>(head: Node?<T>, ghost ns: seq<Node<T>>) returns (xs: seq<T>)
    requires Chain(head, ns)
    ensures xs == Data(ns)
  {
    var p := head;
    ghost var rest := ns;
    xs := [];
    while p != null
      invariant Chain(p, rest) && Data(ns) == xs + Data(rest)
      decreases |rest|
    {
      ChainTail(p, rest);
      xs := xs + [p.data];
      p, rest := p.next, rest[1..];
    }
  }

  /** Sort a sequence: link its elements into a list, sort the list, read it back. */
  method SortSeq<T>(xs: seq<T>, le: (T, T) -> bool) returns (ys: seq<T>)
    ensures ys == Sorted(xs, le)
  {
    var head: Node?<T> := null;
    ghost var ns: seq<Node<T>> := [];
    for i := |xs| downto 0
      invariant Chain(head, ns) && Data(ns) == xs[i..]
      invariant forall n :: n in ns ==> fresh(n)
    {
      var n := new Node(xs[i], head);
      head, ns := n, [n] + ns;
      assert Data(ns) == [n.data] + Data(ns[1..]);
    }
    assert xs[0..] == xs;
    ghost var zs;
    head, zs := Msort(head, le, ns);
    ys := ToSeq(head, zs);
  }
}
