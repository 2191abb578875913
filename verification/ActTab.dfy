/**
  The `acttab` module: packing the action sets of all states into one table.

  A transaction is a list of (lookahead, action) pairs.  Inserting it at offset o
  stores the pair for lookahead X in slot o + X; a reader finds it again because
  the slot repeats the lookahead.  Transactions share one table, so the table
  serves a transaction correctly (`Exact`) when the slots whose lookahead agrees
  with that offset are the slots of the transaction and no others.
*/
module ActTab {

  datatype Slot = Slot(lookahead: int, action: int)

  const EMPTY := Slot(-1, -1)

  // ----- specification on values ---------------------------------------------

  /** The pairs of one action set: no lookahead occurs twice. */
  ghost predicate Transaction(txn: seq<Slot>) {
    && (forall e :: e in txn ==> e.lookahead >= 0)
    && (forall i, j :: 0 <= i < j < |txn| ==> txn[i].lookahead != txn[j].lookahead)
  }

  /** Slot j holds an entry of a transaction stored at offset o. */
  predicate Aligned(tab: seq<Slot>, j: nat, o: int)
    requires j < |tab|
  {
    tab[j].lookahead >= 0 && tab[j].lookahead == j - o
  }

  /** Reading the table at offset o yields exactly the transaction. */
  ghost predicate Exact(tab: seq<Slot>, o: int, txn: seq<Slot>) {
    && (forall e :: e in txn ==> 0 <= o + e.lookahead < |tab| && tab[o + e.lookahead] == e)
    && (forall j :: 0 <= j < |tab| && Aligned(tab, j, o) ==> tab[j] in txn)
  }

  ghost predicate Unused(tab: seq<Slot>, o: int) {
    forall j :: 0 <= j < |tab| ==> !Aligned(tab, j, o)
  }

  /** The transaction can be stored at offset o without disturbing any other. */
  ghost predicate Placeable(tab: seq<Slot>, o: int, txn: seq<Slot>) {
    && (forall e :: e in txn ==> 0 <= o + e.lookahead < |tab| && tab[o + e.lookahead].lookahead < 0)
    && Unused(tab, o)
  }

  /** The table after the transaction has been written at offset o. */
  ghost predicate Written(tab: seq<Slot>, o: int, txn: seq<Slot>, tab': seq<Slot>) {
    && |tab'| == |tab|
    && (forall e :: e in txn ==> 0 <= o + e.lookahead < |tab| && tab'[o + e.lookahead] == e)
    && (forall k :: 0 <= k < |tab| ==> tab'[k] == tab[k] || (tab'[k] in txn && tab'[k].lookahead == k - o))
  }

  /** Every transaction that was stored correctly still is. */
  ghost predicate KeepsOthers(tab: seq<Slot>, tab': seq<Slot>) {
    forall o: int, t: seq<Slot> :: t != [] && Transaction(t) && Exact(tab, o, t) ==> Exact(tab', o, t)
  }

  ghost predicate TableOk(tab: seq<Slot>, n: nat) {
    && n <= |tab|
    && (forall j :: 0 <= j < |tab| ==> tab[j].lookahead >= 0 || tab[j] == EMPTY)
    && (forall j :: n <= j < |tab| ==> tab[j] == EMPTY)
    && (n > 0 ==> tab[n - 1] != EMPTY)
  }

  // ----- when a placement is correct ------------------------------------------

  lemma PlaceableKeeps(tab: seq<Slot>, o: int, txn: seq<Slot>, tab': seq<Slot>)
    requires Transaction(txn) && Placeable(tab, o, txn) && Written(tab, o, txn, tab')
    ensures Exact(tab', o, txn) && KeepsOthers(tab, tab')
  {
    forall p: int, t: seq<Slot> | t != [] && Transaction(t) && Exact(tab, p, t) ensures Exact(tab', p, t) {
      PlaceableKeepsOne(tab, o, txn, tab', p, t);
    }
    forall j | 0 <= j < |tab'| && Aligned(tab', j, o) ensures tab'[j] in txn {
      assert !Aligned(tab, j, o);
    }
  }

  lemma PlaceableKeepsOne(tab: seq<Slot>, o: int, txn: seq<Slot>, tab': seq<Slot>, p: int, t: seq<Slot>)
    requires Transaction(txn) && Placeable(tab, o, txn) && Written(tab, o, txn, tab')
    requires t != [] && Transaction(t) && Exact(tab, p, t)
    ensures Exact(tab', p, t)
  {
    hide Transaction, Placeable, Written, Unused;
    UsedOffset(tab, p, t);
    SlotKept(tab, o, txn, tab', 0);
    assert p != o;
    forall e | e in t ensures 0 <= p + e.lookahead < |tab'| && tab'[p + e.lookahead] == e {
      PairAt(tab, p, t, e);
      SlotKept(tab, o, txn, tab', p + e.lookahead);
    }
    forall j | 0 <= j < |tab'| && Aligned(tab', j, p) ensures tab'[j] in t {
      SlotKept(tab, o, txn, tab', j);
      assert Aligned(tab, j, p);
    }
  }

  lemma PairAt(tab: seq<Slot>, p: int, t: seq<Slot>, e: Slot)
    requires Transaction(t) && Exact(tab, p, t) && e in t
    ensures e.lookahead >= 0 && 0 <= p + e.lookahead < |tab| && tab[p + e.lookahead] == e
  {
  }

  /** A used slot is not overwritten; a slot that changes takes an entry of the transaction. */
  lemma SlotKept(tab: seq<Slot>, o: int, txn: seq<Slot>, tab': seq<Slot>, k: nat)
    requires Placeable(tab, o, txn) && Written(tab, o, txn, tab')
    ensures |tab'| == |tab| && Unused(tab, o)
    ensures k < |tab| ==> (tab[k].lookahead >= 0 ==> tab'[k] == tab[k])
    ensures k < |tab| ==> tab'[k] == tab[k] || (tab'[k] in txn && tab'[k].lookahead == k - o)
  {
    hide Written, Unused, Placeable;
    WrittenSlot(tab, o, txn, tab', k);
    if k < |tab| && tab'[k] != tab[k] { PlaceIsEmpty(tab, o, txn, tab'[k]); }
    assert Unused(tab, o) by { PlaceIsUnused(tab, o, txn); }
  }

  lemma PlaceIsUnused(tab: seq<Slot>, o: int, txn: seq<Slot>)
    requires Placeable(tab, o, txn)
    ensures Unused(tab, o)
  {
  }

  lemma PlaceIsEmpty(tab: seq<Slot>, o: int, txn: seq<Slot>, e: Slot)
    requires Placeable(tab, o, txn) && e in txn
    ensures 0 <= o + e.lookahead < |tab| && tab[o + e.lookahead].lookahead < 0
  {
  }

  lemma WrittenSlot(tab: seq<Slot>, o: int, txn: seq<Slot>, tab': seq<Slot>, k: nat)
    requires Written(tab, o, txn, tab')
    ensures |tab'| == |tab|
    ensures k < |tab| ==> tab'[k] == tab[k] || (tab'[k] in txn && tab'[k].lookahead == k - o)
  {
  }

  lemma UsedOffset(tab: seq<Slot>, p: int, t: seq<Slot>)
    requires t != [] && Transaction(t) && Exact(tab, p, t)
    ensures !Unused(tab, p)
  {
    assert t[0] in t;
    assert Aligned(tab, p + t[0].lookahead, p);
  }

  /** Writing over a duplicate changes nothing. */
  lemma ExactRewrite(tab: seq<Slot>, o: int, txn: seq<Slot>, tab': seq<Slot>)
    requires Transaction(txn) && Exact(tab, o, txn) && Written(tab, o, txn, tab')
    ensures tab' == tab
  {
  }

  /** Two different transactions never share an offset. */
  lemma OffsetsDistinct(tab: seq<Slot>, o: int, t: seq<Slot>, u: seq<Slot>)
    requires Transaction(t) && Transaction(u) && Exact(tab, o, t) && Exact(tab, o, u)
    ensures forall e :: e in t <==> e in u
  {
    forall e | e in t ensures e in u { assert Aligned(tab, o + e.lookahead, o); }
    forall e | e in u ensures e in t { assert Aligned(tab, o + e.lookahead, o); }
  }

  /** Writing into empty slots at an offset already in use always breaks the new transaction. */
  lemma UsedOffsetBreaks(tab: seq<Slot>, o: int, txn: seq<Slot>, tab': seq<Slot>)
    requires Transaction(txn) && Written(tab, o, txn, tab')
    requires forall e :: e in txn ==> 0 <= o + e.lookahead < |tab| && tab[o + e.lookahead].lookahead < 0
    requires !Unused(tab, o)
    ensures !Exact(tab', o, txn)
  {
    var j :| 0 <= j < |tab| && Aligned(tab, j, o);
    assert tab'[j] == tab[j];
    assert Aligned(tab', j, o);
    assert tab'[j] !in txn;
  }

  // ----- where a transaction goes ----------------------------------------------

  /** mn and mx are the smallest and the largest lookahead of the transaction. */
  ghost predicate Spans(txn: seq<Slot>, mn: int, mx: int) {
    && (forall e :: e in txn ==> mn <= e.lookahead <= mx)
    && (exists e :: e in txn && e.lookahead == mn)
    && (exists e :: e in txn && e.lookahead == mx)
  }

  /** The table with room for a transaction appended after slot n. */
  function Grown(tab: seq<Slot>, n: nat, mx: nat): seq<Slot> {
    if n + mx + 1 >= |tab| then tab + seq(n + mx + 1 + 20, _ => EMPTY) else tab
  }

  /** Some slot below n, empty or not, reads as if it belonged to offset o. */
  ghost predicate Blocked(tab: seq<Slot>, n: nat, o: int)
    requires n <= |tab|
  {
    exists j :: 0 <= j < n && tab[j].lookahead == j - o
  }

  /** The hole test of the search: the transaction goes to offset o. */
  ghost predicate Fits(tab: seq<Slot>, n: nat, txn: seq<Slot>, o: int)
    requires n <= |tab|
  {
    && (forall e :: e in txn ==> 0 <= o + e.lookahead < |tab| && tab[o + e.lookahead].lookahead < 0)
    && !Blocked(tab, n, o)
  }

  /** The search range [lo, hi) of offsets contains a hole. */
  ghost predicate HasHole(tab: seq<Slot>, n: nat, txn: seq<Slot>, lo: int, hi: int)
    requires n <= |tab|
  {
    exists p :: lo <= p < hi && Fits(tab, n, txn, p)
  }

  /** o is the first offset of [lo, last) that fits, or `last` when there is none. */
  ghost predicate FirstFit(tab: seq<Slot>, n: nat, txn: seq<Slot>, lo: int, last: int, o: int)
    requires n <= |tab|
  {
    && lo <= o <= last
    && (forall p :: lo <= p < o ==> !Fits(tab, n, txn, p))
    && (o < last ==> Fits(tab, n, txn, o))
  }

  ghost predicate Duplicate(tab: seq<Slot>, txn: seq<Slot>) {
    exists o: int :: Exact(tab, o, txn)
  }

  /** The offset chosen by an insertion: the highest duplicate, else the first hole. */
  ghost predicate ChosenOffset(tab: seq<Slot>, n: nat, txn: seq<Slot>, mn: int, mx: int, o: int)
    requires n <= |tab|
  {
    if Duplicate(tab, txn) then
      Exact(tab, o, txn) && forall p: int :: Exact(tab, p, txn) ==> p <= o
    else
      FirstFit(tab, n, txn, -mn, |tab| - mx - mn, o)
  }

  lemma FitsIsPlaceable(tab: seq<Slot>, n: nat, txn: seq<Slot>, o: int)
    requires TableOk(tab, n) && Fits(tab, n, txn, o)
    ensures Placeable(tab, o, txn)
  {
  }

  /** The insertion of `txn` at offset o turned `tab` into `tab'` and served everyone. */
  ghost predicate Correct(tab: seq<Slot>, o: int, txn: seq<Slot>, tab': seq<Slot>) {
    Exact(tab', o, txn) && KeepsOthers(tab, tab')
  }

  lemma CorrectWhenDuplicate(tab: seq<Slot>, o: int, txn: seq<Slot>, tab': seq<Slot>)
    requires Transaction(txn) && Exact(tab, o, txn) && Written(tab, o, txn, tab')
    ensures Correct(tab, o, txn, tab')
  {
    ExactRewrite(tab, o, txn, tab');
  }

  lemma CorrectWhenFits(tab: seq<Slot>, n: nat, o: int, txn: seq<Slot>, tab': seq<Slot>)
    requires TableOk(tab, n) && Transaction(txn) && Fits(tab, n, txn, o) && Written(tab, o, txn, tab')
    ensures Correct(tab, o, txn, tab')
  {
    FitsIsPlaceable(tab, n, txn, o);
    PlaceableKeeps(tab, o, txn, tab');
  }

  /** Past the used slots the only question is whether the offset is in use. */
  lemma CorrectPastTheEnd(tab: seq<Slot>, n: nat, mn: int, mx: int, o: int, txn: seq<Slot>, tab': seq<Slot>)
    requires TableOk(tab, n) && Transaction(txn) && Spans(txn, mn, mx) && n + mx + 1 < |tab|
    requires o == |tab| - mx - mn && Written(tab, o, txn, tab')
    ensures Correct(tab, o, txn, tab') <==> Unused(tab, o)
  {
    if Unused(tab, o) {
      PlaceableKeeps(tab, o, txn, tab');
    } else {
      UsedOffsetBreaks(tab, o, txn, tab');
    }
  }

  /**
    An insertion is correct exactly when it found a duplicate or a hole: the hole
    search falls through to the offset |tab| - mx - mn without a test, and that
    offset must happen to be unused.
  */
  lemma InsertCorrectIff(tab: seq<Slot>, n: nat, txn: seq<Slot>, mn: int, mx: int, o: int, tab': seq<Slot>)
    requires TableOk(tab, n) && Transaction(txn) && Spans(txn, mn, mx) && n + mx + 1 < |tab|
    requires ChosenOffset(tab, n, txn, mn, mx, o) && Written(tab, o, txn, tab')
    ensures Correct(tab, o, txn, tab') <==>
            || Duplicate(tab, txn)
            || HasHole(tab, n, txn, -mn, |tab| - mx - mn)
            || Unused(tab, |tab| - mx - mn)
  {
    if Duplicate(tab, txn) {
      CorrectWhenDuplicate(tab, o, txn, tab');
    } else {
      NewCorrectIff(tab, n, txn, mn, mx, o, tab');
    }
  }

  lemma NewCorrectIff(tab: seq<Slot>, n: nat, txn: seq<Slot>, mn: int, mx: int, o: int, tab': seq<Slot>)
    requires TableOk(tab, n) && Transaction(txn) && Spans(txn, mn, mx) && n + mx + 1 < |tab|
    requires FirstFit(tab, n, txn, -mn, |tab| - mx - mn, o) && Written(tab, o, txn, tab')
    ensures Correct(tab, o, txn, tab') <==>
            HasHole(tab, n, txn, -mn, |tab| - mx - mn) || Unused(tab, |tab| - mx - mn)
  {
    hide Transaction, Spans, Written, Correct, Fits, Unused;
    var last := |tab| - mx - mn;
    if o < last {
      assert HasHole(tab, n, txn, -mn, last);
      CorrectWhenFits(tab, n, o, txn, tab');
    } else {
      NoHoleCorrectIff(tab, n, txn, mn, mx, o, tab');
    }
  }

  lemma NoHoleCorrectIff(tab: seq<Slot>, n: nat, txn: seq<Slot>, mn: int, mx: int, o: int, tab': seq<Slot>)
    requires TableOk(tab, n) && Transaction(txn) && Spans(txn, mn, mx) && n + mx + 1 < |tab|
    requires o == |tab| - mx - mn && FirstFit(tab, n, txn, -mn, o, o) && Written(tab, o, txn, tab')
    ensures !HasHole(tab, n, txn, -mn, o)
    ensures Correct(tab, o, txn, tab') <==> Unused(tab, o)
  {
    CorrectPastTheEnd(tab, n, mn, mx, o, txn, tab');
  }

  /** Appending fits when the slots reach far enough. */
  lemma AppendingFits(tab: seq<Slot>, n: nat, txn: seq<Slot>, mn: int, mx: int)
    requires TableOk(tab, n) && Transaction(txn) && Spans(txn, mn, mx) && n + mx < |tab|
    ensures Fits(tab, n, txn, n) && Unused(tab, n)
  {
    assert n > 0 ==> tab[n - 1].lookahead >= 0;
  }

  /** Room for the smallest lookahead past the used slots is enough, and growing always leaves it when mn <= 1. */
  lemma RoomSuffices(tab: seq<Slot>, n: nat, txn: seq<Slot>, mn: int, mx: int, o: int, tab': seq<Slot>)
    requires TableOk(tab, n) && Transaction(txn) && Spans(txn, mn, mx) && n + mx + 1 < |tab|
    requires ChosenOffset(tab, n, txn, mn, mx, o) && Written(tab, o, txn, tab')
    requires mn <= 1 || n + mn + mx <= |tab|
    ensures Correct(tab, o, txn, tab')
  {
    AppendingFits(tab, n, txn, mn, mx);
    InsertCorrectIff(tab, n, txn, mn, mx, o, tab');
  }

  // ----- facts the loops use -----------------------------------------------------

  lemma GrownOk(tab: seq<Slot>, n: nat, mx: nat)
    requires TableOk(tab, n)
    ensures TableOk(Grown(tab, n, mx), n) && n + mx + 1 < |Grown(tab, n, mx)|
  {
  }

  lemma WrittenOk(tab: seq<Slot>, n: nat, txn: seq<Slot>, mn: int, mx: int, o: int, tab': seq<Slot>, n': nat)
    requires TableOk(tab, n) && Transaction(txn) && Spans(txn, mn, mx) && Written(tab, o, txn, tab')
    requires n' == if n > o + mx + 1 then n else o + mx + 1
    ensures TableOk(tab', n')
  {
    hide Written, Transaction, Spans;
    WrittenTop(tab, o, txn, mn, mx, tab');
    forall j | 0 <= j < |tab'|
      ensures tab'[j].lookahead >= 0 || tab'[j] == EMPTY
      ensures j >= n' ==> tab'[j] == EMPTY
      ensures tab'[j] == tab[j] || tab'[j] != EMPTY {
      WrittenSlot(tab, o, txn, tab', j);
      if tab'[j] in txn { InSpan(txn, mn, mx, tab'[j]); }
    }
  }

  lemma InSpan(txn: seq<Slot>, mn: int, mx: int, e: Slot)
    requires Transaction(txn) && Spans(txn, mn, mx) && e in txn
    ensures 0 <= e.lookahead && mn <= e.lookahead <= mx
  {
  }

  lemma WrittenTop(tab: seq<Slot>, o: int, txn: seq<Slot>, mn: int, mx: int, tab': seq<Slot>)
    requires Transaction(txn) && Spans(txn, mn, mx) && Written(tab, o, txn, tab')
    ensures |tab'| == |tab| && 0 <= o + mx < |tab'| && tab'[o + mx].lookahead >= 0
  {
    var e :| e in txn && e.lookahead == mx;
    assert tab'[o + mx] == e;
  }

  /** The entries below slot n that belong to offset o. */
  ghost function AlignedEntries(tab: seq<Slot>, n: nat, o: int): set<Slot>
    requires n <= |tab|
  {
    if n == 0 then {}
    else AlignedEntries(tab, n - 1, o) + if Aligned(tab, n - 1, o) then {tab[n - 1]} else {}
  }

  lemma {:induction false} InAlignedEntries(tab: seq<Slot>, n: nat, o: int)
    requires n <= |tab|
    ensures forall e :: e in AlignedEntries(tab, n, o) <==>
      e.lookahead >= 0 && 0 <= o + e.lookahead < n && tab[o + e.lookahead] == e
  {
    if n > 0 { InAlignedEntries(tab, n - 1, o); }
  }

  ghost function Entries(txn: seq<Slot>): set<Slot> {
    set e | e in txn
  }

  lemma {:induction false} EntriesSize(txn: seq<Slot>)
    requires Transaction(txn)
    ensures |Entries(txn)| == |txn|
  {
    if txn != [] {
      var rest := txn[1..];
      forall e | e in rest ensures e in txn && e.lookahead != txn[0].lookahead { }
      EntriesSize(rest);
      assert Entries(txn) == Entries(rest) + {txn[0]};
    }
  }

  lemma {:induction false} SubsetOfSameSize<T>(a: set<T>, b: set<T>)
    requires a <= b
    ensures |a| == |b| <==> a == b
  {
    if a != b {
      var x :| x in b && x !in a;
      assert a <= b - {x};
      SubsetSize(a, b - {x});
    }
  }

  lemma {:induction false} SubsetSize<T>(a: set<T>, b: set<T>)
    requires a <= b
    ensures |a| <= |b|
  {
    if a != {} {
      var x :| x in a;
      SubsetSize(a - {x}, b - {x});
    }
  }

  /** All pairs of the transaction match below n: it is there exactly iff the aligned slots are as many. */
  lemma CountDecides(tab: seq<Slot>, n: nat, txn: seq<Slot>, o: int)
    requires TableOk(tab, n) && Transaction(txn)
    requires forall e :: e in txn ==> 0 <= o + e.lookahead < n && tab[o + e.lookahead] == e
    ensures Exact(tab, o, txn) <==> |AlignedEntries(tab, n, o)| == |txn|
  {
    InAlignedEntries(tab, n, o);
    EntriesSize(txn);
    SubsetOfSameSize(Entries(txn), AlignedEntries(tab, n, o));
    if Entries(txn) == AlignedEntries(tab, n, o) {
      forall j | 0 <= j < |tab| && Aligned(tab, j, o) ensures tab[j] in txn {
        assert tab[j] in Entries(txn);
      }
    } else {
      var e :| e in AlignedEntries(tab, n, o) && e !in Entries(txn);
      assert Aligned(tab, o + e.lookahead, o);
    }
  }

  // ----- the table under construction -------------------------------------------

  class Acttab {
    var nAction: nat            // the table ends before this slot
    var aAction: array<Slot>    // the table, with the free slots behind it
    var aLookahead: array<Slot> // holds the pairs of the next insertion
    var nLookahead: nat         // how many pairs that are
    var mnLookahead: int        // the smallest and the largest code among them
    var mxLookahead: int
    var mnAction: int           // what the smallest one is paired with

    ghost predicate Valid()
      reads this, aAction, aLookahead
    {
      && aAction != aLookahead
      && nLookahead <= aLookahead.Length && nAction <= aAction.Length
      && TableOk(aAction[..], nAction)
      && Transaction(Txn())
      && (nLookahead > 0 ==> Spans(Txn(), mnLookahead, mxLookahead) && Slot(mnLookahead, mnAction) in Txn())
    }

    ghost function Txn(): seq<Slot>
      reads this, aLookahead
      requires nLookahead <= aLookahead.Length
    {
      aLookahead[..nLookahead]
    }

    constructor ()
      ensures Valid() && nAction == 0 && aAction[..] == [] && Txn() == []
      ensures fresh(aAction) && fresh(aLookahead)
    {
      nAction, nLookahead := 0, 0;
      mnLookahead, mnAction, mxLookahead := 0, 0, 0;
      aAction := new Slot[0];
      aLookahead := new Slot[0];
    }

    /** Make sure there is room for one more pair. */
    method EnsureTxnRoom()
      requires Valid()
      modifies this`aLookahead
      ensures Valid() && nLookahead < aLookahead.Length && Txn() == old(Txn())
      ensures aLookahead == old(aLookahead) || fresh(aLookahead)
    {
      hide TableOk, Transaction, Spans;
      if nLookahead >= aLookahead.Length {
        var bigger := new Slot[aLookahead.Length + 25](_ => EMPTY);
        forall i | 0 <= i < nLookahead { bigger[i] := aLookahead[i]; }
        assert bigger[..nLookahead] == Txn();
        aLookahead := bigger;
        assert aAction[..] == old(aAction[..]);
      }
    }

    /** Add one pair to the current transaction, which must be new to it for the transaction to stay one. */
    method Action(lookahead: nat, action: int)
      requires Valid()
      modifies this, aLookahead
      ensures nLookahead <= aLookahead.Length && Txn() == old(Txn()) + [Slot(lookahead, action)]
      ensures Valid() <==> forall e :: e in old(Txn()) ==> e.lookahead != lookahead
      ensures nAction == old(nAction) && aAction == old(aAction)
      ensures aLookahead == old(aLookahead) || fresh(aLookahead)
    {
      hide TableOk, Transaction, Spans;
      ghost var before, e := Txn(), Slot(lookahead, action);
      TransactionSnoc(before, e);
      SpansSnoc(before, mnLookahead, mxLookahead, e);
      EnsureTxnRoom();
      if nLookahead == 0 {
        mxLookahead := lookahead;
        mnLookahead := lookahead;
        mnAction := action;
      } else {
        if mxLookahead < lookahead { mxLookahead := lookahead; }
        if mnLookahead > lookahead {
          mnLookahead := lookahead;
          mnAction := action;
        }
      }
      aLookahead[nLookahead] := Slot(lookahead, action);
      nLookahead := nLookahead + 1;
      assert Txn() == before + [e];
      assert aAction[..] == old(aAction[..]);
    }

    /** Make sure the transaction can be appended to the table. */
    method EnsureRoom()
      requires Valid() && nLookahead > 0
      modifies this`aAction
      ensures Valid() && aAction[..] == Grown(old(aAction[..]), nAction, mxLookahead)
      ensures aAction == old(aAction) || fresh(aAction)
      ensures nAction + mxLookahead + 1 < aAction.Length
    {
      hide TableOk, Transaction, Spans;
      var n := mxLookahead + 1;
      SpansNat(Txn(), mnLookahead, mxLookahead);
      GrownOk(aAction[..], nAction, mxLookahead);
      if nAction + n >= aAction.Length {
        var alloc := nAction + n + aAction.Length + 20;
        var bigger := new Slot[alloc](_ => EMPTY);
        forall i | 0 <= i < aAction.Length { bigger[i] := aAction[i]; }
        assert bigger[..] == aAction[..] + seq(n + nAction + 20, _ => EMPTY);
        assert bigger[..] == Grown(aAction[..], nAction, mxLookahead);
        aAction := bigger;
        assert Txn() == old(Txn());
        assert aAction[..] == Grown(old(aAction[..]), nAction, mxLookahead);
        assert TableOk(aAction[..], nAction);
      }
    }

    /** The pairs of the transaction all match the table entries around slot i. */
    method MatchesAt(i: nat) returns (b: bool)
      requires Valid() && nLookahead > 0 && i < nAction
      ensures b <==> Exact(aAction[..], i - mnLookahead, Txn())
    {
      hide TableOk, Transaction, Spans, Exact, MatchedTo;
      ghost var o, tab, txn := i - mnLookahead, aAction[..], Txn();
      MatchedNone(tab, nAction, txn, o);
      var j := 0;
      while j < nLookahead
        invariant j <= nLookahead && MatchedTo(tab, nAction, txn, o, j)
      {
        var k := aLookahead[j].lookahead - mnLookahead + i;
        assert txn[j] == aLookahead[j] && k == o + txn[j].lookahead;
        MatchOne(tab, nAction, txn, o, j);
        if k < 0 || k >= nAction { return false; }
        if aLookahead[j].lookahead != aAction[k].lookahead { return false; }
        if aLookahead[j].action != aAction[k].action { return false; }
        j := j + 1;
      }
      MatchedAll(tab, nAction, txn, o);
      b := CountMatches(i);
    }

    /** No other slot may belong to the same offset: count those that do. */
    method CountMatches(i: nat) returns (b: bool)
      requires Valid() && i < nAction
      requires forall e :: e in Txn() ==>
        0 <= i - mnLookahead + e.lookahead < nAction && aAction[i - mnLookahead + e.lookahead] == e
      ensures b <==> Exact(aAction[..], i - mnLookahead, Txn())
    {
      hide TableOk, Transaction, Spans, Exact, AlignedEntries;
      ghost var o, tab := i - mnLookahead, aAction[..];
      var n, j := 0, 0;
      AlignedEntriesStart(tab, o);
      while j < nAction
        invariant j <= nAction && n == |AlignedEntries(tab, j, o)|
      {
        AlignedEntriesStep(tab, j, o);
        if aAction[j].lookahead >= 0 && aAction[j].lookahead == j + mnLookahead - i {
          n := n + 1;
        }
        j := j + 1;
      }
      CountDecides(tab, nAction, Txn(), o);
      b := n == nLookahead;
    }

    /** The highest slot at which the transaction already is in the table, or -1. */
    method FindDuplicate() returns (i: int)
      requires Valid() && nLookahead > 0
      ensures -1 <= i < nAction
      ensures i >= 0 ==> Exact(aAction[..], i - mnLookahead, Txn())
      ensures forall p: int :: Exact(aAction[..], p, Txn()) ==> p <= i - mnLookahead
      ensures i < 0 ==> !Duplicate(aAction[..], Txn())
    {
      hide TableOk, Transaction, Spans, Exact;
      ghost var tab, txn := aAction[..], Txn();
      forall p: int | Exact(tab, p, txn)
        ensures 0 <= p + mnLookahead < nAction && tab[p + mnLookahead] == Slot(mnLookahead, mnAction) {
        DuplicateRange(tab, nAction, txn, p, Slot(mnLookahead, mnAction));
      }
      i := nAction - 1;
      while i >= 0
        invariant -1 <= i < nAction
        invariant forall p: int :: Exact(tab, p, txn) ==> p <= i - mnLookahead
      {
        if aAction[i].lookahead == mnLookahead && aAction[i].action == mnAction {
          var b := MatchesAt(i);
          if b { break; }
        }
        i := i - 1;
      }
    }

    /** The transaction can go to slot i without touching a used slot or a used offset. */
    method HoleAt(i: nat) returns (b: bool)
      requires Valid() && nLookahead > 0 && i < aAction.Length - mxLookahead
      ensures b <==> Fits(aAction[..], nAction, Txn(), i - mnLookahead)
    {
      hide TableOk, Transaction, Spans, FreeTo, Fits;
      ghost var o, tab, txn := i - mnLookahead, aAction[..], Txn();
      SpansNat(txn, mnLookahead, mxLookahead);
      FreeNone(tab, txn, o);
      var j := 0;
      while j < nLookahead
        invariant j <= nLookahead && FreeTo(tab, txn, o, j)
      {
        assert txn[j] == aLookahead[j] && txn[j] in txn;
        InSpanBelow(txn, mnLookahead, mxLookahead, txn[j]);
        FreeOne(tab, nAction, txn, o, j);
        var k := aLookahead[j].lookahead - mnLookahead + i;
        if k < 0 { return false; }
        if aAction[k].lookahead >= 0 { return false; }
        j := j + 1;
      }
      FreeAll(tab, nAction, txn, o);
      j := 0;
      while j < nAction
        invariant j <= nAction
        invariant forall l :: 0 <= l < j ==> tab[l].lookahead != l - o
      {
        if aAction[j].lookahead == j + mnLookahead - i { return false; }
        j := j + 1;
      }
      return true;
    }

    /** The first slot where the transaction fits; past the search range when there is none. */
    method FindHole() returns (i: nat)
      requires Valid() && nLookahead > 0 && nAction + mxLookahead + 1 < aAction.Length
      ensures i <= aAction.Length - mxLookahead
      ensures FirstFit(aAction[..], nAction, Txn(), -mnLookahead, aAction.Length - mxLookahead - mnLookahead,
                       i - mnLookahead)
    {
      hide TableOk, Transaction, Spans, Fits;
      ghost var tab, txn := aAction[..], Txn();
      SpansNat(txn, mnLookahead, mxLookahead);
      i := 0;
      while i < aAction.Length - mxLookahead
        invariant i <= aAction.Length - mxLookahead
        invariant forall p :: -mnLookahead <= p < i - mnLookahead ==> !Fits(tab, nAction, txn, p)
      {
        if aAction[i].lookahead < 0 {
          var b := HoleAt(i);
          if b { break; }
        } else {
          UsedSlotUnfit(tab, nAction, txn, i, Slot(mnLookahead, mnAction));
        }
        i := i + 1;
      }
    }

    /** Copy the pairs of the transaction to their slots. */
    method WriteSlots(i: int, ghost txn: seq<Slot>)
      requires aAction != aLookahead && nLookahead <= aLookahead.Length && txn == Txn()
      requires nAction <= aAction.Length && Transaction(txn)
      requires forall e :: e in txn ==>
        0 <= i - mnLookahead + e.lookahead < aAction.Length && e.lookahead <= mxLookahead
      modifies this`nAction, aAction
      ensures Written(old(aAction[..]), i - mnLookahead, txn, aAction[..])
      ensures old(nAction) <= nAction <= aAction.Length
      ensures nAction == old(nAction) || nAction <= i - mnLookahead + mxLookahead + 1
      ensures forall e :: e in txn ==> i - mnLookahead + e.lookahead < nAction
    {
      hide Transaction, WrittenPrefix, Written;
      ghost var o, tab, n := i - mnLookahead, aAction[..], nAction;
      WrittenStart(tab, o, txn);
      var j := 0;
      while j < nLookahead
        invariant j <= nLookahead && nAction <= aAction.Length && aLookahead[..nLookahead] == txn
        invariant WrittenPrefix(tab, o, txn, j, aAction[..])
        invariant n <= nAction && (nAction == n || nAction <= o + mxLookahead + 1)
        invariant forall k :: 0 <= k < j ==> o + txn[k].lookahead < nAction
      {
        assert txn[j] in txn && aLookahead[j] == txn[j];
        var k := aLookahead[j].lookahead - mnLookahead + i;
        WrittenStep(tab, o, txn, j, aAction[..]);
        aAction[k] := aLookahead[j];
        if k >= nAction { nAction := k + 1; }
        j := j + 1;
      }
      WrittenEnd(tab, o, txn, aAction[..]);
    }

    /** Write the transaction at slot i and start a new one. */
    method Store(i: int)
      requires Valid() && nLookahead > 0
      requires forall e :: e in Txn() ==> 0 <= i - mnLookahead + e.lookahead < aAction.Length
      modifies this`nAction, this`nLookahead, aAction
      ensures Valid() && nLookahead == 0
      ensures Written(old(aAction[..]), i - mnLookahead, old(Txn()), aAction[..])
    {
      hide TableOk, Written;
      ghost var o, tab, txn, n := i - mnLookahead, aAction[..], Txn(), nAction;
      WriteSlots(i, txn);
      WrittenOk(tab, n, txn, mnLookahead, mxLookahead, o, aAction[..], nAction);
      nLookahead := 0;
    }

    /** Place the current transaction in the table and return its offset. */
    method Insert() returns (offset: int)
      requires Valid() && nLookahead > 0
      modifies this, aAction
      ensures Valid() && nLookahead == 0
      ensures aLookahead == old(aLookahead) && (aAction == old(aAction) || fresh(aAction))
      ensures var grown := Grown(old(aAction[..]), old(nAction), old(mxLookahead));
        && ChosenOffset(grown, old(nAction), old(Txn()), old(mnLookahead), old(mxLookahead), offset)
        && Written(grown, offset, old(Txn()), aAction[..])
    {
      hide TableOk, Transaction, Spans, Exact, FirstFit, Written, Grown;
      EnsureRoom();
      ghost var tab, txn := aAction[..], Txn();
      var i := FindDuplicate();
      if i < 0 {
        i := FindHole();
        HoleInRange(tab, nAction, txn, mnLookahead, mxLookahead, i - mnLookahead);
      } else {
        ExactInRange(tab, txn, i - mnLookahead);
      }
      Store(i);
      offset := i - mnLookahead;
    }
  }

  /** The first j pairs are in the table. */
  ghost predicate MatchedTo(tab: seq<Slot>, n: nat, txn: seq<Slot>, o: int, j: nat) {
    && j <= |txn| && n <= |tab|
    && forall k :: 0 <= k < j ==> 0 <= o + txn[k].lookahead < n && tab[o + txn[k].lookahead] == txn[k]
  }

  lemma MatchedNone(tab: seq<Slot>, n: nat, txn: seq<Slot>, o: int)
    requires n <= |tab|
    ensures MatchedTo(tab, n, txn, o, 0)
  {
  }

  lemma MatchOne(tab: seq<Slot>, n: nat, txn: seq<Slot>, o: int, j: nat)
    requires TableOk(tab, n) && Transaction(txn) && MatchedTo(tab, n, txn, o, j) && j < |txn|
    ensures var k := o + txn[j].lookahead;
            if 0 <= k < n && tab[k] == txn[j] then MatchedTo(tab, n, txn, o, j + 1) else !Exact(tab, o, txn)
  {
    hide Transaction, Exact;
    assert txn[j] in txn;
    if Exact(tab, o, txn) { DuplicateRange(tab, n, txn, o, txn[j]); }
  }

  lemma MatchedAll(tab: seq<Slot>, n: nat, txn: seq<Slot>, o: int)
    requires MatchedTo(tab, n, txn, o, |txn|)
    ensures n <= |tab| && forall e :: e in txn ==> 0 <= o + e.lookahead < n && tab[o + e.lookahead] == e
  {
  }

  /** The slots of the first j pairs are unused. */
  ghost predicate FreeTo(tab: seq<Slot>, txn: seq<Slot>, o: int, j: nat) {
    && j <= |txn|
    && forall k :: 0 <= k < j ==> 0 <= o + txn[k].lookahead < |tab| && tab[o + txn[k].lookahead].lookahead < 0
  }

  lemma FreeNone(tab: seq<Slot>, txn: seq<Slot>, o: int)
    ensures FreeTo(tab, txn, o, 0)
  {
  }

  lemma FreeOne(tab: seq<Slot>, n: nat, txn: seq<Slot>, o: int, j: nat)
    requires n <= |tab| && FreeTo(tab, txn, o, j) && j < |txn| && o + txn[j].lookahead < |tab|
    ensures var k := o + txn[j].lookahead;
            if 0 <= k && tab[k].lookahead < 0 then FreeTo(tab, txn, o, j + 1) else !Fits(tab, n, txn, o)
  {
    assert txn[j] in txn;
  }

  lemma FreeAll(tab: seq<Slot>, n: nat, txn: seq<Slot>, o: int)
    requires n <= |tab| && FreeTo(tab, txn, o, |txn|)
    ensures Fits(tab, n, txn, o) <==> !Blocked(tab, n, o)
  {
  }

  lemma InSpanBelow(txn: seq<Slot>, mn: int, mx: int, e: Slot)
    requires Spans(txn, mn, mx) && e in txn
    ensures mn <= e.lookahead <= mx
  {
  }

  lemma ExactInRange(tab: seq<Slot>, txn: seq<Slot>, o: int)
    requires Exact(tab, o, txn)
    ensures forall e :: e in txn ==> 0 <= o + e.lookahead < |tab|
  {
  }

  /** Even an untested slot at the end of the search range keeps the transaction inside the table. */
  lemma HoleInRange(tab: seq<Slot>, n: nat, txn: seq<Slot>, mn: int, mx: int, o: int)
    requires TableOk(tab, n) && Transaction(txn) && Spans(txn, mn, mx) && n + mx + 1 < |tab|
    requires FirstFit(tab, n, txn, -mn, |tab| - mx - mn, o)
    ensures forall e :: e in txn ==> 0 <= o + e.lookahead < |tab|
  {
    if mn == 0 {
      AppendingFits(tab, n, txn, mn, mx);
    }
  }

  /** The first j pairs have been written. */
  ghost predicate WrittenPrefix(tab: seq<Slot>, o: int, txn: seq<Slot>, j: nat, cur: seq<Slot>)
    requires j <= |txn|
  {
    && |cur| == |tab|
    && (forall k :: 0 <= k < j ==> 0 <= o + txn[k].lookahead < |tab| && cur[o + txn[k].lookahead] == txn[k])
    && (forall k :: 0 <= k < |tab| ==> cur[k] == tab[k] || (cur[k] in txn && cur[k].lookahead == k - o))
  }

  lemma WrittenStart(tab: seq<Slot>, o: int, txn: seq<Slot>)
    ensures WrittenPrefix(tab, o, txn, 0, tab)
  {
  }

  lemma WrittenStep(tab: seq<Slot>, o: int, txn: seq<Slot>, j: nat, cur: seq<Slot>)
    requires Transaction(txn) && j < |txn| && WrittenPrefix(tab, o, txn, j, cur)
    requires 0 <= o + txn[j].lookahead < |tab|
    ensures o + txn[j].lookahead < |cur|
    ensures WrittenPrefix(tab, o, txn, j + 1, cur[o + txn[j].lookahead := txn[j]])
  {
  }

  lemma WrittenEnd(tab: seq<Slot>, o: int, txn: seq<Slot>, cur: seq<Slot>)
    requires WrittenPrefix(tab, o, txn, |txn|, cur)
    ensures Written(tab, o, txn, cur)
  {
    AllWritten(tab, o, txn, cur);
  }

  lemma AllWritten(tab: seq<Slot>, o: int, txn: seq<Slot>, cur: seq<Slot>)
    requires |cur| == |tab|
    requires forall k :: 0 <= k < |txn| ==> 0 <= o + txn[k].lookahead < |tab| && cur[o + txn[k].lookahead] == txn[k]
    ensures forall e :: e in txn ==> 0 <= o + e.lookahead < |tab| && cur[o + e.lookahead] == e
  {
    forall e | e in txn ensures 0 <= o + e.lookahead < |tab| && cur[o + e.lookahead] == e {
      var k :| 0 <= k < |txn| && txn[k] == e;
    }
  }

  lemma DuplicateRange(tab: seq<Slot>, n: nat, txn: seq<Slot>, o: int, e: Slot)
    requires TableOk(tab, n) && Transaction(txn) && Exact(tab, o, txn) && e in txn
    ensures 0 <= o + e.lookahead < n && tab[o + e.lookahead] == e
  {
  }

  lemma UsedSlotUnfit(tab: seq<Slot>, n: nat, txn: seq<Slot>, i: nat, e: Slot)
    requires n <= |tab| && i < |tab| && tab[i].lookahead >= 0 && e in txn
    ensures !Fits(tab, n, txn, i - e.lookahead)
  {
  }

  lemma AlignedEntriesStart(tab: seq<Slot>, o: int)
    ensures |AlignedEntries(tab, 0, o)| == 0
  {
  }

  lemma AlignedEntriesStep(tab: seq<Slot>, n: nat, o: int)
    requires n < |tab|
    ensures |AlignedEntries(tab, n + 1, o)| == |AlignedEntries(tab, n, o)| + if Aligned(tab, n, o) then 1 else 0
  {
    InAlignedEntries(tab, n, o);
  }

  lemma TransactionSnoc(txn: seq<Slot>, e: Slot)
    requires Transaction(txn) && e.lookahead >= 0
    ensures Transaction(txn + [e]) <==> forall d :: d in txn ==> d.lookahead != e.lookahead
  {
    if Transaction(txn + [e]) {
      forall d | d in txn ensures d.lookahead != e.lookahead {
        var i :| 0 <= i < |txn| && txn[i] == d;
        assert (txn + [e])[i] == d && (txn + [e])[|txn|] == e;
      }
    }
  }

  lemma SpansNat(txn: seq<Slot>, mn: int, mx: int)
    requires Transaction(txn) && Spans(txn, mn, mx)
    ensures 0 <= mn <= mx
  {
  }

  lemma SpansSnoc(txn: seq<Slot>, mn: int, mx: int, e: Slot)
    requires txn == [] || Spans(txn, mn, mx)
    ensures txn == [] ==> Spans(txn + [e], e.lookahead, e.lookahead)
    ensures txn != [] ==> Spans(txn + [e], if e.lookahead < mn then e.lookahead else mn,
                                           if mx < e.lookahead then e.lookahead else mx)
    ensures forall d :: d in txn + [e] <==> d in txn || d == e
  {
    assert e in txn + [e];
    if txn != [] {
      var d :| d in txn && d.lookahead == mn;
      var f :| f in txn && f.lookahead == mx;
      assert d in txn + [e] && f in txn + [e];
    }
  }
}
