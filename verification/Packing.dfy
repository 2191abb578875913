/**
  The first half of ReportTable: packing the action sets of all states into one
  table, the largest first.

  Each insertion is logged with the table it met.  All lookups find what the action sets
  have if and only if every insertion was a fitting one, that is, it found a duplicate, a
  hole, or an offset past the end that no set of its own kind, token or nonterminal, uses.
*/
module Packing {
  import opened Grammars
  import opened Automata
  import opened Actions
  import opened ActTab
  import opened Resort
  import opened Lists
  import opened Stdlib
  import MSort

  // ----- the action set of a state -------------------------------------------------------------

  /** The pairs that a state puts into the table for symbols from lo up to hi. */
  function Slots(c: Coding, ap: seq<Action>, lo: nat, hi: nat): seq<Slot> {
    if ap == [] then []
    else
      var last := ap[|ap| - 1];
      Slots(c, ap[..|ap| - 1], lo, hi) +
      if Generated(c, last, lo, hi) then [Slot(last.sp, ComputeAction(c, last))] else []
  }

  lemma {:induction false} SlotsHold(c: Coding, ap: seq<Action>, lo: nat, hi: nat)
    ensures |Slots(c, ap, lo, hi)| == CountGenerated(c, ap, lo, hi)
    ensures forall e :: e in Slots(c, ap, lo, hi) <==>
              exists act :: act in ap && Generated(c, act, lo, hi) && e == Slot(act.sp, ComputeAction(c, act))
  {
    if ap != [] {
      var front, last := ap[..|ap| - 1], ap[|ap| - 1];
      SlotsHold(c, front, lo, hi);
      assert ap == front + [last];
      forall e ensures e in Slots(c, ap, lo, hi) <==>
              exists act :: act in ap && Generated(c, act, lo, hi) && e == Slot(act.sp, ComputeAction(c, act)) {
        if act :| act in front && Generated(c, act, lo, hi) && e == Slot(act.sp, ComputeAction(c, act)) {
          assert act in ap;
        }
      }
    }
  }

  lemma GeneratedIsActive(c: Coding, act: Action)
    ensures ComputeAction(c, act) >= 0 ==> Active(act.kind)
    ensures Active(act.kind) && (act.kind == SHIFT ==> act.arg < |c.statenum|) ==> ComputeAction(c, act) >= 0
  {
  }

  /** The pair of action k is new to the transaction of the actions before it. */
  lemma SlotIsNew(c: Coding, ap: seq<Action>, lo: nat, hi: nat, k: nat)
    requires OneActive(ap) && k < |ap| && Generated(c, ap[k], lo, hi)
    ensures forall e :: e in Slots(c, ap[..k], lo, hi) ==> e.lookahead != ap[k].sp
  {
    SlotsHold(c, ap[..k], lo, hi);
    GeneratedIsActive(c, ap[k]);
    forall e | e in Slots(c, ap[..k], lo, hi) ensures e.lookahead != ap[k].sp {
      var act :| act in ap[..k] && Generated(c, act, lo, hi) && e == Slot(act.sp, ComputeAction(c, act));
      var j :| 0 <= j < k && ap[j] == act;
      GeneratedIsActive(c, ap[j]);
    }
  }

  /** Collect the action set of one state as the current transaction. */
  method Collect(tab: Acttab, c: Coding, ap: seq<Action>, lo: nat, hi: nat)
    requires tab.Valid() && tab.nLookahead == 0 && OneActive(ap)
    modifies tab, tab.aLookahead
    ensures tab.Valid() && tab.Txn() == Slots(c, ap, lo, hi)
    ensures tab.nAction == old(tab.nAction) && tab.aAction == old(tab.aAction)
    ensures tab.aAction[..] == old(tab.aAction[..])
    ensures tab.aLookahead == old(tab.aLookahead) || fresh(tab.aLookahead)
  {
    hide OneActive, TableOk, Transaction, Spans, Generated;
    for k := 0 to |ap|
      invariant tab.Valid() && tab.Txn() == Slots(c, ap[..k], lo, hi)
      invariant tab.nAction == old(tab.nAction) && tab.aAction == old(tab.aAction)
      invariant tab.aAction[..] == old(tab.aAction[..])
      invariant tab.aLookahead == old(tab.aLookahead) || fresh(tab.aLookahead)
    {
      assert ap[..k + 1][..k] == ap[..k];
      var action := ComputeAction(c, ap[k]);
      assert Generated(c, ap[k], lo, hi) <==> lo <= ap[k].sp < hi && action >= 0 by {
        GeneratedMeans(c, ap[k], lo, hi);
      }
      if !(lo <= ap[k].sp < hi) { continue; }
      if action < 0 { continue; }
      SlotIsNew(c, ap, lo, hi, k);
      tab.Action(ap[k].sp, action);
    }
    assert ap[..|ap|] == ap;
  }

  lemma GeneratedMeans(c: Coding, act: Action, lo: nat, hi: nat)
    ensures Generated(c, act, lo, hi) <==> lo <= act.sp < hi && ComputeAction(c, act) >= 0
  {
  }

  // ----- the log of insertions -------------------------------------------------------------------

  /**
    An insertion: the table it met, grown, with its n used slots; whether the transaction
    is on tokens; the transaction with its span; the offset chosen; and the table it left.
  */
  datatype Insertion = Insertion(tab: seq<Slot>, n: nat, isTkn: bool, txn: seq<Slot>, mn: int, mx: int, offset: int,
                                 after: seq<Slot>)

  /** The code is of the kind: a token, or else a nonterminal. */
  predicate OfKind(nt: nat, isTkn: bool, x: int) {
    isTkn <==> x < nt
  }

  /** Looking up the code of e at the offset finds e. */
  ghost predicate Finds(tab: seq<Slot>, o: int, e: Slot) {
    e.lookahead >= 0 && 0 <= o + e.lookahead < |tab| && tab[o + e.lookahead] == e
  }

  /** Every lookup of a code of the kind finds what the transaction has for the code, or nothing. */
  ghost predicate Reads(nt: nat, isTkn: bool, tab: seq<Slot>, o: int, txn: seq<Slot>) {
    forall e: Slot {:trigger Finds(tab, o, e)} :: OfKind(nt, isTkn, e.lookahead) ==> (Finds(tab, o, e) <==> e in txn)
  }

  /** Some lookup of a code of the kind finds something at the offset. */
  ghost predicate UsedBy(nt: nat, isTkn: bool, tab: seq<Slot>, o: int) {
    exists e: Slot :: Finds(tab, o, e) && OfKind(nt, isTkn, e.lookahead)
  }

  /**
    What can be said of an insertion before it is made: it finds its duplicate or a hole,
    or the offset behind the search range is not in use by a set of the same kind.
  */
  ghost predicate Fitting(nt: nat, ins: Insertion) {
    && ins.n <= |ins.tab|
    && (|| Duplicate(ins.tab, ins.txn)
        || HasHole(ins.tab, ins.n, ins.txn, -ins.mn, |ins.tab| - ins.mx - ins.mn)
        || !UsedBy(nt, ins.isTkn, ins.tab, |ins.tab| - ins.mx - ins.mn))
  }

  /** The insertion is one that the table makes. */
  ghost predicate Made(ins: Insertion) {
    && TableOk(ins.tab, ins.n) && Transaction(ins.txn) && Spans(ins.txn, ins.mn, ins.mx)
    && ins.n + ins.mx + 1 < |ins.tab|
    && ChosenOffset(ins.tab, ins.n, ins.txn, ins.mn, ins.mx, ins.offset)
    && Written(ins.tab, ins.offset, ins.txn, ins.after)
  }

  /** The table that insertion k of the log finds, before it is grown. */
  function Before(log: seq<Insertion>, k: nat): seq<Slot>
    requires k <= |log|
  {
    if k == 0 then [] else log[k - 1].after
  }

  /** Insertion k is one that the table makes, into what the insertion before it left. */
  ghost predicate Link(log: seq<Insertion>, k: nat)
    requires k < |log|
  {
    && Made(log[k]) && log[k].txn != [] && log[k].mx >= 0
    && log[k].tab == Grown(Before(log, k), log[k].n, log[k].mx)
  }

  /** From the empty table the insertions lead, one after the other, to `tab`. */
  ghost predicate Chained(log: seq<Insertion>, tab: seq<Slot>) {
    tab == Before(log, |log|) && forall k :: 0 <= k < |log| ==> Link(log, k)
  }

  lemma ChainInsert(log: seq<Insertion>, tab: seq<Slot>, ins: Insertion)
    requires Chained(log, tab) && Made(ins) && ins.txn != [] && ins.mx >= 0 && ins.tab == Grown(tab, ins.n, ins.mx)
    ensures Chained(log + [ins], ins.after)
  {
    hide Made, Grown;
    var log' := log + [ins];
    forall k | 0 <= k < |log'| ensures Link(log', k) {
      assert Before(log', k) == Before(log, k);
      if k < |log| { assert Link(log, k); }
    }
  }

  lemma ChainPrefix(log: seq<Insertion>, tab: seq<Slot>)
    requires Chained(log, tab) && log != []
    ensures Chained(log[..|log| - 1], Before(log, |log| - 1))
  {
    hide Made, Grown;
    var front := log[..|log| - 1];
    forall k | 0 <= k < |front| ensures Link(front, k) {
      assert Link(log, k) && Before(front, k) == Before(log, k);
    }
  }

  // ----- one insertion ---------------------------------------------------------------------------

  /** Some lookup of the kind finds an entry that does not belong there. */
  ghost predicate Foreign(nt: nat, isTkn: bool, tab: seq<Slot>, o: int, txn: seq<Slot>) {
    exists e: Slot :: Finds(tab, o, e) && OfKind(nt, isTkn, e.lookahead) && e !in txn
  }

  /** Used slots are never changed. */
  ghost predicate Stays(tab: seq<Slot>, tab': seq<Slot>) {
    |tab| <= |tab'| && forall j :: 0 <= j < |tab| && tab[j].lookahead >= 0 ==> tab'[j] == tab[j]
  }

  lemma FindsStays(tab: seq<Slot>, tab': seq<Slot>, o: int, e: Slot)
    requires Stays(tab, tab') && Finds(tab, o, e)
    ensures Finds(tab', o, e)
  {
  }

  lemma ForeignStays(nt: nat, isTkn: bool, tab: seq<Slot>, tab': seq<Slot>, o: int, txn: seq<Slot>)
    requires Stays(tab, tab') && Foreign(nt, isTkn, tab, o, txn)
    ensures Foreign(nt, isTkn, tab', o, txn)
  {
    hide Stays, Finds;
    var e: Slot :| Finds(tab, o, e) && OfKind(nt, isTkn, e.lookahead) && e !in txn;
    FindsStays(tab, tab', o, e);
  }

  lemma ForeignIsNotRead(nt: nat, isTkn: bool, tab: seq<Slot>, o: int, txn: seq<Slot>)
    requires Foreign(nt, isTkn, tab, o, txn)
    ensures !Reads(nt, isTkn, tab, o, txn)
  {
  }

  lemma InsertionStays(ins: Insertion)
    requires Made(ins)
    ensures Stays(ins.tab, ins.after)
  {
    hide Duplicate;
    if Duplicate(ins.tab, ins.txn) {
      ExactRewrite(ins.tab, ins.offset, ins.txn, ins.after);
    } else if ins.offset < |ins.tab| - ins.mx - ins.mn {
      assert Fits(ins.tab, ins.n, ins.txn, ins.offset);
    }
  }

  /** The transaction's slots are free. */
  ghost predicate Free(tab: seq<Slot>, o: int, txn: seq<Slot>) {
    forall e :: e in txn ==> 0 <= o + e.lookahead < |tab| && tab[o + e.lookahead].lookahead < 0
  }

  /** A new transaction goes to free slots; if it found a hole, nothing at all is at its offset. */
  lemma NewIsFree(ins: Insertion)
    requires Made(ins) && !Duplicate(ins.tab, ins.txn)
    ensures Free(ins.tab, ins.offset, ins.txn)
    ensures ins.offset < |ins.tab| - ins.mx - ins.mn ==>
              && Unused(ins.tab, ins.offset)
              && HasHole(ins.tab, ins.n, ins.txn, -ins.mn, |ins.tab| - ins.mx - ins.mn)
    ensures ins.offset >= |ins.tab| - ins.mx - ins.mn ==>
              && ins.offset == |ins.tab| - ins.mx - ins.mn
              && !HasHole(ins.tab, ins.n, ins.txn, -ins.mn, ins.offset)
  {
    if ins.offset < |ins.tab| - ins.mx - ins.mn {
      FitsIsPlaceable(ins.tab, ins.n, ins.txn, ins.offset);
    } else {
      HoleInRange(ins.tab, ins.n, ins.txn, ins.mn, ins.mx, ins.offset);
    }
  }

  lemma UnusedIsUnusedBy(nt: nat, isTkn: bool, tab: seq<Slot>, o: int)
    requires Unused(tab, o)
    ensures !UsedBy(nt, isTkn, tab, o)
  {
    forall e: Slot ensures !Finds(tab, o, e) {
      if Finds(tab, o, e) { assert Aligned(tab, o + e.lookahead, o); }
    }
  }

  /** All codes of the transaction are of the kind. */
  ghost predicate Kindred(nt: nat, isTkn: bool, txn: seq<Slot>) {
    forall e :: e in txn ==> OfKind(nt, isTkn, e.lookahead)
  }

  lemma ExactIsRead(nt: nat, isTkn: bool, tab: seq<Slot>, o: int, txn: seq<Slot>)
    requires Transaction(txn) && Exact(tab, o, txn)
    ensures Reads(nt, isTkn, tab, o, txn)
  {
    forall e: Slot {:trigger Finds(tab, o, e)} | OfKind(nt, isTkn, e.lookahead) ensures Finds(tab, o, e) <==> e in txn {
      if Finds(tab, o, e) { assert Aligned(tab, o + e.lookahead, o); }
    }
  }

  /** What is found after writing was there before or is of the transaction. */
  lemma FoundAfter(tab: seq<Slot>, o: int, txn: seq<Slot>, tab': seq<Slot>, p: int, e: Slot)
    requires Transaction(txn) && Free(tab, o, txn) && Written(tab, o, txn, tab')
    ensures Finds(tab', p, e) <==> Finds(tab, p, e) || (p == o && e in txn)
  {
    if Finds(tab', p, e) && !Finds(tab, p, e) { WrittenSlot(tab, o, txn, tab', p + e.lookahead); }
    if Finds(tab, p, e) { WrittenSlot(tab, o, txn, tab', p + e.lookahead); }
  }

  /** Writing to free slots at an offset that the kind does not use serves the new transaction and all others. */
  lemma PlacedReads(nt: nat, isTkn: bool, tab: seq<Slot>, o: int, txn: seq<Slot>, tab': seq<Slot>)
    requires Transaction(txn) && Kindred(nt, isTkn, txn) && Free(tab, o, txn) && Written(tab, o, txn, tab')
    requires !UsedBy(nt, isTkn, tab, o)
    ensures Reads(nt, isTkn, tab', o, txn)
  {
    hide Transaction, Free, Written, Finds;
    forall e: Slot {:trigger Finds(tab', o, e)} | OfKind(nt, isTkn, e.lookahead)
      ensures Finds(tab', o, e) <==> e in txn {
      FoundAfter(tab, o, txn, tab', o, e);
    }
  }

  lemma PlacedKeeps(nt: nat, isTkn: bool, tab: seq<Slot>, o: int, txn: seq<Slot>, tab': seq<Slot>,
                    other: bool, p: int, t: seq<Slot>)
    requires Transaction(txn) && Kindred(nt, isTkn, txn) && Free(tab, o, txn) && Written(tab, o, txn, tab')
    requires !UsedBy(nt, isTkn, tab, o)
    requires t != [] && Kindred(nt, other, t) && Reads(nt, other, tab, p, t)
    ensures Reads(nt, other, tab', p, t)
  {
    hide Transaction, Free, Written, Finds;
    assert t[0] in t && Finds(tab, p, t[0]);
    forall e: Slot {:trigger Finds(tab', p, e)} | OfKind(nt, other, e.lookahead)
      ensures Finds(tab', p, e) <==> e in t {
      FoundAfter(tab, o, txn, tab', p, e);
    }
  }

  /** A fitting insertion can be read, and all that could be read before still can. */
  lemma FittingReads(nt: nat, ins: Insertion)
    requires Made(ins) && Kindred(nt, ins.isTkn, ins.txn) && Fitting(nt, ins)
    ensures Reads(nt, ins.isTkn, ins.after, ins.offset, ins.txn)
  {
    hide Exact, HasHole, UsedBy, Reads, Kindred, Free;
    if Duplicate(ins.tab, ins.txn) {
      ExactRewrite(ins.tab, ins.offset, ins.txn, ins.after);
      ExactIsRead(nt, ins.isTkn, ins.tab, ins.offset, ins.txn);
    } else {
      FittingIsUnused(nt, ins);
      PlacedReads(nt, ins.isTkn, ins.tab, ins.offset, ins.txn, ins.after);
    }
  }

  lemma FittingIsUnused(nt: nat, ins: Insertion)
    requires Made(ins) && !Duplicate(ins.tab, ins.txn) && Fitting(nt, ins)
    ensures Free(ins.tab, ins.offset, ins.txn) && !UsedBy(nt, ins.isTkn, ins.tab, ins.offset)
  {
    hide Exact, Made, HasHole, UsedBy, Free;
    NewIsFree(ins);
    if ins.offset < |ins.tab| - ins.mx - ins.mn { UnusedIsUnusedBy(nt, ins.isTkn, ins.tab, ins.offset); }
  }

  lemma FittingKeeps(nt: nat, ins: Insertion, other: bool, p: int, t: seq<Slot>)
    requires Made(ins) && Kindred(nt, ins.isTkn, ins.txn) && Fitting(nt, ins)
    requires t != [] && Kindred(nt, other, t) && Reads(nt, other, ins.tab, p, t)
    ensures Reads(nt, other, ins.after, p, t)
  {
    hide Exact, HasHole, UsedBy, Reads, Kindred, Free;
    if Duplicate(ins.tab, ins.txn) {
      ExactRewrite(ins.tab, ins.offset, ins.txn, ins.after);
    } else {
      FittingIsUnused(nt, ins);
      PlacedKeeps(nt, ins.isTkn, ins.tab, ins.offset, ins.txn, ins.after, other, p, t);
    }
  }

  /** An insertion that does not fit meets a foreign entry of its kind. */
  lemma UnfittingIsForeign(nt: nat, ins: Insertion)
    requires Made(ins) && !Fitting(nt, ins)
    ensures Foreign(nt, ins.isTkn, ins.after, ins.offset, ins.txn)
  {
    hide HasHole, Finds, Duplicate, Free;
    var last := |ins.tab| - ins.mx - ins.mn;
    assert ins.offset == last by { UnfittingIsLast(nt, ins); }
    var e: Slot :| Finds(ins.tab, last, e) && OfKind(nt, ins.isTkn, e.lookahead);
    InsertionStays(ins);
    FindsStays(ins.tab, ins.after, last, e);
    assert e !in ins.txn by { UsedIsForeign(ins, e); }
  }

  lemma UnfittingIsLast(nt: nat, ins: Insertion)
    requires Made(ins) && !Fitting(nt, ins)
    ensures ins.offset == |ins.tab| - ins.mx - ins.mn
  {
    hide Exact, UsedBy, Free, HasHole;
    NewIsFree(ins);
  }

  /** At the offset past the end only empty slots are written. */
  lemma UsedIsForeign(ins: Insertion, e: Slot)
    requires TableOk(ins.tab, ins.n) && Transaction(ins.txn) && Spans(ins.txn, ins.mn, ins.mx)
    requires ins.n + ins.mx + 1 < |ins.tab| && ins.offset == |ins.tab| - ins.mx - ins.mn
    requires Finds(ins.tab, ins.offset, e)
    ensures e !in ins.txn
  {
    assert ins.offset + e.lookahead < ins.n;
  }

  /** Room for the smallest lookahead behind the used slots. */
  predicate Roomy(ins: Insertion) {
    ins.mn <= 1 || ins.n + ins.mn + ins.mx <= |ins.tab|
  }

  lemma RoomyFits(nt: nat, ins: Insertion)
    requires Made(ins) && Roomy(ins)
    ensures Fitting(nt, ins)
  {
    hide Exact, HasHole, Duplicate, Unused, ChosenOffset, Written, Transaction, Spans, KeepsOthers, UsedBy;
    RoomSuffices(ins.tab, ins.n, ins.txn, ins.mn, ins.mx, ins.offset, ins.after);
    InsertCorrectIff(ins.tab, ins.n, ins.txn, ins.mn, ins.mx, ins.offset, ins.after);
    if Unused(ins.tab, |ins.tab| - ins.mx - ins.mn) {
      UnusedIsUnusedBy(nt, ins.isTkn, ins.tab, |ins.tab| - ins.mx - ins.mn);
    }
  }

  lemma GrownStays(tab: seq<Slot>, n: nat, mx: nat)
    ensures Stays(tab, Grown(tab, n, mx))
  {
  }

  lemma GrownFinds(tab: seq<Slot>, n: nat, mx: nat, o: int, e: Slot)
    ensures Finds(Grown(tab, n, mx), o, e) <==> Finds(tab, o, e)
  {
  }

  // ----- all insertions ------------------------------------------------------------------------------

  /** While every insertion has been fitting, all transactions can be read. */
  ghost predicate Served(nt: nat, log: seq<Insertion>, tab: seq<Slot>) {
    (forall k :: 0 <= k < |log| ==> Fitting(nt, log[k])) ==>
      forall k :: 0 <= k < |log| ==> Reads(nt, log[k].isTkn, tab, log[k].offset, log[k].txn)
  }

  /** Once an insertion has not been fitting, its transaction cannot be read. */
  ghost predicate Spoiled(nt: nat, log: seq<Insertion>, tab: seq<Slot>) {
    forall k :: 0 <= k < |log| && !Fitting(nt, log[k]) ==>
      Foreign(nt, log[k].isTkn, tab, log[k].offset, log[k].txn)
  }

  /** Each transaction is of one kind. */
  ghost predicate Proper(nt: nat, log: seq<Insertion>) {
    forall k :: 0 <= k < |log| ==> log[k].txn != [] && Kindred(nt, log[k].isTkn, log[k].txn)
  }

  ghost predicate LogOk(nt: nat, log: seq<Insertion>, tab: seq<Slot>) {
    Served(nt, log, tab) && Spoiled(nt, log, tab)
  }

  lemma LogGrown(nt: nat, log: seq<Insertion>, tab: seq<Slot>, n: nat, mx: nat)
    requires LogOk(nt, log, tab)
    ensures LogOk(nt, log, Grown(tab, n, mx))
  {
    hide Fitting, Finds, Stays, Grown;
    var tab' := Grown(tab, n, mx);
    GrownStays(tab, n, mx);
    forall k: nat | k < |log| && Reads(nt, log[k].isTkn, tab, log[k].offset, log[k].txn)
      ensures Reads(nt, log[k].isTkn, tab', log[k].offset, log[k].txn) {
      GrownReads(nt, log[k].isTkn, tab, n, mx, log[k].offset, log[k].txn);
    }
    hide Reads, Foreign;
    forall k | 0 <= k < |log| && Foreign(nt, log[k].isTkn, tab, log[k].offset, log[k].txn)
      ensures Foreign(nt, log[k].isTkn, tab', log[k].offset, log[k].txn) {
      ForeignStays(nt, log[k].isTkn, tab, tab', log[k].offset, log[k].txn);
    }
  }

  lemma GrownReads(nt: nat, isTkn: bool, tab: seq<Slot>, n: nat, mx: nat, o: int, txn: seq<Slot>)
    requires Reads(nt, isTkn, tab, o, txn)
    ensures Reads(nt, isTkn, Grown(tab, n, mx), o, txn)
  {
    hide Finds, Grown;
    var tab' := Grown(tab, n, mx);
    forall e: Slot {:trigger Finds(tab', o, e)} | OfKind(nt, isTkn, e.lookahead)
      ensures Finds(tab', o, e) <==> e in txn {
      GrownFinds(tab, n, mx, o, e);
    }
  }

  lemma LogInsert(nt: nat, log: seq<Insertion>, ins: Insertion)
    requires LogOk(nt, log, ins.tab) && Proper(nt, log + [ins]) && Made(ins)
    ensures LogOk(nt, log + [ins], ins.after)
  {
    hide Fitting, Reads, Foreign, Stays, Made, Kindred;
    var log', tab' := log + [ins], ins.after;
    assert log'[|log|] == ins;
    InsertionStays(ins);
    if Fitting(nt, ins) { FittingReads(nt, ins); } else { UnfittingIsForeign(nt, ins); }
    if forall k :: 0 <= k < |log'| ==> Fitting(nt, log'[k]) {
      assert Fitting(nt, log'[|log|]);
      forall k | 0 <= k < |log'| ensures Reads(nt, log'[k].isTkn, tab', log'[k].offset, log'[k].txn) {
        if k < |log| {
          AllFitting(nt, log, ins);
          assert log'[k] == log[k];
          FittingKeeps(nt, ins, log[k].isTkn, log[k].offset, log[k].txn);
        }
      }
    }
    forall k | 0 <= k < |log'| && !Fitting(nt, log'[k])
      ensures Foreign(nt, log'[k].isTkn, tab', log'[k].offset, log'[k].txn) {
      if k < |log| { ForeignStays(nt, log[k].isTkn, ins.tab, tab', log[k].offset, log[k].txn); }
    }
  }

  lemma AllFitting(nt: nat, log: seq<Insertion>, ins: Insertion)
    requires forall k :: 0 <= k < |log + [ins]| ==> Fitting(nt, (log + [ins])[k])
    ensures forall k :: 0 <= k < |log| ==> Fitting(nt, log[k])
  {
    forall k | 0 <= k < |log| ensures Fitting(nt, log[k]) { assert (log + [ins])[k] == log[k]; }
  }

  /** What a chain of insertions from the empty table leaves. */
  lemma {:induction false} ChainLog(nt: nat, log: seq<Insertion>, tab: seq<Slot>)
    requires Chained(log, tab) && Proper(nt, log)
    ensures LogOk(nt, log, tab)
    decreases |log|
  {
    hide Made, Grown, LogOk, Kindred;
    if log == [] {
      assert LogOk(nt, log, tab) by { EmptyLog(nt, tab); }
    } else {
      var n := |log| - 1;
      var front, before, ins := log[..n], Before(log, n), log[n];
      ChainPrefix(log, tab);
      ChainLog(nt, front, before);
      assert Link(log, n);
      LogGrown(nt, front, before, ins.n, ins.mx);
      assert log == front + [ins];
      LogInsert(nt, front, ins);
    }
  }

  lemma EmptyLog(nt: nat, tab: seq<Slot>)
    ensures LogOk(nt, [], tab)
  {
  }

  /** Whether they fit or not, the entries of all transactions are in the table. */
  lemma {:induction false} ChainStores(log: seq<Insertion>, tab: seq<Slot>, k: nat, e: Slot)
    requires Chained(log, tab) && k < |log| && e in log[k].txn
    ensures Finds(tab, log[k].offset, e)
    decreases |log|
  {
    hide Grown, Duplicate, ChosenOffset;
    var n := |log| - 1;
    assert Link(log, n);
    if k < n {
      ChainPrefix(log, tab);
      ChainStores(log[..n], Before(log, n), k, e);
      GrownStays(Before(log, n), log[n].n, log[n].mx);
      FindsStays(Before(log, n), log[n].tab, log[k].offset, e);
      InsertionStays(log[n]);
      FindsStays(log[n].tab, tab, log[k].offset, e);
    }
  }

  // ----- the sets in order of size -------------------------------------------------------------------

  /** struct axset */
  datatype AxSet = AxSet(row: nat, isTkn: bool, nAction: nat, iOrder: nat)

  /** axset_compare(a, b) <= 0 */
  predicate AxLe(a: AxSet, b: AxSet) {
    a.nAction > b.nAction || (a.nAction == b.nAction && a.iOrder >= b.iOrder)
  }

  function AxAt(rows: seq<Row>, k: nat): AxSet
    requires k < 2 * |rows|
  {
    AxSet(k / 2, k % 2 == 0, if k % 2 == 0 then rows[k / 2].nTknAct else rows[k / 2].nNtAct, k)
  }

  /** The sets of all rows, the largest first, of equal ones the later first. */
  ghost predicate AxOrder(rows: seq<Row>, ax: seq<AxSet>) {
    && |ax| == 2 * |rows|
    && (forall k :: 0 <= k < |ax| ==> ax[k].iOrder < |ax| && ax[k] == AxAt(rows, ax[k].iOrder))
    && (forall k, l :: 0 <= k < l < |ax| ==>
          ax[k].nAction > ax[l].nAction || (ax[k].nAction == ax[l].nAction && ax[k].iOrder > ax[l].iOrder))
    && (forall i: nat :: i < |ax| ==> AxAt(rows, i) in ax)
  }

  /** Compute the action sets on all states and order them by size. */
  method OrderSets(rows: seq<Row>) returns (ax: seq<AxSet>)
    ensures AxOrder(rows, ax)
  {
    var plain := [];
    for i := 0 to |rows|
      invariant |plain| == 2 * i && forall k :: 0 <= k < 2 * i ==> plain[k] == AxAt(rows, k)
    {
      plain := plain + [AxSet(i, true, rows[i].nTknAct, 2 * i), AxSet(i, false, rows[i].nNtAct, 2 * i + 1)];
    }
    ax := Qsort(plain, AxLe);
    Permuted(plain, ax);
    forall k | 0 <= k < |ax| ensures ax[k].iOrder < |ax| && ax[k] == AxAt(rows, ax[k].iOrder) {
      assert ax[k] in ax && ax[k] in plain;
    }
    forall i: nat | i < |ax| ensures AxAt(rows, i) in ax { assert plain[i] in plain; }
  }
}
