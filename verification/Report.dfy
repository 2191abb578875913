/**
  The table part of ReportTable: pack the action sets, write out the arrays.  The
  arrays refine the lists of the states: the lookups of the driver find exactly the
  generated action of a symbol, and the default of the state where there is none.
*/
module Report {
  import opened Grammars
  import opened Automata
  import opened Actions
  import opened ActTab
  import opened Resort
  import opened Packing
  import opened Lempar

  function Lo(g: Grammar, isTkn: bool): nat { if isTkn then 0 else g.nterminal }

  function Hi(g: Grammar, isTkn: bool): nat { if isTkn then g.nterminal else g.nsymbol }

  function TxnOf(g: Grammar, c: Coding, row: Row, isTkn: bool): seq<Slot> {
    Slots(c, row.ap, Lo(g, isTkn), Hi(g, isTkn))
  }

  function OfstOf(row: Row, isTkn: bool): Option<int> {
    if isTkn then row.iTknOfst else row.iNtOfst
  }

  function WithOfst(row: Row, isTkn: bool, o: Option<int>): Row {
    if isTkn then row.(iTknOfst := o) else row.(iNtOfst := o)
  }

  /** The counts of the row are those of its list, and no offset is assigned yet. */
  ghost predicate RowReady(g: Grammar, c: Coding, row: Row) {
    && OneActive(row.ap) && row.iTknOfst == None && row.iNtOfst == None
    && row.nTknAct == |TxnOf(g, c, row, true)| && row.nNtAct == |TxnOf(g, c, row, false)|
  }

  ghost predicate RowsReady(g: Grammar, c: Coding, rows: seq<Row>) {
    forall r :: 0 <= r < |rows| ==> RowReady(g, c, rows[r])
  }

  // ----- packing ------------------------------------------------------------------------------------

  /** Put the action set of one state into the table. */
  method PackOne(tab: Acttab, g: Grammar, c: Coding, row: Row, isTkn: bool) returns (offset: int, ghost ins: Insertion)
    requires tab.Valid() && tab.nLookahead == 0 && OneActive(row.ap) && TxnOf(g, c, row, isTkn) != []
    modifies tab, tab.aAction, tab.aLookahead
    ensures tab.Valid() && tab.nLookahead == 0
    ensures (tab.aAction == old(tab.aAction) || fresh(tab.aAction))
    ensures (tab.aLookahead == old(tab.aLookahead) || fresh(tab.aLookahead))
    ensures Made(ins) && ins.offset == offset && ins.isTkn == isTkn && ins.txn == TxnOf(g, c, row, isTkn)
    ensures ins.after == tab.aAction[..]
    ensures ins.n == old(tab.nAction) && ins.mx >= 0 && ins.tab == Grown(old(tab.aAction[..]), ins.n, ins.mx)
  {
    hide OneActive, TableOk, Transaction, Spans, ChosenOffset, Written, Grown;
    Collect(tab, c, row.ap, Lo(g, isTkn), Hi(g, isTkn));
    ghost var before, n, txn, mn, mx := tab.aAction[..], tab.nAction, tab.Txn(), tab.mnLookahead, tab.mxLookahead;
    SpansNat(txn, mn, mx);
    GrownOk(before, n, mx);
    offset := tab.Insert();
    ins := Insertion(Grown(before, n, mx), n, isTkn, txn, mn, mx, offset, tab.aAction[..]);
  }

  /** Only offsets have been filled in. */
  ghost predicate SameRows(rows0: seq<Row>, rows: seq<Row>) {
    && |rows| == |rows0|
    && forall r :: 0 <= r < |rows| ==> rows[r].(iTknOfst := None, iNtOfst := None) == rows0[r]
  }

  ghost predicate Logged(g: Grammar, c: Coding, rows: seq<Row>, a: AxSet, ins: Insertion) {
    && a.row < |rows| && ins.isTkn == a.isTkn && ins.txn == TxnOf(g, c, rows[a.row], a.isTkn)
    && OfstOf(rows[a.row], a.isTkn) == Some(ins.offset)
  }

  ghost predicate Pending(rows: seq<Row>, a: AxSet) {
    a.row < |rows| && OfstOf(rows[a.row], a.isTkn) == None
  }

  /** The first i sets have been inserted. */
  ghost predicate Assigned(g: Grammar, c: Coding, rows: seq<Row>, ax: seq<AxSet>, i: nat, log: seq<Insertion>) {
    && |log| == i <= |ax|
    && (forall k :: 0 <= k < i ==> Logged(g, c, rows, ax[k], log[k]))
    && (forall k :: i <= k < |ax| ==> Pending(rows, ax[k]))
  }

  /** mn is at most 0 and at most every offset. */
  ghost predicate AtMost(rows: seq<Row>, isTkn: bool, mn: int) {
    && mn <= 0
    && forall r {:trigger rows[r]} ::
         0 <= r < |rows| && OfstOf(rows[r], isTkn).Some? ==> mn <= OfstOf(rows[r], isTkn).value
  }

  lemma AxDiffer(rows: seq<Row>, ax: seq<AxSet>, i: nat, k: nat)
    requires AxOrder(rows, ax) && i < |ax| && k < |ax| && i != k
    ensures ax[k].row < |rows| && ax[i].row < |rows| && !(ax[k].row == ax[i].row && ax[k].isTkn == ax[i].isTkn)
  {
    assert ax[k] == AxAt(rows, ax[k].iOrder) && ax[i] == AxAt(rows, ax[i].iOrder);
    if i < k { assert ax[i] != ax[k]; } else { assert ax[k] != ax[i]; }
  }

  /** Assigning the offset of set i. */
  lemma AssignOne(g: Grammar, c: Coding, rows0: seq<Row>, rows: seq<Row>, ax: seq<AxSet>, i: nat, log: seq<Insertion>,
                  ins: Insertion)
    requires AxOrder(rows0, ax) && SameRows(rows0, rows) && i < |ax| && Assigned(g, c, rows, ax, i, log)
    requires ax[i].row < |rows| && ins.isTkn == ax[i].isTkn && ins.txn == TxnOf(g, c, rows[ax[i].row], ax[i].isTkn)
    ensures var rows' := rows[ax[i].row := WithOfst(rows[ax[i].row], ax[i].isTkn, Some(ins.offset))];
            SameRows(rows0, rows') && Assigned(g, c, rows', ax, i + 1, log + [ins])
  {
    hide AxOrder;
    var a := ax[i];
    var rows' := rows[a.row := WithOfst(rows[a.row], a.isTkn, Some(ins.offset))];
    forall k | 0 <= k < |ax| && k != i
      ensures ax[k].row < |rows| && OfstOf(rows'[ax[k].row], ax[k].isTkn) == OfstOf(rows[ax[k].row], ax[k].isTkn) {
      AxDiffer(rows0, ax, i, k);
    }
    forall k | 0 <= k < i + 1 ensures Logged(g, c, rows', ax[k], (log + [ins])[k]) {
      if k < i { assert Logged(g, c, rows, ax[k], log[k]); }
    }
    forall k | i + 1 <= k < |ax| ensures Pending(rows', ax[k]) { assert Pending(rows, ax[k]); }
  }

  lemma AtMostAssign(rows: seq<Row>, r: nat, isTkn: bool, other: bool, o: int, mn: int)
    requires r < |rows| && AtMost(rows, other, mn)
    ensures other != isTkn ==> AtMost(rows[r := WithOfst(rows[r], isTkn, Some(o))], other, mn)
    ensures other == isTkn ==> AtMost(rows[r := WithOfst(rows[r], isTkn, Some(o))], other, if o < mn then o else mn)
  {
  }

  lemma SetFacts(g: Grammar, c: Coding, rows0: seq<Row>, rows: seq<Row>, ax: seq<AxSet>, i: nat)
    requires AxOrder(rows0, ax) && RowsReady(g, c, rows0) && SameRows(rows0, rows) && i < |ax|
    ensures ax[i].row < |rows| && OneActive(rows[ax[i].row].ap)
    ensures ax[i].nAction == |TxnOf(g, c, rows[ax[i].row], ax[i].isTkn)|
  {
    hide OneActive;
    assert ax[i] == AxAt(rows0, ax[i].iOrder);
    assert RowReady(g, c, rows0[ax[i].row]);
    assert rows[ax[i].row].ap == rows0[ax[i].row].ap;
  }

  /**
    What packing establishes: the log lists the insertions of the sets, the largest
    first, that lead from the empty table to this one, with the offsets in the rows.
  */
  ghost predicate Packed(g: Grammar, c: Coding, rows0: seq<Row>, rows: seq<Row>, ax: seq<AxSet>, log: seq<Insertion>,
                         tab: seq<Slot>)
  {
    && SameRows(rows0, rows) && AxOrder(rows0, ax) && Chained(log, tab)
    && |log| <= |ax| && Assigned(g, c, rows, ax, |log|, log)
    && forall k :: |log| <= k < |ax| ==> ax[k].nAction == 0
  }

  method PackTables(g: Grammar, c: Coding, rows0: seq<Row>)
    returns (rows: seq<Row>, tab: Acttab, mnTknOfst: int, mnNtOfst: int,
             ghost ax: seq<AxSet>, ghost log: seq<Insertion>)
    requires RowsReady(g, c, rows0)
    ensures tab.Valid() && fresh(tab) && Packed(g, c, rows0, rows, ax, log, tab.aAction[..])
    ensures AtMost(rows, true, mnTknOfst) && AtMost(rows, false, mnNtOfst)
  {
    hide OneActive, TableOk, Transaction, Spans, Made, Chained, AxOrder, RowsReady, SameRows, Assigned, AtMost, Grown;
    var order := OrderSets(rows0);
    ax := order;
    rows, mnTknOfst, mnNtOfst, log := rows0, 0, 0, [];
    tab := new Acttab();
    PackStart(g, c, rows0, ax);
    var i := 0;
    while i < |order| && order[i].nAction > 0
      invariant i <= |order| && tab.Valid() && tab.nLookahead == 0 && fresh(tab) && fresh(tab.aAction)
      invariant fresh(tab.aLookahead)
      invariant SameRows(rows0, rows) && Assigned(g, c, rows, order, i, log) && |log| == i
      invariant Chained(log, tab.aAction[..])
      invariant AtMost(rows, true, mnTknOfst) && AtMost(rows, false, mnNtOfst)
    {
      SetFacts(g, c, rows0, rows, order, i);
      var r, isTkn := order[i].row, order[i].isTkn;
      ghost var before := tab.aAction[..];
      var o, ins := PackOne(tab, g, c, rows[r], isTkn);
      ChainInsert(log, before, ins);
      AssignOne(g, c, rows0, rows, order, i, log, ins);
      AtMostAssign(rows, r, isTkn, true, o, mnTknOfst);
      AtMostAssign(rows, r, isTkn, false, o, mnNtOfst);
      rows := rows[r := WithOfst(rows[r], isTkn, Some(o))];
      if isTkn {
        if o < mnTknOfst { mnTknOfst := o; }
      } else {
        if o < mnNtOfst { mnNtOfst := o; }
      }
      log := log + [ins];
      i := i + 1;
    }
    RestEmpty(rows0, ax, i);
  }

  lemma PackStart(g: Grammar, c: Coding, rows0: seq<Row>, ax: seq<AxSet>)
    requires RowsReady(g, c, rows0) && AxOrder(rows0, ax)
    ensures SameRows(rows0, rows0) && Assigned(g, c, rows0, ax, 0, []) && Chained([], [])
    ensures AtMost(rows0, true, 0) && AtMost(rows0, false, 0)
  {
    hide OneActive;
    forall r | 0 <= r < |rows0|
      ensures rows0[r].(iTknOfst := None, iNtOfst := None) == rows0[r]
      ensures OfstOf(rows0[r], true) == None && OfstOf(rows0[r], false) == None {
      assert RowReady(g, c, rows0[r]);
    }
    forall k | 0 <= k < |ax| ensures Pending(rows0, ax[k]) {
      assert ax[k] == AxAt(rows0, ax[k].iOrder);
    }
  }

  /** The sets are in order of size, so the first empty one ends the list. */
  lemma RestEmpty(rows0: seq<Row>, ax: seq<AxSet>, i: nat)
    requires AxOrder(rows0, ax) && i <= |ax| && (i < |ax| ==> ax[i].nAction == 0)
    ensures forall k :: i <= k < |ax| ==> ax[k].nAction == 0
  {
    forall k | i <= k < |ax| ensures ax[k].nAction == 0 {
      assert k > i ==> AxLe(ax[i], ax[k]);
    }
  }

  // ----- what packing means -----------------------------------------------------------------------------

  /** Every lookup for the row, of a token or of a nonterminal, finds what its action set has, or nothing. */
  ghost predicate RowServed(g: Grammar, c: Coding, row: Row, isTkn: bool, tab: seq<Slot>) {
    match OfstOf(row, isTkn)
    case None => TxnOf(g, c, row, isTkn) == []
    case Some(o) => Reads(g.nterminal, isTkn, tab, o, TxnOf(g, c, row, isTkn))
  }

  ghost predicate AllServed(g: Grammar, c: Coding, rows: seq<Row>, tab: seq<Slot>) {
    forall r, isTkn {:trigger RowServed(g, c, rows[r], isTkn, tab)} ::
      0 <= r < |rows| ==> RowServed(g, c, rows[r], isTkn, tab)
  }

  ghost predicate AllFit(nt: nat, log: seq<Insertion>) {
    forall k :: 0 <= k < |log| ==> Fitting(nt, log[k])
  }

  /** Every insertion had room behind the used slots. */
  predicate AllRoomy(log: seq<Insertion>) {
    forall k :: 0 <= k < |log| ==> Roomy(log[k])
  }

  /** With enough room for each of them, all insertions of a packing are fitting. */
  lemma RoomyPackingFits(g: Grammar, c: Coding, rows0: seq<Row>, rows: seq<Row>, ax: seq<AxSet>, log: seq<Insertion>,
                         tab: seq<Slot>)
    requires Packed(g, c, rows0, rows, ax, log, tab) && AllRoomy(log)
    ensures AllFit(g.nterminal, log)
  {
    hide Made, Roomy, Fitting, AxOrder, SameRows, Assigned;
    forall k | 0 <= k < |log| ensures Fitting(g.nterminal, log[k]) {
      assert Link(log, k);
      RoomyFits(g.nterminal, log[k]);
    }
  }

  /** Where a set is in the order. */
  lemma AxIndex(rows: seq<Row>, ax: seq<AxSet>, r: nat, isTkn: bool) returns (k: nat)
    requires AxOrder(rows, ax) && r < |rows|
    ensures k < |ax| && ax[k].row == r && ax[k].isTkn == isTkn
  {
    var i := 2 * r + if isTkn then 0 else 1;
    assert AxAt(rows, i) in ax;
    k :| k < |ax| && ax[k] == AxAt(rows, i);
  }

  /** The set of a row has codes of one kind only. */
  lemma TxnKindred(g: Grammar, c: Coding, row: Row, isTkn: bool)
    ensures Kindred(g.nterminal, isTkn, TxnOf(g, c, row, isTkn))
  {
    SlotsHold(c, row.ap, Lo(g, isTkn), Hi(g, isTkn));
  }

  lemma LogProper(g: Grammar, c: Coding, rows0: seq<Row>, rows: seq<Row>, ax: seq<AxSet>, log: seq<Insertion>,
                  tab: seq<Slot>)
    requires Packed(g, c, rows0, rows, ax, log, tab)
    ensures Chained(log, tab) && Proper(g.nterminal, log)
  {
    hide AxOrder, Made, Kindred, Grown;
    forall k | 0 <= k < |log| ensures log[k].txn != [] && Kindred(g.nterminal, log[k].isTkn, log[k].txn) {
      assert Link(log, k) && Logged(g, c, rows, ax[k], log[k]);
      TxnKindred(g, c, rows[ax[k].row], ax[k].isTkn);
    }
  }

  /**
    Every lookup finds what the action set of its row has, or nothing, if and only if
    every insertion was fitting: none went untested to an offset in use by a set of its
    own kind.
  */
  lemma ServedIffFitting(g: Grammar, c: Coding, rows0: seq<Row>, rows: seq<Row>, ax: seq<AxSet>, log: seq<Insertion>,
                         tab: seq<Slot>)
    requires RowsReady(g, c, rows0) && Packed(g, c, rows0, rows, ax, log, tab)
    ensures AllServed(g, c, rows, tab) <==> AllFit(g.nterminal, log)
  {
    hide Fitting, Reads, AxOrder, RowsReady, Foreign, Proper, Chained;
    LogProper(g, c, rows0, rows, ax, log, tab);
    ChainLog(g.nterminal, log, tab);
    if AllFit(g.nterminal, log) {
      forall r, isTkn {:trigger RowServed(g, c, rows[r], isTkn, tab)} | 0 <= r < |rows|
        ensures RowServed(g, c, rows[r], isTkn, tab) {
        var k := AxIndex(rows0, ax, r, isTkn);
        SetFacts(g, c, rows0, rows, ax, k);
        if k < |log| { assert Logged(g, c, rows, ax[k], log[k]); } else { assert Pending(rows, ax[k]); }
      }
    }
    if AllServed(g, c, rows, tab) {
      forall k | 0 <= k < |log| ensures Fitting(g.nterminal, log[k]) {
        var ins := log[k];
        assert Logged(g, c, rows, ax[k], ins);
        assert RowServed(g, c, rows[ax[k].row], ax[k].isTkn, tab);
        if Foreign(g.nterminal, ins.isTkn, tab, ins.offset, ins.txn) {
          ForeignIsNotRead(g.nterminal, ins.isTkn, tab, ins.offset, ins.txn);
        }
      }
    }
  }

  // ----- writing out the arrays ----------------------------------------------------------------------------

  function EmittedAction(tab: seq<Slot>, n: nat, none: int): seq<int>
    requires n <= |tab|
  {
    seq(n, i requires 0 <= i < n => if tab[i].action < 0 then none else tab[i].action)
  }

  function EmittedLookahead(tab: seq<Slot>, n: nat, none: int): seq<int>
    requires n <= |tab|
  {
    seq(n, i requires 0 <= i < n => if tab[i].lookahead < 0 then none else tab[i].lookahead)
  }

  /** The offsets of the rows up to the last one that has any. */
  ghost predicate EmittedOffsets(rows: seq<Row>, isTkn: bool, mn: int, ofst: seq<int>) {
    && |ofst| <= |rows|
    && (forall i :: 0 <= i < |ofst| ==> ofst[i] == match OfstOf(rows[i], isTkn) case None => mn - 1 case Some(o) => o)
    && (forall i :: |ofst| <= i < |rows| ==> OfstOf(rows[i], isTkn) == None)
  }

  method EmitOffsets(rows: seq<Row>, isTkn: bool, mn: int) returns (ofst: seq<int>)
    ensures EmittedOffsets(rows, isTkn, mn, ofst)
  {
    var n := |rows|;
    while n > 0 && OfstOf(rows[n - 1], isTkn) == None
      invariant 0 <= n <= |rows| && forall i :: n <= i < |rows| ==> OfstOf(rows[i], isTkn) == None
    {
      n := n - 1;
    }
    ofst := [];
    for i := 0 to n
      invariant |ofst| == i && forall k :: 0 <= k < i ==>
        ofst[k] == match OfstOf(rows[k], isTkn) case None => mn - 1 case Some(o) => o
    {
      var o := OfstOf(rows[i], isTkn);
      ofst := ofst + [if o == None then mn - 1 else o.value];
    }
  }

  /** The yy_action and yy_lookahead arrays. */
  method EmitSlots(tab: Acttab, noAction: int, noLookahead: int) returns (action: seq<int>, lookahead: seq<int>)
    requires tab.Valid()
    ensures action == EmittedAction(tab.aAction[..], tab.nAction, noAction)
    ensures lookahead == EmittedLookahead(tab.aAction[..], tab.nAction, noLookahead)
  {
    action, lookahead := [], [];
    for i := 0 to tab.nAction
      invariant action == EmittedAction(tab.aAction[..], i, noAction)
      invariant lookahead == EmittedLookahead(tab.aAction[..], i, noLookahead)
    {
      var act, la := tab.aAction[i].action, tab.aAction[i].lookahead;
      action := action + [if act < 0 then noAction else act];
      lookahead := lookahead + [if la < 0 then noLookahead else la];
    }
  }

  /** t is written out from the packed table and the rows. */
  ghost predicate Emitted(g: Grammar, rows: seq<Row>, tab: seq<Slot>, n: nat, t: Tables) {
    && t.nstate == |rows| && t.nrule == |g.rules| && TableOk(tab, n)
    && t.action == EmittedAction(tab, n, |rows| + |g.rules| + 2) && t.lookahead == EmittedLookahead(tab, n, g.nsymbol)
    && (exists mn :: AtMost(rows, true, mn) && EmittedOffsets(rows, true, mn, t.shiftOfst) && t.shiftUseDflt == mn - 1)
    && (exists mn ::
          AtMost(rows, false, mn) && EmittedOffsets(rows, false, mn, t.reduceOfst) && t.reduceUseDflt == mn - 1)
    && |t.dflt| == |rows| && (forall i :: 0 <= i < |rows| ==> t.dflt[i] == rows[i].iDflt)
    && |t.ruleInfo| == |g.rules|
    && (forall r :: 0 <= r < |g.rules| ==> t.ruleInfo[r] == RuleInfo(g.rules[r].lhs, |g.rules[r].rhs|))
  }

  /** t is written out from some packing of the rows. */
  ghost predicate WrittenOut(g: Grammar, c: Coding, rows0: seq<Row>, t: Tables) {
    exists rows, tab, n, ax, log :: Packed(g, c, rows0, rows, ax, log, tab) && Emitted(g, rows, tab, n, t)
  }

  /** The table part of ReportTable. */
  method ReportTable(g: Grammar, c: Coding, rows0: seq<Row>) returns (t: Tables)
    requires RowsReady(g, c, rows0)
    ensures WrittenOut(g, c, rows0, t)
  {
    hide RowsReady, Packed, AtMost, EmittedOffsets, TableOk, EmittedAction, EmittedLookahead;
    var rs, table, mnTknOfst, mnNtOfst;
    ghost var ax, log;
    rs, table, mnTknOfst, mnNtOfst, ax, log := PackTables(g, c, rows0);
    var action, lookahead := EmitSlots(table, |rs| + |g.rules| + 2, g.nsymbol);
    var shiftOfst := EmitOffsets(rs, true, mnTknOfst);
    var reduceOfst := EmitOffsets(rs, false, mnNtOfst);
    var dflt := seq(|rs|, i requires 0 <= i < |rs| => rs[i].iDflt);
    var ruleInfo := seq(|g.rules|, r requires 0 <= r < |g.rules| => RuleInfo(g.rules[r].lhs, |g.rules[r].rhs|));
    t := Tables(|rs|, |g.rules|, action, lookahead, shiftOfst, mnTknOfst - 1, reduceOfst, mnNtOfst - 1, dflt, ruleInfo);
    assert Emitted(g, rs, table.aAction[..], table.nAction, t);
  }

  // ----- the arrays refine the lists ---------------------------------------------------------------------------

  lemma EmittedShape(g: Grammar, rows: seq<Row>, tab: seq<Slot>, n: nat, t: Tables)
    requires Emitted(g, rows, tab, n, t)
    ensures Shaped(t) && t.nstate == |rows| && |t.action| == n <= |tab|
    ensures forall i {:trigger t.lookahead[i]} :: 0 <= i < n && tab[i].lookahead >= 0 ==>
      t.lookahead[i] == tab[i].lookahead
    ensures forall i {:trigger t.lookahead[i]} :: 0 <= i < n && tab[i].lookahead < 0 ==> t.lookahead[i] == g.nsymbol
    ensures forall i {:trigger t.action[i]} :: 0 <= i < n && tab[i].action >= 0 ==> t.action[i] == tab[i].action
    ensures forall i :: n <= i < |tab| ==> tab[i] == ActTab.EMPTY
  {
    hide AtMost;
    var mn :| AtMost(rows, true, mn) && EmittedOffsets(rows, true, mn, t.shiftOfst) && t.shiftUseDflt == mn - 1;
    var mx :| AtMost(rows, false, mx) && EmittedOffsets(rows, false, mx, t.reduceOfst) && t.reduceUseDflt == mx - 1;
  }

  /** The emitted arrays hold what the table holds. */
  lemma SlotFound(g: Grammar, rows: seq<Row>, tab: seq<Slot>, n: nat, t: Tables, o: int, e: Slot)
    requires Emitted(g, rows, tab, n, t) && Finds(tab, o, e) && e.action >= 0
    ensures |t.action| == |t.lookahead| && 0 <= o + e.lookahead < |t.action|
    ensures t.lookahead[o + e.lookahead] == e.lookahead && t.action[o + e.lookahead] == e.action
  {
    hide Emitted;
    EmittedShape(g, rows, tab, n, t);
  }

  /** Reading slot o + x of the emitted arrays finds the pair for x, or nothing. */
  lemma SlotRead(g: Grammar, rows: seq<Row>, tab: seq<Slot>, n: nat, t: Tables, isTkn: bool, o: int, txn: seq<Slot>,
                 x: nat)
    requires Emitted(g, rows, tab, n, t) && Reads(g.nterminal, isTkn, tab, o, txn) && x < g.nsymbol
    requires OfKind(g.nterminal, isTkn, x) && forall e :: e in txn ==> e.action >= 0 && e.lookahead >= 0
    ensures |t.action| == |t.lookahead|
    ensures (0 <= o + x < |t.action| && t.lookahead[o + x] == x) <==> exists e :: e in txn && e.lookahead == x
    ensures forall e :: e in txn && e.lookahead == x ==> 0 <= o + x < |t.action| && t.action[o + x] == e.action
  {
    hide Emitted;
    EmittedShape(g, rows, tab, n, t);
    if 0 <= o + x < |t.action| && t.lookahead[o + x] == x {
      assert Finds(tab, o, tab[o + x]);
      assert tab[o + x] in txn;
    }
    forall e | e in txn && e.lookahead == x
      ensures 0 <= o + x < |t.action| && t.action[o + x] == e.action && t.lookahead[o + x] == x {
      assert Finds(tab, o, e);
    }
  }

  /** What a list generates for symbol x. */
  ghost predicate Generates(c: Coding, row: Row, x: nat, code: int) {
    exists act :: act in row.ap && act.sp == x && ComputeAction(c, act) == code >= 0
  }

  lemma TxnGenerates(g: Grammar, c: Coding, row: Row, isTkn: bool, x: nat)
    requires Lo(g, isTkn) <= x < Hi(g, isTkn)
    ensures forall code :: Generates(c, row, x, code) <==> Slot(x, code) in TxnOf(g, c, row, isTkn)
    ensures forall e :: e in TxnOf(g, c, row, isTkn) ==> e.action >= 0 && e.lookahead >= 0
  {
    SlotsHold(c, row.ap, Lo(g, isTkn), Hi(g, isTkn));
    forall code ensures Generates(c, row, x, code) <==> Slot(x, code) in TxnOf(g, c, row, isTkn) {
      if Generates(c, row, x, code) {
        var act :| act in row.ap && act.sp == x && ComputeAction(c, act) == code >= 0;
        assert Generated(c, act, Lo(g, isTkn), Hi(g, isTkn));
      }
    }
  }

  lemma ShiftOffset(g: Grammar, rows: seq<Row>, tab: seq<Slot>, n: nat, t: Tables, i: nat)
    requires Emitted(g, rows, tab, n, t) && i < |rows|
    ensures |t.shiftOfst| <= |rows|
    ensures rows[i].iTknOfst == None <==> i >= |t.shiftOfst| || t.shiftOfst[i] == t.shiftUseDflt
    ensures rows[i].iTknOfst.Some? ==> i < |t.shiftOfst| && t.shiftOfst[i] == rows[i].iTknOfst.value
  {
    var mn :| AtMost(rows, true, mn) && EmittedOffsets(rows, true, mn, t.shiftOfst) && t.shiftUseDflt == mn - 1;
    assert OfstOf(rows[i], true) == rows[i].iTknOfst;
  }

  lemma ReduceOffset(g: Grammar, rows: seq<Row>, tab: seq<Slot>, n: nat, t: Tables, i: nat)
    requires Emitted(g, rows, tab, n, t) && i < |rows|
    ensures |t.reduceOfst| <= |rows|
    ensures rows[i].iNtOfst == None <==> i >= |t.reduceOfst| || t.reduceOfst[i] == t.reduceUseDflt
    ensures rows[i].iNtOfst.Some? ==> i < |t.reduceOfst| && t.reduceOfst[i] == rows[i].iNtOfst.value
  {
    var mn :| AtMost(rows, false, mn) && EmittedOffsets(rows, false, mn, t.reduceOfst) && t.reduceUseDflt == mn - 1;
    assert OfstOf(rows[i], false) == rows[i].iNtOfst;
  }

  /** yy_find_shift_action finds the generated action of a token, else the default of the state. */
  lemma ShiftRefines(g: Grammar, c: Coding, rows: seq<Row>, tab: seq<Slot>, n: nat, t: Tables, i: nat, la: nat)
    requires Emitted(g, rows, tab, n, t) && AllServed(g, c, rows, tab) && i < |rows| && la < g.nterminal <= g.nsymbol
    ensures Shaped(t) && t.nstate == |rows|
    ensures forall code :: Generates(c, rows[i], la, code) ==> FindShiftAction(t, i, la) == code
    ensures (forall code :: !Generates(c, rows[i], la, code)) ==> FindShiftAction(t, i, la) == rows[i].iDflt
  {
    hide Reads, Generates, TableOk, EmittedAction, EmittedLookahead, Emitted;
    EmittedShape(g, rows, tab, n, t);
    TxnGenerates(g, c, rows[i], true, la);
    assert RowServed(g, c, rows[i], true, tab);
    ShiftOffset(g, rows, tab, n, t, i);
    DefaultAt(g, rows, tab, n, t, i);
    var txn := TxnOf(g, c, rows[i], true);
    if rows[i].iTknOfst.Some? {
      SlotRead(g, rows, tab, n, t, true, rows[i].iTknOfst.value, txn, la);
      forall code | Generates(c, rows[i], la, code) ensures FindShiftAction(t, i, la) == code {
        assert Slot(la, code) in txn;
      }
      if exists e :: e in txn && e.lookahead == la {
        var e :| e in txn && e.lookahead == la;
        assert e == Slot(la, e.action);
        assert Generates(c, rows[i], la, e.action);
      }
    }
  }

  /**
    Every action of a list is found in the arrays, whether packing was fitting or not: an
    unfitting insertion takes nothing away, it only lets a lookup find too much.
  */
  lemma ListedIsFound(g: Grammar, c: Coding, rows0: seq<Row>, rows: seq<Row>, ax: seq<AxSet>, log: seq<Insertion>,
                      tab: seq<Slot>, n: nat, t: Tables, i: nat, la: nat, code: int)
    requires RowsReady(g, c, rows0) && Packed(g, c, rows0, rows, ax, log, tab) && Emitted(g, rows, tab, n, t)
    requires i < |rows| && la < g.nterminal && Generates(c, rows[i], la, code)
    ensures Shaped(t) && t.nstate == |rows| && FindShiftAction(t, i, la) == code
  {
    hide AxOrder, RowsReady, Chained, Generates, Emitted;
    TxnGenerates(g, c, rows[i], true, la);
    var k := AxIndex(rows0, ax, i, true);
    SetFacts(g, c, rows0, rows, ax, k);
    assert Logged(g, c, rows, ax[k], log[k]);
    ChainStores(log, tab, k, Slot(la, code));
    FoundIsTaken(g, rows, tab, n, t, i, Slot(la, code));
  }

  /** What is found at the offset of the row is what the driver takes. */
  lemma FoundIsTaken(g: Grammar, rows: seq<Row>, tab: seq<Slot>, n: nat, t: Tables, i: nat, e: Slot)
    requires Emitted(g, rows, tab, n, t) && i < |rows| && rows[i].iTknOfst.Some? && e.action >= 0
    requires Finds(tab, rows[i].iTknOfst.value, e)
    ensures Shaped(t) && t.nstate == |rows| && FindShiftAction(t, i, e.lookahead) == e.action
  {
    hide Emitted, Finds;
    assert e.lookahead >= 0 by { FindsNat(tab, rows[i].iTknOfst.value, e); }
    EmittedShape(g, rows, tab, n, t);
    ShiftOffset(g, rows, tab, n, t, i);
    SlotFound(g, rows, tab, n, t, rows[i].iTknOfst.value, e);
  }

  lemma FindsNat(tab: seq<Slot>, o: int, e: Slot)
    requires Finds(tab, o, e)
    ensures e.lookahead >= 0
  {
  }

  lemma DefaultAt(g: Grammar, rows: seq<Row>, tab: seq<Slot>, n: nat, t: Tables, i: nat)
    requires Emitted(g, rows, tab, n, t) && i < |rows|
    ensures |t.dflt| == |rows| && t.dflt[i] == rows[i].iDflt
  {
  }

  /**
    The assertions of yy_find_reduce_action hold exactly where the state has a move on
    the nonterminal, which it then finds.
  */
  lemma ReduceRefines(g: Grammar, c: Coding, rows: seq<Row>, tab: seq<Slot>, n: nat, t: Tables, i: nat, b: nat)
    requires Emitted(g, rows, tab, n, t) && AllServed(g, c, rows, tab) && i < |rows| && g.nterminal <= b < g.nsymbol
    ensures Shaped(t) && t.nstate == |rows|
    ensures ReduceDefined(t, i, b) <==> exists code :: Generates(c, rows[i], b, code)
    ensures forall code :: Generates(c, rows[i], b, code) ==> FindReduceAction(t, i, b) == code
  {
    hide Reads, Generates, TableOk, EmittedAction, EmittedLookahead, Emitted;
    EmittedShape(g, rows, tab, n, t);
    TxnGenerates(g, c, rows[i], false, b);
    assert RowServed(g, c, rows[i], false, tab);
    ReduceOffset(g, rows, tab, n, t, i);
    var txn := TxnOf(g, c, rows[i], false);
    if rows[i].iNtOfst.Some? {
      SlotRead(g, rows, tab, n, t, false, rows[i].iNtOfst.value, txn, b);
      forall code | Generates(c, rows[i], b, code) ensures ReduceDefined(t, i, b) && FindReduceAction(t, i, b) == code {
        assert Slot(b, code) in txn;
      }
      if e :| e in txn && e.lookahead == b {
        assert e == Slot(b, e.action);
        assert Generates(c, rows[i], b, e.action);
      }
    }
  }
}
