/**
  A grammar whose action table loses a set: its only rule takes one long string.

  S goes to d a a ... a d, with sixteen a between the two d.  The states behind the a's
  put one small set each into the table, which crowd its front; the set of the state
  before the last d then finds no hole and lands untested on an offset that the state
  before it uses.  This file follows the automaton and the packing; CrowdedParsers.dfy
  follows the parser.
*/
module Crowding {
  import opened Grammars
  import opened Automata
  import opened FollowSets
  import opened Configlist
  import opened FindStates
  import opened Lookaheads
  import opened Actions
  import opened ParserActions
  import opened ActTab
  import opened Resort
  import opened Packing
  import opened Report
  import opened Generator

  // ----- the grammar ---------------------------------------------------------------------------

  /** The token at a place of the right-hand side: d at both ends. */
  function CrowdToken(i: nat): (a: nat)
    ensures 1 <= a <= 4
  {
    if i == 0 || i == 17 then 4 else 1
  }

  function CrowdSymbol(i: nat): Symbol {
    Terminal(CrowdToken(i))
  }

  /** Codes 1 to 4 are tokens, 5 is the error symbol, 6 the start symbol. */
  function CrowdGrammar(): Grammar {
    Grammar(5, 7, 6, [Rule(6, seq(18, i requires 0 <= i < 18 => CrowdSymbol(i)), None)],
            seq(7, _ => -1), seq(7, _ => UNK))
  }

  lemma CrowdRule()
    ensures var g := CrowdGrammar();
            && g.nterminal == 5 && g.nsymbol == 7 && g.start == 6 && |g.rules| == 1
            && g.rules[0].lhs == 6 && |g.rules[0].rhs| == 18
            && forall i :: 0 <= i < 18 ==> g.rules[0].rhs[i] == CrowdSymbol(i)
  {
  }

  lemma CrowdWellFormed()
    ensures CrowdGrammar().WellFormed()
  {
  }

  // ----- the states ----------------------------------------------------------------------------

  lemma CrowdStep(it: Item, x: Symbol)
    ensures Automata.Next(CrowdGrammar(), it, x) <==> it.rule == 0 && it.dot < 18 && x == CrowdSymbol(it.dot)
  {
    hide CrowdGrammar;
    CrowdRule();
  }

  /** Nothing is predicted, so every set of items is closed. */
  lemma CrowdClosed(kernel: set<Item>, items: set<Item>)
    requires IsClosure(CrowdGrammar(), kernel, items)
    ensures items == kernel
  {
    hide CrowdGrammar;
    CrowdRule();
    var g := CrowdGrammar();
    forall p, it ensures !Predicts(g, p, it) {
      if 0 <= it.rule < |g.rules| { CrowdStep(p, Nonterminal(g.rules[it.rule].lhs)); }
    }
    assert Closed(g, kernel);
  }

  lemma CrowdGoto(i: nat, x: Symbol)
    ensures Goto(CrowdGrammar(), {Item(0, i)}, x) ==
            if i < 18 && x == CrowdSymbol(i) then {Item(0, i + 1)} else {}
  {
    hide CrowdGrammar, CrowdSymbol;
    var g := CrowdGrammar();
    CrowdStep(Item(0, i), x);
    assert Goto(g, {Item(0, i)}, x) == if Automata.Next(g, Item(0, i), x) then {Item(0, i + 1)} else {};
  }

  lemma CrowdStart()
    ensures StartItems(CrowdGrammar()) == {Item(0, 0)}
  {
    hide CrowdGrammar;
    CrowdRule();
  }

  /** State i stands behind the first i symbols. */
  lemma {:induction false} CrowdState(m: Machine, i: nat)
    requires IsLR0(CrowdGrammar(), m) && MadeInOrder(CrowdGrammar(), m) && i < |m.items|
    ensures m.kernel[i] == m.items[i] == {Item(0, i)} && i <= 18
  {
    hide CrowdGrammar;
    var g := CrowdGrammar();
    assert StateOk(g, m, i);
    CrowdClosed(m.kernel[i], m.items[i]);
    if i == 0 {
      CrowdStart();
    } else {
      assert HasMaker(g, m, i);
      var p: nat, x :| p < i && Parent(g, m, p, x, i);
      CrowdState(m, p);
      CrowdGoto(p, x);
      if p + 1 < i {
        CrowdState(m, p + 1);
        assert false;
      }
    }
  }

  lemma {:induction false} CrowdReaches(m: Machine, i: nat)
    requires IsLR0(CrowdGrammar(), m) && MadeInOrder(CrowdGrammar(), m) && i <= 18
    ensures i < |m.items|
  {
    hide CrowdGrammar;
    var g := CrowdGrammar();
    if i > 0 {
      CrowdReaches(m, i - 1);
      CrowdState(m, i - 1);
      assert StateOk(g, m, i - 1);
      var x := CrowdSymbol(i - 1);
      CrowdStep(Item(0, i - 1), x);
      CrowdGoto(i - 1, x);
      var t :| 0 <= t < |m.kernel| && m.kernel[t] == Goto(g, m.items[i - 1], x);
      CrowdState(m, t);
      assert Item(0, i) in {Item(0, t)};
    }
  }

  /** The automaton is a chain of nineteen states. */
  lemma CrowdStates(m: Machine)
    requires IsLR0(CrowdGrammar(), m) && MadeInOrder(CrowdGrammar(), m)
    ensures |m.kernel| == |m.items| == 19 && forall i :: 0 <= i < 19 ==> m.kernel[i] == m.items[i] == {Item(0, i)}
  {
    hide CrowdGrammar;
    CrowdReaches(m, 18);
    if |m.items| > 19 { CrowdState(m, 19); }
    forall i | 0 <= i < 19 ensures m.kernel[i] == m.items[i] == {Item(0, i)} { CrowdState(m, i); }
  }

  // ----- the actions -----------------------------------------------------------------------------

  /** The items of the automaton, and what is ahead at the end. */
  ghost predicate CrowdMachine(m: Machine) {
    && |m.kernel| == |m.items| == |m.la| == 19
    && (forall i :: 0 <= i < 19 ==> m.kernel[i] == m.items[i] == {Item(0, i)})
    && Item(0, 18) in m.la[18] && m.la[18][Item(0, 18)] == {0}
  }

  lemma {:induction false} CrowdAhead(e: Env, d: Deriv)
    requires e.g == CrowdGrammar() && Derivation(e.g, d)
    ensures Ahead(e, d) == {0}
  {
    hide CrowdGrammar;
    CrowdRule();
    match d
    case Begin(_) =>
    case Over(p) => CrowdAhead(e, p);
    case Predict(p, r) => CrowdStep(What(p), Nonterminal(e.g.rules[r].lhs));
  }

  function CrowdDeriv(i: nat): Deriv {
    if i == 0 then Begin(0) else Over(CrowdDeriv(i - 1))
  }

  lemma {:induction false} CrowdDerives(i: nat)
    requires i <= 18
    ensures Derivation(CrowdGrammar(), CrowdDeriv(i)) && What(CrowdDeriv(i)) == Item(0, i)
  {
    hide CrowdGrammar;
    CrowdRule();
    if i > 0 { CrowdDerives(i - 1); }
  }

  lemma CrowdIsMachine(e: Env, m: Machine)
    requires e.g == CrowdGrammar() && IsLR0(e.g, m) && MadeInOrder(e.g, m) && LaClosed(e, m) && LaExact(e, m)
    ensures CrowdMachine(m)
  {
    hide CrowdGrammar, LaClosed, Walk, Ahead, CrowdDeriv, IsLR0, LaExact;
    CrowdStates(m);
    LaClosedShape(e, m);
    CrowdDerives(18);
    var d := CrowdDeriv(18);
    CrowdAhead(e, d);
    var s := DerivedIsThere(e, m, d);
    assert Item(0, 18) in m.items[s] && s == 18;
    forall a | a in m.la[18][Item(0, 18)] ensures a == 0 { CrowdLookahead(e, m, a); }
  }

  lemma CrowdLookahead(e: Env, m: Machine, a: nat)
    requires e.g == CrowdGrammar() && LaExact(e, m) && |m.la| == 19 && Item(0, 18) in m.la[18]
    requires a in m.la[18][Item(0, 18)]
    ensures a == 0
  {
    hide CrowdGrammar, Walk;
    assert Foreseen(e, m, Cfg(18, Item(0, 18)), a);
    var d :| DerivedAt(e.g, m, 18, Item(0, 18), d) && a in Ahead(e, d);
    CrowdAhead(e, d);
  }

  /** The action that state i calls for: shifts along the string, and the reduction at the end. */
  function CrowdAction(i: nat): Action {
    if i == 18 then Action(0, REDUCE, 0) else Action(CrowdToken(i), SHIFT, i + 1)
  }

  const CROWD_ACCEPT := Action(6, ACCEPT, 0)

  lemma CrowdEdge(m: Machine, i: nat, a: nat, t: nat)
    requires CrowdMachine(m) && i < 19
    ensures Edge(CrowdGrammar(), m, i, a, t) <==> i < 18 && a == CrowdToken(i) && t == i + 1
  {
    hide CrowdGrammar;
    var g := CrowdGrammar();
    if Edge(g, m, i, a, t) {
      var x :| Matches(x, a) && m.kernel[t] == Goto(g, m.items[i], x) != {};
      CrowdGoto(i, x);
      assert Item(0, i + 1) in {Item(0, t)};
    }
    if i < 18 {
      CrowdGoto(i, CrowdSymbol(i));
      assert Matches(CrowdSymbol(i), CrowdToken(i));
    }
  }

  lemma CrowdRaw(m: Machine, i: nat, act: Action)
    requires CrowdMachine(m) && i < 19
    ensures IsRaw(CrowdGrammar(), m, i, act) <==> act == CrowdAction(i) || (i == 0 && act == CROWD_ACCEPT)
  {
    hide CrowdGrammar, Edge, CrowdToken;
    CrowdRule();
    CrowdEdge(m, i, act.sp, act.arg);
  }

  // ----- the lists and their sets ------------------------------------------------------------------

  /** The list holds exactly what the automaton calls for. */
  lemma CrowdList(m: Machine, i: nat, raw: seq<Action>, ap: seq<Action>, fin: seq<Action>, best: Option<nat>)
    requires CrowdMachine(m) && i < 19
    requires Resolved(CrowdGrammar(), m, i, raw, ap) && CompressedTo(CrowdGrammar(), ap, fin, best)
    ensures OneActive(fin)
    ensures forall act :: Holds(fin, act) <==> act == CrowdAction(i) || (i == 0 && act == CROWD_ACCEPT)
  {
    hide CrowdGrammar, IsRaw, Resolved, OneActive, MostFrequent, NothingToDefault;
    var g := CrowdGrammar();
    CrowdRule();
    forall act | Holds(ap, act) ensures act == CrowdAction(i) || (i == 0 && act == CROWD_ACCEPT) {
      ActiveIsRaw(g, m, i, raw, ap, act);
      CrowdRaw(m, i, act);
    }
    assert best == None by { CrowdNoDefault(ap, fin, best); }
    forall act | act == CrowdAction(i) || (i == 0 && act == CROWD_ACCEPT) ensures Holds(ap, act) {
      CrowdRaw(m, i, act);
      RawIsHeld(g, m, i, raw, ap, act);
      var y :| Holds(ap, y) && y.sp == act.sp;
      assert y == act;
    }
  }

  /** The only reduction belongs to the start symbol, so there is no default. */
  lemma CrowdNoDefault(ap: seq<Action>, fin: seq<Action>, best: Option<nat>)
    requires Compressed(CrowdGrammar(), ap, fin, best)
    requires forall act :: Holds(ap, act) && act.kind == REDUCE ==> act.arg == 0
    ensures best == None
  {
    hide CrowdGrammar, MostFrequent, NothingToDefault;
    CrowdRule();
    assert StartRule(CrowdGrammar(), 0);
    assert forall act :: act in ap && act.kind == REDUCE ==> Holds(ap, act);
  }

  lemma {:induction false} NoSlots(c: Coding, ap: seq<Action>, lo: nat, hi: nat)
    requires forall act :: act in ap ==> !Generated(c, act, lo, hi)
    ensures Slots(c, ap, lo, hi) == []
  {
    if ap != [] {
      assert ap[|ap| - 1] in ap;
      NoSlots(c, ap[..|ap| - 1], lo, hi);
    }
  }

  /** A list with one generated action has one slot. */
  lemma {:induction false} SingleSlot(c: Coding, ap: seq<Action>, lo: nat, hi: nat, act: Action)
    requires OneActive(ap) && act in ap && Generated(c, act, lo, hi)
    requires forall y :: y in ap && Generated(c, y, lo, hi) ==> y == act
    ensures Slots(c, ap, lo, hi) == [Slot(act.sp, ComputeAction(c, act))]
  {
    var n := |ap| - 1;
    var front, last := ap[..n], ap[n];
    assert ap == front + [last] && last in ap;
    assert OneActive(front);
    if last == act {
      forall y | y in front ensures !Generated(c, y, lo, hi) {
        if Generated(c, y, lo, hi) {
          var k :| 0 <= k < n && front[k] == y;
          GeneratedIsActive(c, y);
          assert false;
        }
      }
      NoSlots(c, front, lo, hi);
    } else {
      SingleSlot(c, front, lo, hi, act);
    }
  }

  /** The code that state s has for its token. */
  function CrowdSlot(c: Coding, s: nat): Slot {
    Slot(CrowdAction(s).sp, ComputeAction(c, CrowdAction(s)))
  }

  /** The sets of a row that was state s. */
  ghost predicate CrowdSets(c: Coding, row: Row) {
    && TxnOf(CrowdGrammar(), c, row, true) == [CrowdSlot(c, row.made)]
    && |TxnOf(CrowdGrammar(), c, row, false)| == if row.made == 0 then 1 else 0
  }

  lemma CrowdSetsOf(c: Coding, row: Row)
    requires |c.statenum| == 19 && row.made < 19 && OneActive(row.ap)
    requires forall act :: Holds(row.ap, act) <==>
      act == CrowdAction(row.made) || (row.made == 0 && act == CROWD_ACCEPT)
    ensures CrowdSets(c, row)
  {
    hide CrowdGrammar, OneActive, CrowdToken;
    CrowdRule();
    var s, ap := row.made, row.ap;
    forall y, lo: nat, hi: nat | y in ap && Generated(c, y, lo, hi) ensures Holds(ap, y) { GeneratedIsActive(c, y); }
    assert Holds(ap, CrowdAction(s));
    SingleSlot(c, ap, 0, 5, CrowdAction(s));
    if s == 0 {
      assert Holds(ap, CROWD_ACCEPT);
      SingleSlot(c, ap, 5, 7, CROWD_ACCEPT);
    } else {
      NoSlots(c, ap, 5, 7);
    }
  }

  // ----- the rows in order ----------------------------------------------------------------------------

  /** Nineteen rows of the chain, sorted as ResortStates does. */
  ghost predicate CrowdSorted(c: Coding, rows: seq<Row>) {
    && |rows| == 19 && Numbered(rows, c.statenum) && rows[0].made == 0 && c.nstate == 19
    && RowsReady(CrowdGrammar(), c, rows)
    && (forall i :: 0 <= i < 19 ==> CrowdSets(c, rows[i]))
    && (forall i, j :: 1 <= i < j < 19 ==> Larger(rows[i], rows[j]))
  }

  lemma CrowdSizes(c: Coding, rows: seq<Row>, i: nat)
    requires CrowdSorted(c, rows) && i < 19
    ensures rows[i].nTknAct == 1 && rows[i].nNtAct == (if i == 0 then 1 else 0) && (rows[i].made == 0 <==> i == 0)
  {
    hide CrowdGrammar, OneActive;
    assert RowReady(CrowdGrammar(), c, rows[i]) && CrowdSets(c, rows[i]);
    assert c.statenum[rows[i].made] == i && c.statenum[rows[0].made] == 0;
  }

  lemma CrowdFalls(c: Coding, rows: seq<Row>, i: nat)
    requires CrowdSorted(c, rows) && 1 <= i < 18
    ensures rows[i + 1].made < rows[i].made < 19
  {
    hide CrowdGrammar, RowsReady, CrowdSets;
    CrowdSizes(c, rows, i);
    CrowdSizes(c, rows, i + 1);
    assert Larger(rows[i], rows[i + 1]);
    assert c.statenum[rows[i].made] == i && c.statenum[rows[i + 1].made] == i + 1;
  }

  lemma {:induction false} CrowdFromTop(c: Coding, rows: seq<Row>, i: nat)
    requires CrowdSorted(c, rows) && 1 <= i < 19
    ensures rows[i].made <= 19 - i
  {
    hide CrowdSorted;
    assert |rows| == 19 && rows[i].made < 19 by { CrowdBounds(c, rows, i); }
    if i > 1 {
      CrowdFromTop(c, rows, i - 1);
      CrowdFalls(c, rows, i - 1);
    }
  }

  lemma CrowdBounds(c: Coding, rows: seq<Row>, i: nat)
    requires CrowdSorted(c, rows) && i < 19
    ensures |rows| == |c.statenum| == 19 && rows[i].made < 19 && c.statenum[rows[i].made] == i
  {
  }

  lemma {:induction false} CrowdFromBottom(c: Coding, rows: seq<Row>, i: nat)
    requires CrowdSorted(c, rows) && 1 <= i < 19
    ensures |rows| == 19 && rows[i].made >= 19 - i
    decreases 19 - i
  {
    hide CrowdSorted;
    CrowdBounds(c, rows, i);
    CrowdSizes(c, rows, i);
    if i < 18 {
      CrowdFromBottom(c, rows, i + 1);
      CrowdFalls(c, rows, i);
    }
  }

  /** Apart from the first, the states come in reverse. */
  lemma CrowdNumbers(c: Coding, rows: seq<Row>, s: nat)
    requires CrowdSorted(c, rows) && 1 <= s < 19
    ensures |rows| == |c.statenum| == 19 && rows[19 - s].made == s && c.statenum[s] == 19 - s
  {
    hide CrowdSorted;
    CrowdBounds(c, rows, 19 - s);
    CrowdFromTop(c, rows, 19 - s);
    CrowdFromBottom(c, rows, 19 - s);
  }

  /** The sets in the order of insertion: of the states 1 to 17. */
  function CrowdTxn(k: nat): seq<Slot> {
    if k < 16 then [Slot(1, 17 - k)] else [Slot(4, 1)]
  }

  lemma CrowdSetOf(c: Coding, rows: seq<Row>, k: nat)
    requires CrowdSorted(c, rows) && k < 17
    ensures |rows| == 19 && TxnOf(CrowdGrammar(), c, rows[18 - k], true) == CrowdTxn(k)
  {
    hide CrowdGrammar, CrowdSorted;
    CrowdNumbers(c, rows, k + 1);
    CrowdNumbers(c, rows, k + 2);
    assert CrowdSets(c, rows[18 - k]) by { CrowdSetsAt(c, rows, 18 - k); }
  }

  lemma CrowdSetsAt(c: Coding, rows: seq<Row>, i: nat)
    requires CrowdSorted(c, rows) && i < 19
    ensures CrowdSets(c, rows[i])
  {
  }

  lemma CrowdAxSize(c: Coding, rows: seq<Row>, i: nat)
    requires CrowdSorted(c, rows) && i < 38
    ensures |rows| == 19
    ensures var a := AxAt(rows, i); a.nAction == (if i % 2 == 0 || i == 1 then 1 else 0) && a.iOrder == i
  {
    CrowdBounds(c, rows, i / 2);
    hide CrowdSorted;
    CrowdSizes(c, rows, i / 2);
  }

  lemma CrowdPlaces(c: Coding, rows: seq<Row>, ax: seq<AxSet>, k: nat)
    requires CrowdSorted(c, rows) && AxOrder(rows, ax) && |ax| == 38 && k < 17
    requires |rows| == 19 && forall l :: 0 <= l < k ==> ax[l] == AxAt(rows, 36 - 2 * l)
    ensures ax[k] == AxAt(rows, ax[k].iOrder) && ax[k].iOrder < 38
    ensures forall l :: 0 <= l < k ==> ax[k].iOrder != 36 - 2 * l
    ensures ax[k].iOrder % 2 == 0 && ax[k].iOrder >= 36 - 2 * k
  {
    hide CrowdSorted, AxAt;
    var i := 36 - 2 * k;
    CrowdAxSize(c, rows, i);
    CrowdAxSize(c, rows, ax[k].iOrder);
    forall l | 0 <= l < k ensures ax[k].iOrder != 36 - 2 * l && ax[l] != AxAt(rows, i) {
      CrowdAxSize(c, rows, 36 - 2 * l);
      assert ax[l] != ax[k];
    }
    var q :| 0 <= q < |ax| && ax[q] == AxAt(rows, i);
    assert q > k ==> AxLe(ax[k], ax[q]);
  }

  lemma LastEven(k: nat, o: nat)
    requires k < 17 && o < 38 && o % 2 == 0 && o >= 36 - 2 * k
    requires forall l :: 0 <= l < k ==> o != 36 - 2 * l
    ensures o == 36 - 2 * k
  {
    assert var l := (36 - o) / 2; 0 <= l < k ==> o != 36 - 2 * l;
  }

  /** Among sets of one size the one with the highest number comes first. */
  lemma {:induction false} CrowdOrder(c: Coding, rows: seq<Row>, ax: seq<AxSet>, n: nat)
    requires CrowdSorted(c, rows) && AxOrder(rows, ax) && |rows| == 19 && |ax| == 38 && n <= 17
    ensures forall k :: 0 <= k < n ==> ax[k] == AxAt(rows, 36 - 2 * k)
  {
    hide AxOrder, CrowdSorted, AxAt;
    if n > 0 {
      CrowdOrder(c, rows, ax, n - 1);
      CrowdPlaces(c, rows, ax, n - 1);
      LastEven(n - 1, ax[n - 1].iOrder);
    }
  }

  /** The first seventeen insertions. */
  lemma CrowdLog(c: Coding, rows0: seq<Row>, rows: seq<Row>, ax: seq<AxSet>, log: seq<Insertion>, tab: seq<Slot>,
                 k: nat)
    requires CrowdSorted(c, rows0) && Packed(CrowdGrammar(), c, rows0, rows, ax, log, tab) && k < 17
    ensures k < |log| && log[k].isTkn && log[k].txn == CrowdTxn(k)
    ensures |rows| == 19 && rows[18 - k].iTknOfst == Some(log[k].offset)
  {
    hide CrowdSorted, CrowdGrammar, AxOrder, Chained, CrowdTxn;
    CrowdBounds(c, rows0, 0);
    assert |ax| == 38 by { AxSize(rows0, ax); }
    CrowdOrder(c, rows0, ax, 17);
    CrowdAxSize(c, rows0, 36 - 2 * k);
    CrowdSetOf(c, rows0, k);
    assert ax[k] == AxAt(rows0, 36 - 2 * k) && ax[k].row == 18 - k && ax[k].isTkn && ax[k].nAction == 1;
    assert Logged(CrowdGrammar(), c, rows, ax[k], log[k]);
    assert rows[18 - k].ap == rows0[18 - k].ap;
  }

  lemma AxSize(rows: seq<Row>, ax: seq<AxSet>)
    requires AxOrder(rows, ax)
    ensures |ax| == 2 * |rows|
  {
  }

  // ----- the table ---------------------------------------------------------------------------------------

  /** The table of 22 slots after the sets of k states: each begins one slot further on. */
  ghost predicate CrowdedTo(tab: seq<Slot>, k: nat) {
    && |tab| == 22 && k <= 16
    && (forall j :: 0 <= j < k ==> tab[j] == Slot(1, 17 - j))
    && (forall j :: k <= j < 22 ==> tab[j] == EMPTY)
  }

  lemma CrowdSpans(k: nat, mn: int, mx: int)
    requires Spans(CrowdTxn(k), mn, mx)
    ensures mn == mx == if k < 16 then 1 else 4
  {
  }

  lemma CrowdedUsed(tab: seq<Slot>, k: nat, n: nat)
    requires CrowdedTo(tab, k) && TableOk(tab, n)
    ensures n == k
  {
    assert k > 0 ==> tab[k - 1] != EMPTY;
  }

  /** The next small set goes to offset k - 1. */
  lemma CrowdedFits(tab: seq<Slot>, k: nat)
    requires CrowdedTo(tab, k) && k < 16
    ensures !Duplicate(tab, CrowdTxn(k))
    ensures Fits(tab, k, CrowdTxn(k), k - 1) && forall p :: -1 <= p < k - 1 ==> !Fits(tab, k, CrowdTxn(k), p)
  {
    var t := CrowdTxn(k);
    assert t[0] in t;
    forall p: int ensures !Exact(tab, p, t) {
      assert forall j :: 0 <= j < 22 ==> tab[j] != t[0];
    }
    forall p | -1 <= p < k - 1 ensures !Fits(tab, k, t, p) { assert tab[p + t[0].lookahead].lookahead == 1; }
  }

  lemma CrowdedStep(ins: Insertion, k: nat)
    requires Made(ins) && CrowdedTo(ins.tab, k) && k < 16 && ins.txn == CrowdTxn(k)
    ensures ins.offset == k - 1 && CrowdedTo(ins.after, k + 1)
  {
    hide CrowdedTo, Fits, Duplicate, CrowdTxn;
    CrowdSpans(k, ins.mn, ins.mx);
    CrowdedUsed(ins.tab, k, ins.n);
    CrowdedFits(ins.tab, k);
    assert |ins.tab| == 22 by { CrowdedSize(ins.tab, k); }
    CrowdedWritten(ins.tab, k, ins.after);
  }

  lemma CrowdedSize(tab: seq<Slot>, k: nat)
    requires CrowdedTo(tab, k)
    ensures |tab| == 22
  {
  }

  lemma CrowdedWritten(tab: seq<Slot>, k: nat, tab': seq<Slot>)
    requires CrowdedTo(tab, k) && k < 16 && Written(tab, k - 1, CrowdTxn(k), tab')
    ensures CrowdedTo(tab', k + 1)
  {
    var t := CrowdTxn(k);
    assert t[0] in t;
    forall j | 0 <= j < 22 && j != k ensures tab'[j] == tab[j] {
      assert tab'[j] in t ==> tab'[j] == t[0];
    }
  }

  lemma CrowdedHasNoHole(tab: seq<Slot>, p: int)
    requires CrowdedTo(tab, 16) && -4 <= p < 14
    ensures !Fits(tab, 16, CrowdTxn(16), p)
  {
    var t := CrowdTxn(16);
    assert t[0] in t;
    if p < 12 { assert tab[p + t[0].lookahead].lookahead == 1; } else { assert tab[p + 1].lookahead == p + 1 - p; }
  }

  lemma CrowdedHasNoDuplicate(tab: seq<Slot>, p: int)
    requires CrowdedTo(tab, 16)
    ensures !Exact(tab, p, CrowdTxn(16))
  {
    var t := CrowdTxn(16);
    assert t[0] in t;
    assert forall j :: 0 <= j < 22 ==> tab[j] != t[0];
  }

  /** The set of state 17 finds no place and goes to the offset of state 16. */
  lemma CrowdedHasNoPlace(ins: Insertion)
    requires Made(ins) && CrowdedTo(ins.tab, 16) && ins.isTkn && ins.txn == CrowdTxn(16)
    ensures !Fitting(5, ins) && ins.offset == 14
  {
    hide ChosenOffset, Written, Fits, Exact, CrowdTxn, Spans, TableOk;
    CrowdSpans(16, ins.mn, ins.mx);
    CrowdedUsed(ins.tab, 16, ins.n);
    assert Finds(ins.tab, 14, Slot(1, 2));
    forall p: int ensures !Exact(ins.tab, p, ins.txn) { CrowdedHasNoDuplicate(ins.tab, p); }
    forall p | -4 <= p < 14 ensures !Fits(ins.tab, 16, ins.txn, p) { CrowdedHasNoHole(ins.tab, p); }
    assert !Fitting(5, ins);
    UnfittingIsLast(5, ins);
  }

  lemma CrowdedStart(ins: Insertion)
    requires Made(ins) && ins.txn == CrowdTxn(0) && ins.mx >= 0 && ins.tab == Grown([], ins.n, ins.mx)
    ensures CrowdedTo(ins.tab, 0)
  {
    hide ChosenOffset, Written;
    CrowdSpans(0, ins.mn, ins.mx);
  }

  /** There is still room, so the table does not grow. */
  lemma CrowdedStays(tab: seq<Slot>, k: nat, ins: Insertion)
    requires CrowdedTo(tab, k) && 0 < k && ins.txn == CrowdTxn(k)
    requires Made(ins) && ins.mx >= 0 && ins.tab == Grown(tab, ins.n, ins.mx)
    ensures CrowdedTo(ins.tab, k)
  {
    hide ChosenOffset, Written, CrowdTxn;
    CrowdSpans(k, ins.mn, ins.mx);
    assert ins.n == k by { assert ins.tab[k - 1] != EMPTY; }
  }

  /** The insertions of the first states crowd the table. */
  lemma {:induction false} Crowded(log: seq<Insertion>, tab: seq<Slot>, k: nat)
    requires Chained(log, tab) && k < 17 <= |log| && forall l :: 0 <= l < 17 ==> log[l].txn == CrowdTxn(l)
    ensures Made(log[k]) && CrowdedTo(log[k].tab, k)
  {
    hide CrowdedTo, Made, Grown, CrowdTxn;
    assert Link(log, k);
    var ins := log[k];
    if k == 0 {
      CrowdedStart(ins);
    } else {
      Crowded(log, tab, k - 1);
      CrowdedStep(log[k - 1], k - 1);
      CrowdedStays(Before(log, k), k, ins);
    }
  }

  /** Every packing of these rows has an insertion that does not fit, and states 16 and 17 share their offset. */
  lemma CrowdCollides(c: Coding, rows0: seq<Row>, rows: seq<Row>, ax: seq<AxSet>, log: seq<Insertion>, tab: seq<Slot>)
    requires CrowdSorted(c, rows0) && Packed(CrowdGrammar(), c, rows0, rows, ax, log, tab)
    ensures !AllFit(5, log)
    ensures |rows| == 19 && rows[3].iTknOfst == Some(14) && Finds(tab, 14, Slot(4, 1))
  {
    hide CrowdSorted, CrowdGrammar, AxOrder, Chained, CrowdTxn, Made, CrowdedTo, Fitting;
    forall k | 0 <= k < 17
      ensures k < |log| && |rows| == 19 && log[k].isTkn && log[k].txn == CrowdTxn(k)
              && rows[18 - k].iTknOfst == Some(log[k].offset) {
      CrowdLog(c, rows0, rows, ax, log, tab, k);
    }
    CrowdLog(c, rows0, rows, ax, log, tab, 15);
    CrowdLog(c, rows0, rows, ax, log, tab, 16);
    Crowded(log, tab, 15);
    CrowdedStep(log[15], 15);
    Crowded(log, tab, 16);
    CrowdedHasNoPlace(log[16]);
    assert Slot(4, 1) in log[16].txn by { CrowdLast(); }
    ChainStores(log, tab, 16, Slot(4, 1));
  }

  lemma CrowdLast()
    ensures Slot(4, 1) in CrowdTxn(16)
  {
    assert CrowdTxn(16)[0] == Slot(4, 1);
  }
}
