/**
  compute_action and ResortStates: counting the actions of each state, finding its
  default, and renumbering the states.
*/
module Resort {
  import opened Grammars
  import opened Automata
  import opened Actions
  import opened Lists
  import opened Stdlib
  import MSort

  // ----- the codes of actions ------------------------------------------------------------------

  /** What the code of an action depends on; statenum gives the current number of each state. */
  datatype Coding = Coding(nstate: nat, nrule: nat, statenum: seq<nat>)

  /** compute_action: the code of an action; negative when none is to be generated. */
  function ComputeAction(c: Coding, act: Action): int {
    match act.kind
    case SHIFT => if act.arg < |c.statenum| then c.statenum[act.arg] else -1
    case REDUCE => act.arg + c.nstate
    case ERROR => c.nstate + c.nrule
    case ACCEPT => c.nstate + c.nrule + 1
    case _ => -1
  }

  /** The action is generated, for a symbol code from lo up to hi. */
  predicate Generated(c: Coding, act: Action, lo: nat, hi: nat) {
    lo <= act.sp < hi && ComputeAction(c, act) >= 0
  }

  function CountGenerated(c: Coding, ap: seq<Action>, lo: nat, hi: nat): nat {
    if ap == [] then 0
    else CountGenerated(c, ap[..|ap| - 1], lo, hi) + if Generated(c, ap[|ap| - 1], lo, hi) then 1 else 0
  }

  /** The code that the last generated action beyond all symbols has; without one, the code of the error action. */
  function DefaultCode(c: Coding, ap: seq<Action>, nsymbol: nat): nat {
    if ap == [] then c.nstate + c.nrule
    else if ap[|ap| - 1].sp >= nsymbol && ComputeAction(c, ap[|ap| - 1]) >= 0 then ComputeAction(c, ap[|ap| - 1])
    else DefaultCode(c, ap[..|ap| - 1], nsymbol)
  }

  /** The positions of the actions left on symbols of the range. */
  ghost function LeftOn(ap: seq<Action>, lo: nat, hi: nat): set<nat> {
    set k: nat | k < |ap| && lo <= ap[k].sp < hi && ap[k].kind in {SHIFT, ACCEPT, REDUCE, ERROR}
  }

  lemma LeftOnOne(ap: seq<Action>, lo: nat, hi: nat)
    requires ap != []
    ensures var n, last := |ap| - 1, ap[|ap| - 1];
            && n !in LeftOn(ap[..n], lo, hi)
            && LeftOn(ap, lo, hi) ==
                 LeftOn(ap[..n], lo, hi) +
                 if lo <= last.sp < hi && last.kind in {SHIFT, ACCEPT, REDUCE, ERROR} then {n} else {}
  {
  }

  /** Where the shifts go to states, what is counted are the actions left on symbols of the range. */
  lemma {:induction false} CountIsSize(c: Coding, ap: seq<Action>, lo: nat, hi: nat)
    requires forall k :: 0 <= k < |ap| && ap[k].kind == SHIFT ==> ap[k].arg < |c.statenum|
    ensures CountGenerated(c, ap, lo, hi) == |LeftOn(ap, lo, hi)|
  {
    hide LeftOn;
    if ap == [] {
      assert LeftOn(ap, lo, hi) == {} by { NothingLeftOn(lo, hi); }
    } else {
      CountIsSize(c, ap[..|ap| - 1], lo, hi);
      LeftOnOne(ap, lo, hi);
    }
  }

  lemma NothingLeftOn(lo: nat, hi: nat)
    ensures LeftOn([], lo, hi) == {}
  {
  }

  /** Renumbering does not change which actions are generated. */
  lemma {:induction false} CountSame(c: Coding, d: Coding, ap: seq<Action>, lo: nat, hi: nat)
    requires |c.statenum| == |d.statenum|
    ensures CountGenerated(c, ap, lo, hi) == CountGenerated(d, ap, lo, hi)
  {
    if ap != [] { CountSame(c, d, ap[..|ap| - 1], lo, hi); }
  }

  lemma {:induction false} DefaultIsLast(c: Coding, ap: seq<Action>, nsymbol: nat, act: Action)
    requires act in ap && act.sp >= nsymbol && ComputeAction(c, act) >= 0
    requires forall x :: x in ap && x.sp >= nsymbol && ComputeAction(c, x) >= 0 ==> x == act
    ensures DefaultCode(c, ap, nsymbol) == ComputeAction(c, act)
  {
    var front, last := ap[..|ap| - 1], ap[|ap| - 1];
    assert ap == front + [last];
    if last != act { DefaultIsLast(c, front, nsymbol, act); }
  }

  lemma {:induction false} DefaultIsError(c: Coding, ap: seq<Action>, nsymbol: nat)
    requires forall x :: x in ap && x.sp >= nsymbol ==> ComputeAction(c, x) < 0
    ensures DefaultCode(c, ap, nsymbol) == c.nstate + c.nrule
  {
    if ap != [] {
      assert ap[|ap| - 1] in ap;
      DefaultIsError(c, ap[..|ap| - 1], nsymbol);
    }
  }

  // ----- the rows ---------------------------------------------------------------------------------

  /** A state on its way into the tables.  `made` is the number under which it was built; None is NO_OFFSET. */
  datatype Row = Row(ap: seq<Action>, nTknAct: nat, nNtAct: nat, iDflt: nat,
                     iTknOfst: Option<int>, iNtOfst: Option<int>, made: nat)

  /** stateResortCompare(a, b) <= 0 */
  predicate ResortLe(a: Row, b: Row) {
    || a.nNtAct > b.nNtAct
    || (a.nNtAct == b.nNtAct && (a.nTknAct > b.nTknAct || (a.nTknAct == b.nTknAct && a.made >= b.made)))
  }

  lemma ResortLePreorder()
    ensures MSort.TotalPreorder(ResortLe)
  {
  }

  /** The row that the list of state s has before renumbering. */
  function RowOf(g: Grammar, c: Coding, ap: seq<Action>, s: nat): Row {
    Row(ap, CountGenerated(c, ap, 0, g.nterminal), CountGenerated(c, ap, g.nterminal, g.nsymbol),
        DefaultCode(c, ap, g.nsymbol), None, None, s)
  }

  /** Count the actions of one state. */
  method CountActions(g: Grammar, c: Coding, ap: seq<Action>, s: nat) returns (r: Row)
    requires g.nterminal <= g.nsymbol
    ensures r == RowOf(g, c, ap, s)
  {
    var nTknAct, nNtAct: nat, iDflt: nat := 0, 0, c.nstate + c.nrule;
    for k := 0 to |ap|
      invariant nTknAct == CountGenerated(c, ap[..k], 0, g.nterminal)
      invariant nNtAct == CountGenerated(c, ap[..k], g.nterminal, g.nsymbol)
      invariant iDflt == DefaultCode(c, ap[..k], g.nsymbol)
    {
      assert ap[..k + 1][..k] == ap[..k];
      if ComputeAction(c, ap[k]) >= 0 {
        if ap[k].sp < g.nterminal {
          nTknAct := nTknAct + 1;
        } else if ap[k].sp < g.nsymbol {
          nNtAct := nNtAct + 1;
        } else {
          iDflt := ComputeAction(c, ap[k]);
        }
      }
    }
    assert ap[..|ap|] == ap;
    r := Row(ap, nTknAct, nNtAct, iDflt, None, None, s);
  }

  // ----- the new numbers ---------------------------------------------------------------------------

  function Identity(n: nat): seq<nat> {
    seq(n, i => i)
  }

  /** statenum is the inverse of the order of the rows. */
  ghost predicate Numbered(rows: seq<Row>, statenum: seq<nat>) {
    && |statenum| == |rows|
    && (forall i :: 0 <= i < |rows| ==> rows[i].made < |rows| && statenum[rows[i].made] == i)
    && (forall s :: 0 <= s < |rows| ==> statenum[s] < |rows| && rows[statenum[s]].made == s)
  }

  /** The rows before sorting. */
  function RowsOf(g: Grammar, c: Coding, aps: seq<seq<Action>>): seq<Row> {
    seq(|aps|, s requires 0 <= s < |aps| => RowOf(g, c, aps[s], s))
  }

  /** Row a has more nonterminal actions, or as many and more token actions, or as many of both and was made later. */
  predicate Larger(a: Row, b: Row) {
    if a.nNtAct != b.nNtAct then a.nNtAct > b.nNtAct
    else if a.nTknAct != b.nTknAct then a.nTknAct > b.nTknAct
    else a.made > b.made
  }

  /** The rows are those of all states, state 0 first, the others the largest first, each at its new number. */
  ghost predicate Resorted(g: Grammar, c: Coding, aps: seq<seq<Action>>, rows: seq<Row>, statenum: seq<nat>) {
    && |rows| == |aps| && Numbered(rows, statenum)
    && (forall i :: 0 <= i < |rows| ==> rows[i].made < |aps| && rows[i] == RowOf(g, c, aps[rows[i].made], rows[i].made))
    && (rows != [] ==> rows[0].made == 0)
    && (forall i, j :: 1 <= i < j < |rows| ==> Larger(rows[i], rows[j]))
  }

  ghost predicate HasRow(rows: seq<Row>, s: nat) {
    exists i :: 0 <= i < |rows| && rows[i].made == s
  }

  /** All rows, sorted from position 1 on, have distinct states. */
  lemma SortedRows(g: Grammar, c: Coding, aps: seq<seq<Action>>, rows0: seq<Row>, tail: seq<Row>)
    requires rows0 == RowsOf(g, c, aps) && aps != [] && multiset(tail) == multiset(rows0[1..])
    ensures var rows := [rows0[0]] + tail;
            && |rows| == |aps| && rows[0].made == 0
            && (forall i :: 0 <= i < |rows| ==> rows[i].made < |aps| && rows[i] == rows0[rows[i].made])
            && (forall i, j :: 0 <= i < j < |rows| ==> rows[i].made != rows[j].made)
            && (forall s: nat :: s < |aps| ==> HasRow(rows, s))
  {
    var rows := [rows0[0]] + tail;
    assert rows0 == [rows0[0]] + rows0[1..];
    assert forall i :: 0 <= i < |rows0| ==> rows0[i].made == i;
    Permuted(rows0, rows);
    forall i | 0 <= i < |rows| ensures rows[i].made < |aps| && rows[i] == rows0[rows[i].made] {
      assert rows[i] in rows && rows[i] in rows0;
    }
    forall s: nat | s < |aps| ensures HasRow(rows, s) {
      assert rows0[s] in rows0 && rows0[s] in rows;
      var i :| 0 <= i < |rows| && rows[i] == rows0[s];
      assert rows[i].made == s;
    }
  }

  /** Number the rows: the last loop of ResortStates. */
  method NumberRows(rows: seq<Row>) returns (statenum: seq<nat>)
    requires forall i :: 0 <= i < |rows| ==> rows[i].made < |rows|
    requires forall i, j :: 0 <= i < j < |rows| ==> rows[i].made != rows[j].made
    requires forall s: nat :: s < |rows| ==> HasRow(rows, s)
    ensures Numbered(rows, statenum)
  {
    statenum := Identity(|rows|);
    for i := 0 to |rows|
      invariant |statenum| == |rows| && forall k :: 0 <= k < i ==> statenum[rows[k].made] == k
    {
      statenum := statenum[rows[i].made := i];
    }
    forall s: nat | s < |rows| ensures statenum[s] < |rows| && rows[statenum[s]].made == s {
      assert HasRow(rows, s);
      var i :| 0 <= i < |rows| && rows[i].made == s;
    }
  }

  lemma SortedIsLarger(rows: seq<Row>, i: nat, j: nat)
    requires MSort.SortedBy(rows, ResortLe) && i < j < |rows| && rows[i].made != rows[j].made
    ensures Larger(rows[i], rows[j])
  {
  }

  /** ResortStates */
  method ResortStates(g: Grammar, aps: seq<seq<Action>>, nrule: nat) returns (rows: seq<Row>, statenum: seq<nat>)
    requires g.nterminal <= g.nsymbol && aps != []
    ensures Resorted(g, Coding(|aps|, nrule, Identity(|aps|)), aps, rows, statenum)
  {
    hide RowOf, ResortLe, Larger;
    var c := Coding(|aps|, nrule, Identity(|aps|));
    rows := [];
    for s := 0 to |aps|
      invariant |rows| == s && forall i :: 0 <= i < s ==> rows[i] == RowOf(g, c, aps[i], i)
    {
      var r := CountActions(g, c, aps[s], s);
      rows := rows + [r];
    }
    assert rows == RowsOf(g, c, aps);
    ResortLePreorder();
    var tail := Qsort(rows[1..], ResortLe);
    SortedRows(g, c, aps, rows, tail);
    rows := [rows[0]] + tail;
    forall i, j | 1 <= i < j < |rows| ensures Larger(rows[i], rows[j]) {
      assert rows[i].made != rows[j].made && rows[i] == tail[i - 1] && rows[j] == tail[j - 1];
      SortedIsLarger(tail, i - 1, j - 1);
    }
    statenum := NumberRows(rows);
  }

  // ----- the renumbered automaton --------------------------------------------------------------------

  /** The machine with its states in the order of the rows. */
  function Renumber(m: Machine, rows: seq<Row>): Machine
    requires |m.kernel| == |m.items| == |m.la| == |rows| && forall i :: 0 <= i < |rows| ==> rows[i].made < |rows|
  {
    Machine(seq(|rows|, i requires 0 <= i < |rows| => m.kernel[rows[i].made]),
            seq(|rows|, i requires 0 <= i < |rows| => m.items[rows[i].made]),
            seq(|rows|, i requires 0 <= i < |rows| => m.la[rows[i].made]))
  }

  ghost predicate Renumbers(m: Machine, rows: seq<Row>, statenum: seq<nat>) {
    && |m.kernel| == |m.items| == |m.la| == |rows| > 0 && Numbered(rows, statenum) && rows[0].made == 0
  }

  lemma RenumberedState(g: Grammar, m: Machine, rows: seq<Row>, statenum: seq<nat>, i: nat)
    requires IsLR0(g, m) && Renumbers(m, rows, statenum) && i < |rows|
    ensures StateOk(g, Renumber(m, rows), i)
  {
    var n, s := Renumber(m, rows), rows[i].made;
    assert StateOk(g, m, s);
    forall it, x {:trigger Next(g, it, x)} | it in n.items[i] && Next(g, it, x)
      ensures exists t :: 0 <= t < |n.kernel| && n.kernel[t] == Goto(g, n.items[i], x) {
      var t :| 0 <= t < |m.kernel| && m.kernel[t] == Goto(g, m.items[s], x);
      assert n.kernel[statenum[t]] == Goto(g, n.items[i], x);
    }
    assert i > 0 ==> s > 0;
  }

  /** Renumbering keeps the automaton of the grammar. */
  lemma RenumberedIsLR0(g: Grammar, m: Machine, rows: seq<Row>, statenum: seq<nat>)
    requires IsLR0(g, m) && Renumbers(m, rows, statenum)
    ensures IsLR0(g, Renumber(m, rows))
  {
    hide StateOk, StartItems;
    var n := Renumber(m, rows);
    forall i | 0 <= i < |n.items| ensures StateOk(g, n, i) { RenumberedState(g, m, rows, statenum, i); }
    forall i, j | 0 <= i < j < |n.kernel| ensures n.kernel[i] != n.kernel[j] {
      assert rows[i].made != rows[j].made;
      assert rows[i].made < rows[j].made ==> m.kernel[rows[i].made] != m.kernel[rows[j].made];
      assert rows[j].made < rows[i].made ==> m.kernel[rows[j].made] != m.kernel[rows[i].made];
    }
  }

  lemma RenumberedEdge(g: Grammar, m: Machine, rows: seq<Row>, statenum: seq<nat>, i: nat, a: nat, t: nat)
    requires Renumbers(m, rows, statenum) && i < |rows| && Edge(g, m, rows[i].made, a, t)
    ensures Edge(g, Renumber(m, rows), i, a, statenum[t])
  {
  }
}
