/**
  The parser generated for the crowded grammar runs off its stack.
*/
module CrowdedParsers {
  import opened Grammars
  import opened Automata
  import opened Configlist
  import opened FindStates
  import opened Lookaheads
  import opened Actions
  import opened ParserActions
  import opened ActTab
  import opened Resort
  import opened Packing
  import opened Report
  import opened Lempar
  import opened Soundness
  import opened Generator
  import opened Correctness
  import opened Crowding

  // ----- every run of the generator ------------------------------------------------------------

  /** Every run finds the chain of states, and sorts the rows. */
  lemma CrowdRun(run: Run, t: Tables)
    requires Produced(CrowdGrammar(), run, t)
    ensures CrowdMachine(run.m) && CrowdSorted(run.l.Coded(CrowdGrammar()), run.l.rows0)
  {
    hide CrowdGrammar, EnvOk, LaClosed, LaExact, IsLR0, MadeInOrder, Resolved, CompressedTo, Packed, Emitted;
    hide CrowdMachine, RowReady, CrowdSets, Larger;
    var g, l := CrowdGrammar(), run.l;
    CrowdRule();
    CrowdIsMachine(run.e, run.m);
    assert |run.m.items| == 19 by { CrowdMachineSize(run.m); }
    ReadyRows(g, run.aps, l.finals, run.bests, l.rows0, l.statenum);
    forall i | 0 <= i < 19 ensures CrowdSets(l.Coded(g), l.rows0[i]) { CrowdRowSets(run, t, i); }
  }

  lemma CrowdMachineSize(m: Machine)
    requires CrowdMachine(m)
    ensures |m.items| == |m.la| == 19
  {
  }

  lemma CrowdRowSets(run: Run, t: Tables, i: nat)
    requires Produced(CrowdGrammar(), run, t) && CrowdMachine(run.m) && i < 19
    ensures |run.l.rows0| == |run.l.statenum| == 19 && CrowdSets(run.l.Coded(CrowdGrammar()), run.l.rows0[i])
    ensures run.l.rows0[i].made < 19 && Holds(run.l.rows0[i].ap, CrowdAction(run.l.rows0[i].made))
  {
    hide CrowdGrammar, EnvOk, LaClosed, LaExact, IsLR0, MadeInOrder, Resolved, CompressedTo, Packed, Emitted;
    hide CrowdMachine, OneActive, CrowdAction, CrowdSets;
    var g, l := CrowdGrammar(), run.l;
    CrowdMachineSize(run.m);
    var s := l.rows0[i].made;
    assert Resolved(g, run.m, s, run.raws[s], run.aps[s]) && CompressedTo(g, run.aps[s], l.finals[s], run.bests[s]);
    CrowdList(run.m, s, run.raws[s], run.aps[s], l.finals[s], run.bests[s]);
    assert l.rows0[i] == RowOf(g, FirstCoding(g, |l.finals|), l.finals[s], s);
    CrowdSetsOf(l.Coded(g), l.rows0[i]);
  }

  // ----- the lookups that the driver makes --------------------------------------------------------

  /**
    What the tables answer: along the string the next state; but state 16, which is row 3,
    also answers d, with the last state, which is row 1.
  */
  ghost predicate CrowdLooks(t: Tables) {
    && Shaped(t) && t.nstate == 19 && t.nrule == 1 && t.ruleInfo[0].nrhs == 18
    && FindShiftAction(t, 0, 4) == 18
    && (forall i: nat {:trigger FindShiftAction(t, i, 1)} :: 4 <= i <= 18 ==> FindShiftAction(t, i, 1) == i - 1)
    && FindShiftAction(t, 3, 4) == 1
    && FindShiftAction(t, 1, 0) == 19
  }

  /** The row of a state finds the action of the state. */
  lemma CrowdTakes(run: Run, t: Tables, i: nat)
    requires Produced(CrowdGrammar(), run, t) && CrowdMachine(run.m) && i < 19
    ensures Shaped(t) && t.nstate == |run.l.rows0| == 19 && run.l.rows0[i].made < 19
    ensures var act := CrowdAction(run.l.rows0[i].made);
            FindShiftAction(t, i, act.sp) == ComputeAction(run.l.Coded(CrowdGrammar()), act)
  {
    hide CrowdGrammar, EnvOk, LaClosed, LaExact, MachineFor, MadeInOrder, AllResolved, AllCompressed;
    hide Resorted, Emitted, CrowdMachine, FindShiftAction, RowsReady;
    var g, l := CrowdGrammar(), run.l;
    CrowdRule();
    CrowdRowSets(run, t, i);
    ReadyRows(g, run.aps, l.finals, run.bests, l.rows0, l.statenum);
    LayoutShape(g, l, t);
    var act := CrowdAction(l.rows0[i].made);
    assert l.rows[i].ap == l.rows0[i].ap;
    GeneratedIsActive(l.Coded(g), act);
    assert ComputeAction(l.Coded(g), act) >= 0;
    assert Generates(l.Coded(g), l.rows[i], act.sp, ComputeAction(l.Coded(g), act));
    var code := ComputeAction(l.Coded(g), act);
    ListedIsFound(g, l.Coded(g), l.rows0, l.rows, l.ax, l.log, l.tab, l.n, t, i, act.sp, code);
  }

  lemma CrowdTables(run: Run, t: Tables)
    requires Produced(CrowdGrammar(), run, t)
    ensures CrowdLooks(t) && !AllFit(CrowdGrammar().nterminal, run.l.log)
  {
    hide CrowdGrammar, Produced, CrowdMachine, CrowdSorted, FindShiftAction, AllFit;
    var g, l := CrowdGrammar(), run.l;
    var c := l.Coded(g);
    CrowdRule();
    CrowdRun(run, t);
    CrowdShape(run, t);
    CrowdCollides(c, l.rows0, l.rows, l.ax, l.log, l.tab);
    FoundIsTaken(g, l.rows, l.tab, l.n, t, 3, Slot(4, 1));
    CrowdBounds(c, l.rows0, 0);
    CrowdSizes(c, l.rows0, 0);
    CrowdNumbers(c, l.rows0, 1);
    CrowdNumbers(c, l.rows0, 18);
    CrowdTakes(run, t, 0);
    CrowdTakes(run, t, 1);
    forall i: nat {:trigger FindShiftAction(t, i, 1)} | 4 <= i <= 18 ensures FindShiftAction(t, i, 1) == i - 1 {
      CrowdNumbers(c, l.rows0, 19 - i);
      CrowdNumbers(c, l.rows0, 20 - i);
      CrowdTakes(run, t, i);
    }
  }

  lemma CrowdShape(run: Run, t: Tables)
    requires Produced(CrowdGrammar(), run, t)
    ensures var g, l := CrowdGrammar(), run.l;
            && Packed(g, l.Coded(g), l.rows0, l.rows, l.ax, l.log, l.tab) && Emitted(g, l.rows, l.tab, l.n, t)
            && Shaped(t) && t.nrule == 1 && t.ruleInfo[0].nrhs == 18
            && l.Coded(g).nstate == t.nstate == |l.finals|
  {
    hide CrowdGrammar, EnvOk, LaClosed, LaExact, MachineFor, MadeInOrder, AllResolved, AllCompressed;
    hide Resorted, Packed, Emitted;
    CrowdRule();
    LayoutShape(CrowdGrammar(), run.l, t);
  }

  // ----- the driver ----------------------------------------------------------------------------------

  function Shifted(c: Conf, a: nat, u: nat): Conf {
    Push(c, Entry(u, a, Leaf(a))).(errcnt := c.errcnt - 1, shifted := c.shifted + [a])
  }

  /** Feeding a token that is shifted. */
  lemma FeedShift(t: Tables, c: Conf, a: nat, rest: seq<nat>, u: nat, fuel: nat)
    requires Shaped(t) && c.stack != [] && Top(c).stateno < t.nstate && a != 0 && fuel > 0
    requires FindShiftAction(t, Top(c).stateno, a) == u < t.nstate
    ensures Feed(t, c, [a] + rest, fuel) == Feed(t, Shifted(c, a, u), rest, fuel)
  {
    hide FindShiftAction;
    assert ([a] + rest)[1..] == rest && ([a] + rest)[0] == a;
    assert Step(t, c, a) == Outcome.Next(Shifted(c, a, u), None);
    assert Call(t, c, a, fuel) == Some(Outcome.Next(Shifted(c, a, u), None));
  }

  function Ones(n: nat): seq<nat> {
    seq(n, _ => 1)
  }

  /** Feeding n times the token a. */
  lemma {:induction false} FeedOnes(t: Tables, c: Conf, i: nat, n: nat, rest: seq<nat>, fuel: nat) returns (d: Conf)
    requires CrowdLooks(t) && c.stack != [] && Top(c).stateno == i <= 18 && i - n >= 3 && fuel > 0
    ensures Feed(t, c, Ones(n) + rest, fuel) == Feed(t, d, rest, fuel)
    ensures |d.stack| == |c.stack| + n && d.stack != [] && Top(d).stateno == i - n
    decreases n
  {
    hide Feed, FindShiftAction;
    d := c;
    if n == 0 {
      assert Ones(0) + rest == rest;
    } else {
      assert FindShiftAction(t, i, 1) == i - 1;
      assert Ones(n) + rest == [1] + (Ones(n - 1) + rest);
      FeedShift(t, c, 1, Ones(n - 1) + rest, i - 1, fuel);
      d := FeedOnes(t, Shifted(c, 1, i - 1), i - 1, n - 1, rest, fuel);
    }
  }

  /** The reduction of eighteen symbols finds too few on the stack. */
  lemma FeedOffStack(t: Tables, c: Conf, fuel: nat)
    requires CrowdLooks(t) && |c.stack| == 18 && Top(c).stateno == 1 && fuel > 0
    ensures Feed(t, c, [0], fuel) == Some(Abort)
  {
    hide FindShiftAction, ReduceDefined;
    assert Step(t, c, 0) == Abort;
  }

  /**
    Soundness fails without the condition on packing.  In every run on this grammar some
    insertion does not fit, and the parser that comes out of it, given d, fifteen times a,
    d and the end of the input, reduces the rule of eighteen symbols with seventeen of
    them on its stack.
  */
  lemma CrowdAborts(run: Run, t: Tables, fuel: nat)
    requires Produced(CrowdGrammar(), run, t) && fuel > 0
    ensures !AllFit(CrowdGrammar().nterminal, run.l.log)
    ensures Shaped(t) && Feed(t, Lempar.EMPTY, [4] + Ones(15) + [4, 0], fuel) == Some(Abort)
  {
    hide Produced, AllFit, CrowdGrammar, FindShiftAction, Feed, CrowdLooks;
    CrowdTables(run, t);
    CrowdFeeds(t, fuel);
  }

  lemma CrowdFeeds(t: Tables, fuel: nat)
    requires CrowdLooks(t) && fuel > 0
    ensures Shaped(t) && Feed(t, Lempar.EMPTY, [4] + Ones(15) + [4, 0], fuel) == Some(Abort)
  {
    hide FindShiftAction, Feed;
    var c := Start(Lempar.EMPTY);
    var w := [4] + Ones(15) + [4, 0];
    FeedRestarts(t, Lempar.EMPTY, w, fuel);
    assert w == [4] + (Ones(15) + [4, 0]) && [4, 0] == [4] + [0];
    FeedShift(t, c, 4, Ones(15) + [4, 0], 18, fuel);
    var c1 := Shifted(c, 4, 18);
    var c2 := FeedOnes(t, c1, 18, 15, [4, 0], fuel);
    FeedShift(t, c2, 4, [0], 1, fuel);
    FeedOffStack(t, Shifted(c2, 4, 1), fuel);
  }

  // ----- such a run ------------------------------------------------------------------------------------

  lemma {:induction false} SetOfSeq(xs: seq<Item>)
    ensures |ItemSet(xs)| <= |xs|
  {
    if xs != [] {
      var n := |xs| - 1;
      SetOfSeq(xs[..n]);
      assert xs == xs[..n] + [xs[n]];
      assert ItemSet(xs) == ItemSet(xs[..n]) + {xs[n]};
    }
  }

  lemma CrowdSortable()
    ensures ActionsSortable(CrowdGrammar())
  {
    hide CrowdGrammar;
    var g := CrowdGrammar();
    CrowdRule();
    var xs := seq(19, d requires 0 <= d < 19 => Item(0, d));
    SetOfSeq(xs);
    forall it ensures it in AllItems(g) <==> it in ItemSet(xs) {
      if it in AllItems(g) { assert xs[it.dot] == it; }
    }
    assert AllItems(g) == ItemSet(xs);
    assert Narrow(g, 1);
  }

  /** The generator makes such a parser. */
  method GenerateCrowded() returns (t: Tables)
    ensures Shaped(t)
    ensures forall fuel: nat :: fuel > 0 ==> Feed(t, Lempar.EMPTY, [4] + Ones(15) + [4, 0], fuel) == Some(Abort)
  {
    hide ActionsSortable, Produced;
    CrowdWellFormed();
    CrowdSortable();
    var nconflict;
    t, nconflict := Generate(CrowdGrammar());
    ghost var run: Run :| Produced(CrowdGrammar(), run, t);
    CrowdAborts(run, t, 1);
    forall fuel: nat | fuel > 0 ensures Feed(t, Lempar.EMPTY, [4] + Ones(15) + [4, 0], fuel) == Some(Abort) {
      CrowdAborts(run, t, fuel);
    }
  }
}
