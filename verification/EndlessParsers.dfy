/**
  The parser generated for the endless grammar never gets through the empty input.
*/
module EndlessParsers {
  import opened Grammars
  import opened Automata
  import opened FirstSets
  import opened Configlist
  import opened Lookaheads
  import opened Lalr
  import opened Actions
  import opened ParserActions
  import opened Resort
  import opened Packing
  import opened Report
  import opened Lempar
  import opened Soundness
  import opened Generator
  import opened Completeness
  import opened Correctness
  import opened Termination
  import opened Endless

  // ----- the default of a state with one complete item ----------------------------------------------

  /** In the state every reduction is by rule r, there is one, and token a calls for no other action. */
  ghost predicate OnlyReduces(g: Grammar, m: Machine, s: nat, r: nat, a: nat)
    requires s < |m.items| == |m.la|
  {
    && (exists b: nat :: IsRaw(g, m, s, Action(b, REDUCE, r)))
    && (forall x :: IsRaw(g, m, s, x) && x.kind == REDUCE ==> x.arg == r)
    && (forall x :: IsRaw(g, m, s, x) && x.sp == a ==> x.kind == REDUCE)
  }

  /** Then the final list reduces under the token, be it by default. */
  lemma OnlyTakes(e: Env, m: Machine, s: nat, raw: seq<Action>, ap: seq<Action>, fin: seq<Action>, best: Option<nat>,
                  r: nat, a: nat)
    requires MachineFor(e, m) && ConflictFree(e.g, m) && s < |m.items| == |m.la|
    requires Resolved(e.g, m, s, raw, ap) && CompressedTo(e.g, ap, fin, best)
    requires OnlyReduces(e.g, m, s, r, a) && !StartRule(e.g, r) && a < e.g.nterminal <= e.g.nsymbol
    ensures Takes(e.g, fin, a, Action(a, REDUCE, r))
  {
    hide MachineFor, Resolved, IsRaw, OneActive, ConflictFree, MostFrequent;
    var b: nat :| IsRaw(e.g, m, s, Action(b, REDUCE, r));
    RawIsHeld(e.g, m, s, raw, ap, Action(b, REDUCE, r));
    var held :| Holds(ap, held) && held.sp == b;
    ActiveIsRaw(e.g, m, s, raw, ap, held);
    assert held == Action(b, REDUCE, r) by { NoConflict(e.g, m, s, held, Action(b, REDUCE, r)); }
    assert best.Some?;
    var one :| one in ap && ByRule(one, best.value);
    ActiveIsRaw(e.g, m, s, raw, ap, one);
    assert best == Some(r);
    forall x | Holds(fin, x) ensures x.sp != a {
      if Holds(ap, x) { ActiveIsRaw(e.g, m, s, raw, ap, x); }
    }
  }

  lemma NoConflict(g: Grammar, m: Machine, s: nat, x: Action, y: Action)
    requires |m.items| == |m.la| && ConflictFree(g, m) && s < |m.items|
    requires IsRaw(g, m, s, x) && IsRaw(g, m, s, y) && x.sp == y.sp
    ensures x == y
  {
  }

  /** And the driver reads it back from the tables. */
  lemma OnlyFound(g: Grammar, run: Run, t: Tables, i: nat, r: nat, a: nat)
    requires Produced(g, run, t) && AllFit(g.nterminal, run.l.log) && |run.m.items| == |run.m.la|
    requires ConflictFree(g, run.m)
    requires i < |run.l.rows| == |run.l.rows0| && run.l.rows0[i].made < |run.m.items|
    requires OnlyReduces(g, run.m, run.l.rows0[i].made, r, a) && r < |g.rules| && !StartRule(g, r) && a < g.nterminal
    ensures Shaped(t) && FindShiftAction(t, i, a) == |run.l.finals| + r
  {
    hide EnvOk, LaClosed, LaExact, IsLR0, MadeInOrder, Resolved, CompressedTo, LaidOut, AllFit, AllServed, ConflictFree;
    hide FindShiftAction, OnlyReduces, Takes, ListsFit;
    var l, s := run.l, run.l.rows0[i].made;
    ProducedLists(g, run, t);
    FinalIsLR0(g, run, t);
    ReadableIffFitting(g, run, t);
    RowAt(g, l, t, i);
    assert Resolved(g, run.m, s, run.raws[s], run.aps[s]) && CompressedTo(g, run.aps[s], l.finals[s], run.bests[s]);
    OnlyTakes(run.e, run.m, s, run.raws[s], run.aps[s], l.finals[s], run.bests[s], r, a);
    LayoutTakes(g, run.m, l, t, i, Action(a, REDUCE, r));
  }

  // ----- the states of the loop ------------------------------------------------------------------------

  /** E has been reduced, or can be. */
  predicate Spinning(it: Item) {
    it == Item(4, 0) || it == Item(3, 1) || it == Item(6, 1)
  }

  /** Some token is ahead of such an item. */
  lemma SpinningAhead(e: Env, d: Deriv) returns (b: nat)
    requires EnvOk(e) && e.g == EndlessGrammar() && Derivation(e.g, d) && Spinning(What(d))
    ensures b in Ahead(e, d) && b < 3
  {
    hide EndlessGrammar, EnvOk;
    EndlessRules();
    if What(d) == Item(4, 0) {
      EndlessAhead(e, d);
      b := if What(d.d) == Item(3, 0) then 2 else 1;
    } else {
      assert d.Over?;
      EndlessExpected(e, d.d);
      b := if What(d.d) == Item(3, 0) then 2 else 1;
    }
  }

  /** A run on the grammar, with what is known of it. */
  ghost predicate EndlessRun(run: Run, t: Tables) {
    && Produced(EndlessGrammar(), run, t) && AllFit(EndlessGrammar().nterminal, run.l.log)
    && Renumbers(run.m, run.l.rows0, run.l.statenum)
    && IsLR0(EndlessGrammar(), Final(run)) && TablesFit(EndlessGrammar(), Final(run), t)
    && LaClosed(run.e, Final(run)) && ConflictFree(EndlessGrammar(), run.m)
  }

  lemma EndlessIsRun(run: Run, t: Tables)
    requires Produced(EndlessGrammar(), run, t) && AllFit(EndlessGrammar().nterminal, run.l.log)
    ensures EndlessRun(run, t)
  {
    hide EndlessGrammar, EnvOk, LaClosed, LaExact, IsLR0, MadeInOrder, AllResolved, AllCompressed, LaidOut, AllFit;
    hide TablesFit, ConflictFree;
    ProducedFits(EndlessGrammar(), run, t);
    RenumberedLaClosed(run.e, run.m, run.l.rows0, run.l.statenum);
    EndlessConflictFree(run.e, run.m);
  }

  lemma SpinningOnly(k: Item, it: Item)
    requires IsKernel(k) && it in Spread(k) && Spinning(it)
    ensures |EndlessGrammar().rules| == 7 && it.dot == |EndlessGrammar().rules[it.rule].rhs|
    ensures EndlessGrammar().rules[it.rule].lhs in {6, 7, 8}
    ensures forall r: nat :: r < 7 && Item(r, |EndlessGrammar().rules[r].rhs|) in Spread(k) ==> r == it.rule
  {
    hide EndlessGrammar;
    EndlessRules();
  }

  /** Such a state reduces the item's rule under the end marker, whatever was ahead of it. */
  lemma SpinningReduces(run: Run, t: Tables, c: Conf, it: Item)
    requires EndlessRun(run, t) && ConfOk(EndlessGrammar(), Final(run), c) && c.stack != [] && Spinning(it)
    requires Top(c).stateno < |Final(run).items| && it in Final(run).items[Top(c).stateno]
    ensures Shaped(t) && it.rule < |EndlessGrammar().rules| && it.dot == |EndlessGrammar().rules[it.rule].rhs|
    ensures Top(c).stateno < t.nstate && FindShiftAction(t, Top(c).stateno, 0) == t.nstate + it.rule
  {
    hide EndlessGrammar, EnvOk, LaClosed, LaExact, IsLR0, MadeInOrder, AllResolved, AllCompressed, LaidOut, AllFit;
    hide TablesFit, ConflictFree, FindShiftAction, Spread, IsKernel, ConfOk, On, OnlyReduces;
    var g, n, i := EndlessGrammar(), Final(run), Top(c).stateno;
    EndlessRules();
    EndlessWellFormed();
    ConfStack(g, n, c);
    var d := DerivesOn(run.e, n, c.stack, it);
    OnRange(run.e, n, c.stack, d);
    var b := SpinningAhead(run.e, d);
    OnState(run.e, n, c.stack, d);
    var s := run.l.rows0[i].made;
    var k := EndlessState(run.m, s);
    SpinningOnly(k, it);
    SpinningIsOnly(run.m, s, k, it, b);
    ProducedLists(g, run, t);
    LayoutRenumbers(g, run.m, run.l, t);
    TablesFitShape(g, n, t);
    OnlyFound(g, run, t, i, it.rule, 0);
  }

  lemma SpinningIsOnly(m: Machine, s: nat, k: Item, it: Item, b: nat)
    requires |m.items| == |m.la| && OneKernel(m, s, k) && it in Spread(k) && Spinning(it)
    requires it in m.la[s] && b in m.la[s][it] && b < 3
    ensures OnlyReduces(EndlessGrammar(), m, s, it.rule, 0)
  {
    hide EndlessGrammar, Spread, IsKernel, Edge;
    EndlessRules();
    var g := EndlessGrammar();
    SpinningOnly(k, it);
    assert IsRaw(g, m, s, Action(b, REDUCE, it.rule));
    forall x | IsRaw(g, m, s, x) && x.sp == 0 ensures x.kind == REDUCE {
      if x.kind == SHIFT {
        var p, y := EndlessEdge(m, s, k, 0, x.arg);
        EndlessSymbols(k, p, p, y, y, 0);
      }
    }
  }

  // ----- the loop ------------------------------------------------------------------------------------

  /** What expected E, A or C goes on to another such state. */
  lemma SpinningGoesOn(m: Machine, s: nat, r: nat, p: Item, u: nat) returns (it: Item)
    requires IsLR0(EndlessGrammar(), m) && s < |m.items| && u < |m.items| && r in {3, 4, 6}
    requires |EndlessGrammar().rules| == 7 && p in m.items[s]
    requires Automata.Next(EndlessGrammar(), p, Nonterminal(EndlessGrammar().rules[r].lhs))
    requires m.kernel[u] == Goto(EndlessGrammar(), m.items[s], Nonterminal(EndlessGrammar().rules[r].lhs))
    ensures Spinning(it) && it in m.items[u]
  {
    hide EndlessGrammar, IsLR0, Goto;
    EndlessRules();
    var g := EndlessGrammar();
    LR0Start(g, m);
    StateIsOk(g, m, u);
    GotoHas(g, m.items[s], p, Nonterminal(g.rules[r].lhs));
    KernelInItems(g, m, u, Advance(p));
    it := Advance(p);
    if r != 4 {
      it := Item(4, 0);
      assert p == if r == 3 then Item(1, 0) else Item(1, 1);
      if r == 3 {
        PredictedInItems(g, m, u, Item(1, 1), Item(6, 0));
        PredictedInItems(g, m, u, Item(6, 0), it);
      } else {
        PredictedInItems(g, m, u, Item(1, 2), Item(1, 0));
        PredictedInItems(g, m, u, Item(1, 0), Item(3, 0));
        PredictedInItems(g, m, u, Item(3, 0), it);
      }
    }
  }

  /** One turn under the end marker leads from such a state to such a state. */
  lemma SpinningTurn(run: Run, t: Tables, c: Conf, it: Item) returns (c': Conf, it': Item)
    requires EndlessRun(run, t) && ConfOk(EndlessGrammar(), Final(run), c) && c.stack != [] && Spinning(it)
    requires Top(c).stateno < |Final(run).items| && it in Final(run).items[Top(c).stateno]
    ensures Shaped(t) && Step(t, c, 0) == Outcome.Next(c', Some(0))
    ensures ConfOk(EndlessGrammar(), Final(run), c') && c'.stack != [] && Spinning(it')
    ensures Top(c').stateno < |Final(run).items| && it' in Final(run).items[Top(c').stateno]
  {
    hide EndlessGrammar, Produced, AllFit, IsLR0, TablesFit, LaClosed, ConflictFree, FindShiftAction, Step, ConfOk;
    hide Renumbers, Edge;
    EndlessRules();
    EndlessWellFormed();
    var g, n, r := EndlessGrammar(), Final(run), it.rule;
    SpinningReduces(run, t, c, it);
    var u := ReducesSo(g, n, t, c, r);
    c' := Popped(t, c, r, u);
    var k := |c'.stack| - 1;
    var s := c.stack[k - 1].stateno;
    FreshItem(g, n, s, Item(r, 0));
    var p :| p in n.items[s] && Automata.Next(g, p, Nonterminal(g.rules[r].lhs));
    ConfStack(g, n, c');
    assert c'.stack[k - 1] == c'.stack[..k][k - 1] == c.stack[k - 1];
    assert EntryOk(g, n, c'.stack[k - 1], c'.stack[k]);
    assert |n.kernel| == |n.items| by { LR0Shape(g, n); }
    StateIsOk(g, n, s);
    StateHasValidItems(g, n, s);
    EdgeOn(g, n, s, g.rules[r].lhs, c'.stack[k].stateno);
    EdgeRange(g, n, s, g.rules[r].lhs, c'.stack[k].stateno);
    it' := SpinningGoesOn(n, s, r, p, c'.stack[k].stateno);
  }

  lemma {:induction false} SpinningForever(run: Run, t: Tables, c: Conf, it: Item, fuel: nat)
    requires EndlessRun(run, t) && ConfOk(EndlessGrammar(), Final(run), c) && c.stack != [] && Spinning(it)
    requires Top(c).stateno < |Final(run).items| && it in Final(run).items[Top(c).stateno]
    ensures Shaped(t) && Loop(t, c, 0, fuel) == None
    decreases fuel
  {
    hide EndlessGrammar, EndlessRun, ConfOk, Step;
    var c', it' := SpinningTurn(run, t, c, it);
    if fuel > 0 { SpinningForever(run, t, c', it', fuel - 1); }
  }

  /** E, A and C vanish. */
  lemma EndlessVanish()
    ensures Yields(EndlessGrammar(), Nonterminal(8)) && Yields(EndlessGrammar(), Nonterminal(6))
    ensures Yields(EndlessGrammar(), Nonterminal(7)) && Derives(EndlessGrammar(), 6, [])
  {
    hide EndlessGrammar, Yields, Derives;
    EndlessRules();
    var g := EndlessGrammar();
    var nothing := Tree.Node(4, []);
    assert Roots(g, []) == [];
    VanishesBy(g, nothing, 8);
    assert Roots(g, [nothing]) == [8];
    FrontiersSingle(nothing);
    assert Frontier(Tree.Node(3, [nothing])) == [] && Frontier(Tree.Node(6, [nothing])) == [];
    VanishesBy(g, Tree.Node(3, [nothing]), 6);
    VanishesBy(g, Tree.Node(6, [nothing]), 7);
  }

  /** Every nonterminal on a right-hand side vanishes or begins with a token; but A has no empty rule of its own. */
  lemma EndlessIsFruitful()
    ensures Fruitful(EndlessGrammar()) && !EmptyByRule(EndlessGrammar())
  {
    hide EndlessGrammar, Yields, Derives;
    EndlessRules();
    EndlessWellFormed();
    var g := EndlessGrammar();
    EndlessVanish();
    var s := Tree.Node(2, [Leaf(1)]);
    FrontiersSingle(Leaf(1));
    assert Roots(g, [Leaf(1)]) == [1] && Frontier(s) == [1];
    BeginsBy(g, s, 5, 1);
    BeginsBy(g, Leaf(1), 1, 1);
    BeginsBy(g, Leaf(2), 2, 2);
    assert !DirectlyEmpty(g, 6);
  }

  lemma VanishesBy(g: Grammar, tree: Tree, b: nat)
    requires ValidTree(g, tree) && Root(g, tree) == b && Frontier(tree) == []
    ensures Yields(g, Nonterminal(b)) && Derives(g, b, [])
  {
    FrontiersSingle(tree);
    assert Roots(g, [tree]) == [b];
    assert Yield(g, [Nonterminal(b)], [tree], []);
  }

  lemma BeginsBy(g: Grammar, tree: Tree, b: nat, a: nat)
    requires ValidTree(g, tree) && Root(g, tree) == b && Frontier(tree) == [a] && g.IsToken(a)
    ensures Yields(g, Nonterminal(b)) && Yields(g, Terminal(b))
  {
    FrontiersSingle(tree);
    assert Roots(g, [tree]) == [b];
    assert Yield(g, [Nonterminal(b)], [tree], [a]) && Yield(g, [Terminal(b)], [tree], [a]);
    assert CanBegin(g, [Nonterminal(b)], a) && CanBegin(g, [Terminal(b)], a);
  }

  /**
    The automaton of this grammar has no conflicts; yet the parser of a fitting run does
    not get through the empty input, with whatever fuel: it reduces empty rules for ever,
    and its stack grows.
  */
  lemma EndlessNeverEnds(run: Run, t: Tables, fuel: nat)
    requires Produced(EndlessGrammar(), run, t) && AllFit(EndlessGrammar().nterminal, run.l.log)
    ensures |run.m.items| == |run.m.la| && ConflictFree(EndlessGrammar(), run.m)
    ensures Shaped(t) && Feed(t, Lempar.EMPTY, [0], fuel) == None
  {
    hide EndlessGrammar, Produced, AllFit, IsLR0, TablesFit, LaClosed, ConflictFree, Renumbers, Loop, ConfOk;
    var g := EndlessGrammar();
    EndlessIsRun(run, t);
    ProducedLambda(g, run, t);
    var n := Final(run);
    StartOk(g, n);
    EndlessStart();
    LR0Start(g, n);
    StateIsOk(g, n, 0);
    EndlessSpread(Item(0, 0), n.items[0]);
    SpinningForever(run, t, Start(Lempar.EMPTY), Item(4, 0), fuel);
    FeedRestarts(t, Lempar.EMPTY, [0], fuel);
    FeedOne(t, Start(Lempar.EMPTY), 0, fuel);
  }
}
