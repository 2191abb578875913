/**
  The parser generated for the grammar with the missed lookahead rejects a sentence.
*/
module GapParsers {
  import opened Grammars
  import opened Automata
  import opened Configlist
  import opened Lookaheads
  import opened Actions
  import opened ParserActions
  import opened Resort
  import opened Packing
  import opened Report
  import opened Lempar
  import opened Soundness
  import opened Generator
  import opened Completeness
  import opened Correctness
  import opened Gap

  /** The sentence c t. */
  lemma GapSentence()
    ensures Sentence(GapGrammar(), [1, 2])
  {
    hide GapGrammar;
    GapRules();
    var g := GapGrammar();
    var a := GapA();
    var c := Tree.Node(1, [Leaf(1)]);
    FrontiersSingle(Leaf(1));
    assert Roots(g, [Leaf(1)]) == [1] && ValidTree(g, c) && Root(g, c) == 4 && Frontier(c) == [1];
    var ts := [c, a, Leaf(2)];
    FrontiersSingle(Leaf(2));
    FrontiersCons(a, [Leaf(2)]);
    FrontiersCons(c, [a, Leaf(2)]);
    assert ts == [c] + [a, Leaf(2)] && [a, Leaf(2)] == [a] + [Leaf(2)];
    assert Frontiers(ts) == [1, 2];
    assert Roots(g, ts) == [4, 5, 2] && ValidTrees(g, ts);
    assert ValidTree(g, Tree.Node(0, ts)) && Frontier(Tree.Node(0, ts)) == [1, 2];
  }

  // ----- the states at the start and behind c -----------------------------------------------------

  lemma GapStart(m: Machine)
    requires IsLR0(GapGrammar(), m)
    ensures m.items[0] == {Item(0, 0), Item(1, 0)}
  {
    hide GapGrammar;
    GapRules();
    var g := GapGrammar();
    assert StateOk(g, m, 0);
    assert m.kernel[0] == {Item(0, 0)} by { GapStartItems(); }
    var c := {Item(0, 0), Item(1, 0)};
    assert Closed(g, c);
    assert Predicts(g, Item(0, 0), Item(1, 0));
  }

  lemma GapStartItems()
    ensures StartItems(GapGrammar()) == {Item(0, 0)}
  {
    hide GapGrammar;
    GapRules();
  }

  /** A state entered by c holds the finished rule of C alone. */
  lemma GapBehindC(m: Machine, s: nat, x: Symbol)
    requires IsLR0(GapGrammar(), m) && s < |m.kernel| && Matches(x, 1)
    requires m.kernel[s] == Goto(GapGrammar(), m.items[0], x) != {}
    ensures s != 0 && m.kernel[s] == {Item(1, 1)} && m.items[s] == {Item(1, 1)}
  {
    hide GapGrammar;
    GapRules();
    var g := GapGrammar();
    GapStart(m);
    assert x == Terminal(1) by {
      var it :| it in m.items[0] && Automata.Next(g, it, x);
    }
    assert m.kernel[s] == {Item(1, 1)};
    assert StateOk(g, m, s);
    assert Closed(g, {Item(1, 1)});
    assert m.kernel[0] == {Item(0, 0)} by { GapStartItems(); }
  }

  lemma GapWalk(m: Machine, s: nat)
    requires IsLR0(GapGrammar(), m) && s < |m.kernel| && Walk(GapGrammar(), m, [Terminal(1)], s)
    ensures s != 0 && m.kernel[s] == {Item(1, 1)} && m.items[s] == {Item(1, 1)}
  {
    hide GapGrammar, IsLR0;
    var w := [Terminal(1)];
    assert w[..|w| - 1] == [];
    GapBehindC(m, s, Terminal(1));
  }

  /** Without lookaheads the state calls for no action. */
  lemma GapNothing(m: Machine, s: nat, act: Action)
    requires 0 < s < |m.items| == |m.la| && m.items[s] == {Item(1, 1)} && Blind(m, s)
    ensures !IsRaw(GapGrammar(), m, s, act)
  {
    hide GapGrammar;
    GapRules();
    assert forall x :: Goto(GapGrammar(), m.items[s], x) == {};
  }

  /** So its list is empty, before and after resolution and compression. */
  lemma GapEmptyList(m: Machine, s: nat, raw: seq<Action>, ap: seq<Action>, fin: seq<Action>, best: Option<nat>)
    requires 0 < s < |m.items| == |m.la| && m.items[s] == {Item(1, 1)} && Blind(m, s)
    requires Resolved(GapGrammar(), m, s, raw, ap) && CompressedTo(GapGrammar(), ap, fin, best)
    ensures fin == []
  {
    hide GapGrammar, IsRaw, Blind, OneActive, Justified, PreferredLeft, SomeActive;
    forall act ensures act !in raw { GapNothing(m, s, act); }
    SomeMember(raw);
  }

  lemma SomeMember(ap: seq<Action>)
    ensures ap != [] ==> exists act :: act in ap
  {
    if ap != [] { assert ap[0] in ap; }
  }

  // ----- the tables ------------------------------------------------------------------------------------

  /** A row without actions answers every token with the error action. */
  lemma EmptyRowFails(g: Grammar, l: Layout, t: Tables, i: nat, a: nat)
    requires g.WellFormed() && LaidOut(g, l, t) && AllServed(g, l.Coded(g), l.rows, l.tab)
    requires i < |l.rows| && a < g.nterminal && l.rows[i].ap == []
    ensures Shaped(t) && i < t.nstate && FindShiftAction(t, i, a) == t.nstate + t.nrule
  {
    hide LaidOut, AllServed, FindShiftAction;
    LayoutShape(g, l, t);
    RowAt(g, l, t, i);
    ShiftRefines(g, l.Coded(g), l.rows, l.tab, l.n, t, i, a);
    forall code ensures !Generates(l.Coded(g), l.rows[i], a, code) { }
  }

  /** What a fitting run makes of the grammar: a state entered by c answers t with the error action. */
  lemma GapFails(run: Run, t: Tables, j: nat)
    requires Produced(GapGrammar(), run, t) && AllFit(GapGrammar().nterminal, run.l.log)
    requires Renumbers(run.m, run.l.rows0, run.l.statenum)
    requires IsLR0(GapGrammar(), Final(run)) && Edge(GapGrammar(), Final(run), 0, 1, j)
    ensures Shaped(t) && j < t.nstate && FindShiftAction(t, j, 2) == t.nstate + t.nrule
  {
    hide GapGrammar, EnvOk, LaClosed, LaExact, IsLR0, Resolved, CompressedTo;
    hide LaidOut, AllFit, AllServed, Goto, FindShiftAction;
    var g, n := GapGrammar(), Final(run);
    GapRules();
    GapWellFormed();
    var x :| Matches(x, 1) && n.kernel[j] == Goto(g, n.items[0], x) != {};
    GapBehindC(n, j, x);
    var s := GapState(run.e, run.m);
    LR0Shape(g, run.m);
    GapWalk(run.m, s);
    SameKernel(g, run.m, s, run.l.rows0[j].made);
    GapEmptyList(run.m, s, run.raws[s], run.aps[s], run.l.finals[s], run.bests[s]);
    ReadableIffFitting(g, run, t);
    LayoutShape(g, run.l, t);
    RowAt(g, run.l, t, j);
    EmptyRowFails(g, run.l, t, j, 2);
  }

  lemma SameKernel(g: Grammar, m: Machine, s: nat, u: nat)
    requires IsLR0(g, m) && s < |m.kernel| && u < |m.kernel| && m.kernel[s] == m.kernel[u]
    ensures s == u
  {
  }

  // ----- the driver ------------------------------------------------------------------------------------

  /** The first token is shifted, or it is an error. */
  lemma GapFirstToken(m: Machine, t: Tables, fuel: nat)
    requires IsLR0(GapGrammar(), m) && TablesFit(GapGrammar(), m, t)
    ensures Shaped(t)
    ensures Loop(t, Start(Lempar.EMPTY), 1, fuel).Some? ==>
              var o := Loop(t, Start(Lempar.EMPTY), 1, fuel).value;
              && o.Next? && o.conf.stack != []
              && (o.conf.errors == 0 ==>
                    Top(o.conf).stateno < t.nstate && Edge(GapGrammar(), m, 0, 1, Top(o.conf).stateno))
  {
    hide GapGrammar, IsLR0, Edge, FindShiftAction;
    GapRules();
    var g := GapGrammar();
    GapStart(m);
    assert |m.kernel| == |m.items| > 0 by { LR0Shape(g, m); }
    assert ShiftFits(g, m, t, 0, 1);
    if fuel > 0 {
      var act := FindShiftAction(t, 0, 1);
      assert !(t.nstate <= act < t.nstate + t.nrule);
    }
  }

  /** In such a state the second token is an error. */
  lemma GapSecondToken(t: Tables, c: Conf, fuel: nat)
    requires Shaped(t) && c.stack != [] && Top(c).stateno < t.nstate
    requires FindShiftAction(t, Top(c).stateno, 2) == t.nstate + t.nrule
    ensures Loop(t, c, 2, fuel).Some? ==> Loop(t, c, 2, fuel).value.Next? && Loop(t, c, 2, fuel).value.conf.errors > 0
  {
    hide FindShiftAction;
  }

  /** After the two tokens an error has been counted. */
  lemma GapTwoTokens(run: Run, t: Tables, fuel: nat)
    requires Produced(GapGrammar(), run, t) && AllFit(GapGrammar().nterminal, run.l.log)
    requires Renumbers(run.m, run.l.rows0, run.l.statenum)
    requires IsLR0(GapGrammar(), Final(run)) && TablesFit(GapGrammar(), Final(run), t)
    ensures Shaped(t)
    ensures Feed(t, Start(Lempar.EMPTY), [1, 2], fuel).Some? ==>
              var o := Feed(t, Start(Lempar.EMPTY), [1, 2], fuel).value;
              o.Next? && ConfOk(GapGrammar(), Final(run), o.conf) && o.conf.stack != [] && o.conf.errors > 0
  {
    hide GapGrammar, Produced, AllFit, IsLR0, TablesFit, FindShiftAction, Loop, ConfOk, Edge;
    var g, n := GapGrammar(), Final(run);
    GapRules();
    GapWellFormed();
    TablesFitShape(g, n, t);
    StartOk(g, n);
    var c := Start(Lempar.EMPTY);
    var xs := FeedTokens(g, n, t, c, [1, 2], fuel);
    GapFirstToken(n, t, fuel);
    assert [1, 2][1..] == [2];
    if Feed(t, c, [1, 2], fuel).Some? {
      var c1 := Loop(t, c, 1, fuel).value.conf;
      LoopKeeps(g, n, t, c, 1, fuel);
      FeedOne(t, c1, 2, fuel);
      LoopKeeps(g, n, t, c1, 2, fuel);
      if c1.errors == 0 {
        GapFails(run, t, Top(c1).stateno);
        GapSecondToken(t, c1, fuel);
      }
    }
  }

  /**
    The parser of a fitting run rejects the sentence c t, with whatever fuel: there is
    no parser for this grammar that accepts exactly its sentences.
  */
  lemma GapRejectsSentence(run: Run, t: Tables, fuel: nat)
    requires Produced(GapGrammar(), run, t) && AllFit(GapGrammar().nterminal, run.l.log)
    ensures Sentence(GapGrammar(), [1, 2]) && Shaped(t) && !Parses(t, [1, 2], fuel)
  {
    hide GapGrammar, Produced, AllFit, IsLR0, TablesFit, Sentence, Feed, Loop, ConfOk;
    var g := GapGrammar();
    GapRules();
    GapWellFormed();
    GapSentence();
    ProducedFits(g, run, t);
    TablesFitShape(g, Final(run), t);
    var c := Start(Lempar.EMPTY);
    GapTwoTokens(run, t, fuel);
    FeedRestarts(t, Lempar.EMPTY, [1, 2] + [0], fuel);
    FeedSplit(t, c, [1, 2], [0], fuel);
    if Feed(t, c, [1, 2], fuel).Some? {
      var c' := Feed(t, c, [1, 2], fuel).value.conf;
      FeedOne(t, c', 0, fuel);
      LoopKeeps(g, Final(run), t, c', 0, fuel);
    }
  }
}
