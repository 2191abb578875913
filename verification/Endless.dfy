/**
  A grammar without conflicts in its automaton, on which the driver may never end.

  P goes to S; S to A C S or a; A to E; E to the empty string; C to b or E.  A and C
  vanish, but have no empty rules, so the flags miss them; and so the lookaheads miss
  that a token can be shifted where E can be reduced under it.  This file follows the
  automaton; EndlessParsers.dfy follows the parser.
*/
module Endless {
  import opened Grammars
  import opened Automata
  import opened FirstSets
  import opened Configlist
  import opened FollowSets
  import opened Lookaheads
  import opened Actions

  // ----- the grammar ---------------------------------------------------------------------------

  /** Tokens: a is 1, b is 2.  Code 3 is the error symbol; P is 4, S is 5, A is 6, C is 7, E is 8. */
  function EndlessGrammar(): Grammar {
    Grammar(3, 9, 4,
      [Rule(4, [Nonterminal(5)], None), Rule(5, [Nonterminal(6), Nonterminal(7), Nonterminal(5)], None),
       Rule(5, [Terminal(1)], None), Rule(6, [Nonterminal(8)], None), Rule(8, [], None),
       Rule(7, [Terminal(2)], None), Rule(7, [Nonterminal(8)], None)],
      seq(9, _ => -1), seq(9, _ => UNK))
  }

  lemma EndlessRules()
    ensures var g := EndlessGrammar();
            && g.nterminal == 3 && g.nsymbol == 9 && g.start == 4 && |g.rules| == 7
            && g.rules[0] == Rule(4, [Nonterminal(5)], None)
            && g.rules[1] == Rule(5, [Nonterminal(6), Nonterminal(7), Nonterminal(5)], None)
            && g.rules[2] == Rule(5, [Terminal(1)], None) && g.rules[3] == Rule(6, [Nonterminal(8)], None)
            && g.rules[4] == Rule(8, [], None) && g.rules[5] == Rule(7, [Terminal(2)], None)
            && g.rules[6] == Rule(7, [Nonterminal(8)], None)
  {
  }

  lemma EndlessWellFormed()
    ensures EndlessGrammar().WellFormed()
  {
  }

  // ----- flags and first sets ----------------------------------------------------------------------

  function EndlessSets(): seq<set<nat>> {
    [{}, {}, {}, {}, {1}, {1}, {}, {2}, {}]
  }

  lemma EndlessSatisfied(lambda: seq<bool>, r: nat)
    requires |lambda| == 9 && !lambda[5] && !lambda[6] && !lambda[7] && r < 7
    ensures RuleSatisfied(EndlessGrammar(), lambda, EndlessSets(), r)
  {
  }

  /** Only E is flagged; S begins with a and C with b. */
  lemma EndlessFirst(e: Env)
    requires EnvOk(e) && e.g == EndlessGrammar()
    ensures |e.lambda| == |e.first| == 9 && !e.lambda[5] && !e.lambda[6] && !e.lambda[7]
    ensures e.first[5] == {1} && e.first[7] == {2}
  {
    hide EndlessGrammar, EndlessSets;
    EndlessRules();
    assert !DirectlyEmpty(e.g, 5) && !DirectlyEmpty(e.g, 6) && !DirectlyEmpty(e.g, 7);
    var h := EndlessSets();
    assert Solution(e.g, e.lambda, h) by {
      EndlessSetsAt();
      forall r | 0 <= r < |e.g.rules| ensures RuleSatisfied(e.g, e.lambda, h, r) { EndlessSatisfied(e.lambda, r); }
    }
    EndlessSetsAt();
    assert Below(e.first, h);
    assert RuleSatisfied(e.g, e.lambda, e.first, 2) && RuleSatisfied(e.g, e.lambda, e.first, 5);
  }

  lemma EndlessSetsAt()
    ensures |EndlessSets()| == 9 && EndlessSets()[5] == {1} && EndlessSets()[7] == {2}
  {
  }

  /** The tokens behind A begin C, and those behind C begin S. */
  lemma EndlessBehind(e: Env)
    requires EnvOk(e) && e.g == EndlessGrammar()
    ensures var xs := Behind(e.g, Item(1, 0));
            SuffixFirst(e.lambda, e.first, xs) == {2} && !AllLambda(e.lambda, xs)
    ensures var xs := Behind(e.g, Item(1, 1));
            SuffixFirst(e.lambda, e.first, xs) == {1} && !AllLambda(e.lambda, xs)
  {
    EndlessFirst(e);
    hide EnvOk;
    assert Behind(e.g, Item(1, 0))[0] == Nonterminal(7) && Behind(e.g, Item(1, 1))[0] == Nonterminal(5);
  }

  /** What is ahead of the empty rule depends on where E is expected. */
  lemma EndlessAhead(e: Env, d: Deriv)
    requires EnvOk(e) && e.g == EndlessGrammar() && Derivation(e.g, d) && What(d) == Item(4, 0)
    ensures d.Predict? && What(d.d) in {Item(3, 0), Item(6, 0)}
    ensures Ahead(e, d) == if What(d.d) == Item(3, 0) then {2} else {1}
  {
    hide EndlessGrammar, EnvOk, AllLambda, SuffixFirst;
    EndlessRules();
    assert d.Predict? && What(d.d) in {Item(3, 0), Item(6, 0)} && Behind(e.g, What(d.d)) == [];
    EmptySuffix(e);
    EndlessExpected(e, d.d);
  }

  lemma EndlessExpected(e: Env, p: Deriv)
    requires EnvOk(e) && e.g == EndlessGrammar() && Derivation(e.g, p) && What(p) in {Item(3, 0), Item(6, 0)}
    ensures Ahead(e, p) == if What(p) == Item(3, 0) then {2} else {1}
  {
    hide EndlessGrammar, EnvOk, AllLambda, SuffixFirst;
    EndlessRules();
    assert p.Predict?;
    EndlessBehind(e);
    assert What(p.d) == if What(p) == Item(3, 0) then Item(1, 0) else Item(1, 1);
  }

  lemma EmptySuffix(e: Env)
    ensures SuffixFirst(e.lambda, e.first, []) == {} && AllLambda(e.lambda, [])
  {
  }

  // ----- the states -----------------------------------------------------------------------------

  /** The items of the state with the one kernel item k. */
  function Spread(k: Item): set<Item> {
    if k == Item(0, 0) || k == Item(1, 2) then {k, Item(1, 0), Item(2, 0), Item(3, 0), Item(4, 0)}
    else if k == Item(1, 1) then {k, Item(5, 0), Item(6, 0), Item(4, 0)}
    else {k}
  }

  /** The kernel items: the start item, and those with the dot behind a symbol. */
  predicate IsKernel(k: Item) {
    k == Item(0, 0) || (k.dot > 0 && ValidItem(EndlessGrammar(), k))
  }

  lemma EndlessSpread(k: Item, items: set<Item>)
    requires IsKernel(k) && IsClosure(EndlessGrammar(), {k}, items)
    ensures items == Spread(k)
  {
    hide EndlessGrammar;
    EndlessRules();
    var g := EndlessGrammar();
    assert Closed(g, Spread(k));
    assert items <= Spread(k);
    if k == Item(0, 0) || k == Item(1, 2) {
      assert Predicts(g, k, Item(1, 0)) && Predicts(g, k, Item(2, 0));
      assert Predicts(g, Item(1, 0), Item(3, 0));
      assert Predicts(g, Item(3, 0), Item(4, 0));
    }
    if k == Item(1, 1) {
      assert Predicts(g, k, Item(5, 0)) && Predicts(g, k, Item(6, 0));
      assert Predicts(g, Item(6, 0), Item(4, 0));
    }
  }

  /** In such a state no two items have the same symbol after the dot. */
  lemma EndlessNext(k: Item, p: Item, q: Item, x: Symbol)
    requires IsKernel(k) && p in Spread(k) && q in Spread(k)
    requires Automata.Next(EndlessGrammar(), p, x) && Automata.Next(EndlessGrammar(), q, x)
    ensures p == q && IsKernel(Advance(p))
  {
    hide EndlessGrammar;
    EndlessRules();
  }

  lemma EndlessStart()
    ensures StartItems(EndlessGrammar()) == {Item(0, 0)}
  {
    hide EndlessGrammar;
    EndlessRules();
  }

  ghost predicate OneKernel(m: Machine, s: nat, k: Item) {
    s < |m.kernel| && s < |m.items| && m.kernel[s] == {k} && m.items[s] == Spread(k) && IsKernel(k)
  }

  /** Every state has one kernel item. */
  lemma {:induction false} EndlessState(m: Machine, s: nat) returns (k: Item)
    requires IsLR0(EndlessGrammar(), m) && MadeInOrder(EndlessGrammar(), m) && s < |m.items|
    ensures OneKernel(m, s, k) && (s == 0 <==> k == Item(0, 0))
  {
    hide EndlessGrammar, Spread;
    var g := EndlessGrammar();
    assert StateOk(g, m, s);
    if s == 0 {
      EndlessStart();
      k := Item(0, 0);
    } else {
      assert HasMaker(g, m, s);
      var p: nat, x :| p < s && Parent(g, m, p, x, s);
      var j := EndlessState(m, p);
      k :| k in m.kernel[s];
      var it :| it in m.items[p] && Automata.Next(g, it, x) && Advance(it) == k;
      forall q | q in m.items[p] && Automata.Next(g, q, x) ensures q == it { EndlessNext(j, it, q, x); }
      EndlessNext(j, it, it, x);
      assert m.kernel[s] == {k};
    }
    EndlessSpread(k, m.items[s]);
  }

  // ----- the lookaheads -----------------------------------------------------------------------------

  /** The empty rule has the token b ahead where A is expected, and a where C is expected. */
  lemma EndlessLookahead(e: Env, m: Machine, s: nat, k: Item, a: nat)
    requires EnvOk(e) && e.g == EndlessGrammar() && LaExact(e, m) && LaClosed(e, m) && IsLR0(e.g, m)
    requires OneKernel(m, s, k)
    requires s < |m.la| && Item(4, 0) in m.la[s] && a in m.la[s][Item(4, 0)]
    ensures if k == Item(1, 1) then a == 1 else a == 2
  {
    hide EndlessGrammar, EnvOk, LaClosed, IsLR0, Walk, Ahead;
    EndlessRules();
    assert Foreseen(e, m, Cfg(s, Item(4, 0)), a);
    var d :| DerivedAt(e.g, m, s, Item(4, 0), d) && a in Ahead(e, d);
    EndlessAhead(e, d);
    var u := DerivedIsThere(e, m, d.d);
    WalkUnique(e.g, m, Where(e.g, d), s, u);
  }

  // ----- no conflicts ---------------------------------------------------------------------------------

  lemma EndlessSymbols(k: Item, p: Item, q: Item, x: Symbol, y: Symbol, a: nat)
    requires IsKernel(k) && p in Spread(k) && q in Spread(k) && Matches(x, a) && Matches(y, a)
    requires Automata.Next(EndlessGrammar(), p, x) && Automata.Next(EndlessGrammar(), q, y)
    ensures x == y && a != 4 && a != 0
    ensures a < 3 ==> if k == Item(1, 1) then a == 2 else a == 1
  {
    hide EndlessGrammar;
    EndlessRules();
  }

  lemma EndlessEdge(m: Machine, s: nat, k: Item, a: nat, u: nat) returns (p: Item, x: Symbol)
    requires OneKernel(m, s, k) && Edge(EndlessGrammar(), m, s, a, u)
    ensures p in Spread(k) && Automata.Next(EndlessGrammar(), p, x) && Matches(x, a)
    ensures u < |m.kernel| && m.kernel[u] == Goto(EndlessGrammar(), m.items[s], x)
  {
    hide EndlessGrammar, Spread;
    x :| Matches(x, a) && m.kernel[u] == Goto(EndlessGrammar(), m.items[s], x) != {};
    var it :| it in Goto(EndlessGrammar(), m.items[s], x);
    p :| p in m.items[s] && Automata.Next(EndlessGrammar(), p, x) && Advance(p) == it;
  }

  /** The complete items of a state. */
  lemma EndlessComplete(k: Item, r: nat)
    requires IsKernel(k) && r < 7 && Item(r, |EndlessGrammar().rules[r].rhs|) in Spread(k)
    ensures |EndlessGrammar().rules| == 7
    ensures if k == Item(0, 0) || k == Item(1, 1) || k == Item(1, 2) then r == 4
            else r == k.rule && forall p, x :: p in Spread(k) ==> !Automata.Next(EndlessGrammar(), p, x)
  {
    hide EndlessGrammar;
    EndlessRules();
  }

  lemma EndlessRaw(e: Env, m: Machine, s: nat, k: Item, x: Action, y: Action)
    requires EnvOk(e) && e.g == EndlessGrammar() && LaExact(e, m) && LaClosed(e, m) && IsLR0(e.g, m)
    requires OneKernel(m, s, k)
    requires s < |m.items| == |m.la| && (s == 0 <==> k == Item(0, 0))
    requires IsRaw(e.g, m, s, x) && IsRaw(e.g, m, s, y) && x.sp == y.sp && (x.kind == SHIFT || y.kind != SHIFT)
    ensures x == y
  {
    hide EndlessGrammar, EnvOk, LaClosed, LaExact, IsLR0, Spread, Edge, IsKernel;
    EndlessRules();
    if x.kind == SHIFT {
      var p, b := EndlessEdge(m, s, k, x.sp, x.arg);
      if y.kind == SHIFT {
        var q, c := EndlessEdge(m, s, k, y.sp, y.arg);
        EndlessSymbols(k, p, q, b, c, x.sp);
        OneState(e.g, m, x.arg, y.arg);
      } else {
        EndlessSymbols(k, p, p, b, b, x.sp);
        if y.kind == REDUCE {
          EndlessComplete(k, y.arg);
          EndlessLookahead(e, m, s, k, x.sp);
          assert false;
        }
      }
    } else if x.kind == REDUCE && y.kind == REDUCE {
      EndlessComplete(k, x.arg);
      EndlessComplete(k, y.arg);
    }
  }

  lemma OneState(g: Grammar, m: Machine, s: nat, u: nat)
    requires IsLR0(g, m) && s < |m.kernel| && u < |m.kernel| && m.kernel[s] == m.kernel[u]
    ensures s == u
  {
  }

  /** No state has two actions on one symbol. */
  lemma EndlessConflictFree(e: Env, m: Machine)
    requires EnvOk(e) && e.g == EndlessGrammar() && IsLR0(e.g, m) && MadeInOrder(e.g, m)
    requires LaClosed(e, m) && LaExact(e, m) && |m.items| == |m.la|
    ensures ConflictFree(e.g, m)
  {
    hide EndlessGrammar, EnvOk, LaClosed, LaExact, IsLR0, MadeInOrder, OneKernel, IsRaw;
    forall s: nat, x, y {:trigger IsRaw(e.g, m, s, x), IsRaw(e.g, m, s, y)} |
      s < |m.items| && IsRaw(e.g, m, s, x) && IsRaw(e.g, m, s, y) && x.sp == y.sp ensures x == y {
      var k := EndlessState(m, s);
      if x.kind == SHIFT || y.kind != SHIFT {
        EndlessRaw(e, m, s, k, x, y);
      } else {
        EndlessRaw(e, m, s, k, y, x);
      }
    }
  }
}
