/**
  A grammar with a lookahead that is missed, and what becomes of its parser.

  S goes to C A t, C to c, A to B, and B to the empty string.  A is nullable but has no
  empty rule, so the flags miss it, and with it the token t behind C.
*/
module Gap {
  import opened Grammars
  import opened Automata
  import opened FirstSets
  import opened FollowSets
  import opened Configlist
  import opened FindStates
  import opened Lookaheads
  import opened Lalr

  function GapGrammar(): Grammar {
    Grammar(3, 7, 3,
      [Rule(3, [Nonterminal(4), Nonterminal(5), Terminal(2)], None), Rule(4, [Terminal(1)], None),
       Rule(5, [Nonterminal(6)], None), Rule(6, [], None)],
      seq(7, _ => -1), seq(7, _ => UNK))
  }

  lemma GapRules()
    ensures var g := GapGrammar();
            && g.nterminal == 3 && g.nsymbol == 7 && g.start == 3 && |g.rules| == 4
            && g.rules[0] == Rule(3, [Nonterminal(4), Nonterminal(5), Terminal(2)], None)
            && g.rules[1] == Rule(4, [Terminal(1)], None)
            && g.rules[2] == Rule(5, [Nonterminal(6)], None) && g.rules[3] == Rule(6, [], None)
  {
  }

  lemma GapWellFormed()
    ensures GapGrammar().WellFormed()
  {
  }

  /** The empty tree of A. */
  lemma GapA() returns (a: Tree)
    ensures ValidTree(GapGrammar(), a) && Root(GapGrammar(), a) == 5 && Frontier(a) == []
  {
    hide GapGrammar;
    GapRules();
    var g := GapGrammar();
    var b := Node(3, []);
    assert Roots(g, []) == [] && ValidTree(g, b) && Root(g, b) == 6 && Frontier(b) == [];
    a := Node(2, [b]);
    assert Roots(g, [b]) == [6] && [b][1..] == [];
    assert ValidTrees(g, [b]);
  }

  /** A nullable nonterminal without an empty rule of its own is missed by the flags. */
  lemma LambdaCanMiss(lambda: seq<bool>)
    requires LambdaFor(GapGrammar(), lambda)
    ensures GapGrammar().WellFormed() && !lambda[5] && Derives(GapGrammar(), 5, [])
    ensures !EmptyByRule(GapGrammar())
  {
    GapWellFormed();
    var a := GapA();
    hide GapGrammar;
    GapRules();
    assert !DirectlyEmpty(GapGrammar(), 5);
    assert Derives(GapGrammar(), 5, []);
  }

  /** The flag of A is not set, and its first set is empty. */
  lemma GapFirst(e: Env)
    requires EnvOk(e) && e.g == GapGrammar()
    ensures |e.lambda| == |e.first| == 7 && !e.lambda[5] && e.first[5] == {}
  {
    hide GapGrammar;
    GapRules();
    var h: seq<set<nat>> := [{}, {}, {}, {1}, {1}, {}, {}];
    assert Solution(e.g, e.lambda, h) by {
      forall r | 0 <= r < |e.g.rules| ensures RuleSatisfied(e.g, e.lambda, h, r) { GapSatisfied(e, h, r); }
    }
    assert Below(e.first, h);
    assert !DirectlyEmpty(e.g, 5);
  }

  lemma GapSatisfied(e: Env, h: seq<set<nat>>, r: nat)
    requires e.g == GapGrammar() && |e.lambda| == 7 && h == [{}, {}, {}, {1}, {1}, {}, {}] && r < 4
    requires !e.lambda[4] && !e.lambda[5]
    ensures RuleSatisfied(e.g, e.lambda, h, r)
  {
  }

  // ----- the lookahead that is missed -------------------------------------------------------------

  lemma GapBehind(e: Env)
    requires EnvOk(e) && e.g == GapGrammar()
    ensures var xs := Behind(e.g, Item(0, 0));
            xs == [Nonterminal(5), Terminal(2)] && SuffixFirst(e.lambda, e.first, xs) == {} && !AllLambda(e.lambda, xs)
  {
    GapFirst(e);
    hide EnvOk;
    var xs := Behind(e.g, Item(0, 0));
    assert xs == [Nonterminal(5), Terminal(2)] && xs[1].Terminal?;
  }

  /** No token is foreseen behind C. */
  lemma {:induction false} GapAhead(e: Env, d: Deriv)
    requires EnvOk(e) && e.g == GapGrammar() && Derivation(e.g, d) && What(d).rule == 1
    ensures Ahead(e, d) == {}
  {
    hide GapGrammar, EnvOk, AllLambda, SuffixFirst;
    GapRules();
    match d
    case Begin(_) =>
    case Over(p) => GapAhead(e, p);
    case Predict(p, _) =>
      assert What(p) == Item(0, 0);
      GapBehind(e);
  }

  function GapDeriv(): Deriv {
    Over(Predict(Begin(0), 1))
  }

  /** Behind the first symbol of S the token t can follow, where A vanishes. */
  lemma GapTrulyAhead()
    ensures Derivation(GapGrammar(), GapDeriv()) && What(GapDeriv()) == Item(1, 1)
    ensures Where(GapGrammar(), GapDeriv()) == [Terminal(1)] && TrulyAhead(GapGrammar(), GapDeriv(), 2)
  {
    var g := GapGrammar();
    var xs := Behind(g, Item(0, 0));
    assert xs == [Nonterminal(5), Terminal(2)];
    assert CanBegin(g, xs, 2) by { GapBegins(); }
    assert TrulyAhead(g, Predict(Begin(0), 1), 2);
    assert Where(g, Predict(Begin(0), 1)) == [];
  }

  lemma GapBegins()
    ensures CanBegin(GapGrammar(), [Nonterminal(5), Terminal(2)], 2)
  {
    hide GapGrammar;
    GapRules();
    var g := GapGrammar();
    var a := GapA();
    var ts := [a, Leaf(2)];
    assert ts[1..] == [Leaf(2)];
    FrontiersSingle(Leaf(2));
    assert Roots(g, ts) == [5, 2];
    assert ValidTrees(g, ts) && Frontiers(ts) == Frontier(a) + Frontiers([Leaf(2)]);
    assert Yield(g, [Nonterminal(5), Terminal(2)], ts, [2]);
  }

  /** The item C -> c . of state s has no lookaheads at all. */
  ghost predicate Blind(m: Machine, s: nat) {
    s < |m.la| && Item(1, 1) in m.la[s] && m.la[s][Item(1, 1)] == {}
  }

  /** The automaton has such a state behind c, where t is a lookahead. */
  lemma GapState(e: Env, m: Machine) returns (s: nat)
    requires EnvOk(e) && e.g == GapGrammar() && IsLR0(e.g, m) && LaClosed(e, m) && LaExact(e, m)
    ensures Blind(m, s) && Walk(e.g, m, [Terminal(1)], s) && Lookahead(e.g, m, Cfg(s, Item(1, 1)), 2)
  {
    hide GapGrammar, EnvOk, IsLR0, LaClosed, Walk;
    GapTrulyAhead();
    s := DerivedIsThere(e, m, GapDeriv());
    assert DerivedAt(e.g, m, s, Item(1, 1), GapDeriv());
    forall a | a in m.la[s][Item(1, 1)] ensures false {
      assert Foreseen(e, m, Cfg(s, Item(1, 1)), a);
      var d :| DerivedAt(e.g, m, s, Item(1, 1), d) && a in Ahead(e, d);
      GapAhead(e, d);
      assert false;
    }
  }

  /** On this grammar the lookaheads of the generator are not the LALR(1) lookaheads. */
  lemma GapMissesLookahead(e: Env, states: seq<State>, links: Links, fws0: Sets, fws: Sets)
    requires EnvOk(e) && e.g == GapGrammar() && Followed(e, states, links, fws0, fws)
    ensures LaShaped(MachineOf(states, fws)) && !IsLALR1(e.g, MachineOf(states, fws))
    ensures exists s ::
              Blind(MachineOf(states, fws), s) && Lookahead(e.g, MachineOf(states, fws), Cfg(s, Item(1, 1)), 2)
  {
    hide GapGrammar, EnvOk, Followed, MachineOf, Lookahead, IsLR0, LaClosed, LaExact;
    FinalMachine(e, states, links, fws0, fws);
    LookaheadsExact(e, states, links, fws0, fws);
    var s := GapState(e, MachineOf(states, fws));
  }
}
