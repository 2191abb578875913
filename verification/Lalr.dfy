/**
  What the computed lookaheads are worth against the LALR(1) lookaheads, which are
  defined by parse trees, without lambda flags and first sets.

  A computed lookahead always is a true one.  A true one can be missing, because the
  flags miss a nonterminal that goes to the empty string only through others.
*/
module Lalr {
  import opened Grammars
  import opened Automata
  import opened FirstSets
  import opened FollowSets
  import opened Configlist
  import opened FindStates
  import opened Lookaheads

  // ----- the tokens ahead, by parse trees --------------------------------------------------------

  /** Trees for the symbols, side by side, have this frontier. */
  ghost predicate Yield(g: Grammar, xs: seq<Symbol>, ts: seq<Tree>, form: seq<nat>) {
    MatchAll(xs, Roots(g, ts)) && ValidTrees(g, ts) && Frontiers(ts) == form
  }

  /** The symbols derive a form that begins with the token. */
  ghost predicate CanBegin(g: Grammar, xs: seq<Symbol>, a: nat) {
    g.IsToken(a) && exists ts, form :: form != [] && form[0] == a && Yield(g, xs, ts, form)
  }

  /** The symbols derive the empty string. */
  ghost predicate CanVanish(g: Grammar, xs: seq<Symbol>) {
    exists ts :: Yield(g, xs, ts, [])
  }

  /** The token can follow the rule of the derived item. */
  ghost predicate TrulyAhead(g: Grammar, d: Deriv, a: nat)
    requires Derivation(g, d)
  {
    match d
    case Begin(_) => a == 0
    case Over(p) => TrulyAhead(g, p, a)
    case Predict(p, _) =>
      CanBegin(g, Behind(g, What(p)), a) || (CanVanish(g, Behind(g, What(p))) && TrulyAhead(g, p, a))
  }

  /** The token is an LALR(1) lookahead: it is ahead in some derivation of the item that leads to the state. */
  ghost predicate Lookahead(g: Grammar, m: Machine, c: Cfg, a: nat) {
    exists d :: DerivedAt(g, m, c.state, c.item, d) && TrulyAhead(g, d, a)
  }

  /** The machine carries exactly the LALR(1) lookaheads. */
  ghost predicate IsLALR1(g: Grammar, m: Machine)
    requires LaShaped(m)
  {
    forall s: nat, it, a :: s < |m.la| && it in m.la[s] ==> (a in m.la[s][it] <==> Lookahead(g, m, Cfg(s, it), a))
  }

  // ----- first sets and flags against trees ---------------------------------------------------------

  lemma BehindValid(g: Grammar, p: Item)
    requires g.WellFormed() && p.rule < |g.rules| && p.dot < |g.rules[p.rule].rhs|
    ensures forall i :: 0 <= i < |Behind(g, p)| ==> g.ValidSymbol(Behind(g, p)[i])
  {
    assert g.ValidRule(g.rules[p.rule]);
  }

  lemma FirstBelowMeaning(e: Env, xs: seq<Symbol>)
    requires EnvOk(e)
    ensures SuffixFirst(e.lambda, e.first, xs) <= SuffixFirst(e.lambda, Meaning(e.g, e.lambda), xs)
  {
    MeaningIsSolution(e.g, e.lambda);
    SuffixFirstMonotone(e.lambda, e.first, Meaning(e.g, e.lambda), xs);
  }

  /** A computed first token begins a derived form. */
  lemma FirstIsTrue(e: Env, xs: seq<Symbol>, a: nat)
    requires EnvOk(e) && a in SuffixFirst(e.lambda, e.first, xs)
    requires forall i :: 0 <= i < |xs| ==> e.g.ValidSymbol(xs[i])
    ensures CanBegin(e.g, xs, a)
  {
    FirstBelowMeaning(e, xs);
    var ts := SuffixTrees(e.g, e.lambda, xs, a);
    assert Yield(e.g, xs, ts, Frontiers(ts));
  }

  /** Flagged symbols derive the empty string. */
  lemma FlagsAreTrue(e: Env, xs: seq<Symbol>)
    requires EnvOk(e) && AllLambda(e.lambda, xs)
    ensures CanVanish(e.g, xs)
  {
    var ts := EmptyKids(e.g, e.lambda, xs);
    assert Yield(e.g, xs, ts, []);
  }

  /** Where every nullable nonterminal has an empty rule, the first sets and flags are complete. */
  lemma TrueIsFirst(e: Env, xs: seq<Symbol>, a: nat)
    requires EnvOk(e) && EmptyByRule(e.g) && CanBegin(e.g, xs, a)
    requires forall i :: 0 <= i < |xs| ==> e.g.ValidSymbol(xs[i])
    ensures a in SuffixFirst(e.lambda, e.first, xs)
  {
    hide EmptyByRule, LambdaClosed;
    EmptyByRuleIff(e.g, e.lambda);
    var ts, form :| form != [] && form[0] == a && Yield(e.g, xs, ts, form);
    ClosedTreesSkipIn(e.g, e.lambda, ts);
    SolutionCoversTrees(e.g, e.lambda, e.first, xs, ts);
  }

  lemma TrueIsFlagged(e: Env, xs: seq<Symbol>)
    requires EnvOk(e) && EmptyByRule(e.g) && CanVanish(e.g, xs)
    requires forall i :: 0 <= i < |xs| ==> e.g.ValidSymbol(xs[i])
    ensures AllLambda(e.lambda, xs)
  {
    hide EmptyByRule, LambdaClosed;
    EmptyByRuleIff(e.g, e.lambda);
    var ts :| Yield(e.g, xs, ts, []);
    EmptyTreesAreLambda(e.g, e.lambda, xs, ts);
  }

  // ----- derivations, step by step ---------------------------------------------------------------------

  /** What the flags foresee is truly ahead. */
  lemma {:induction false} AheadIsTrue(e: Env, d: Deriv, a: nat)
    requires EnvOk(e) && Derivation(e.g, d) && a in Ahead(e, d)
    ensures TrulyAhead(e.g, d, a)
  {
    hide EnvOk, CanBegin, CanVanish;
    match d
    case Begin(_) =>
    case Over(p) => AheadIsTrue(e, p, a);
    case Predict(p, _) =>
      var xs := Behind(e.g, What(p));
      assert forall i :: 0 <= i < |xs| ==> e.g.ValidSymbol(xs[i]) by { EnvBehind(e, What(p)); }
      if a in SuffixFirst(e.lambda, e.first, xs) {
        FirstIsTrue(e, xs, a);
      } else {
        FlagsAreTrue(e, xs);
        AheadIsTrue(e, p, a);
      }
  }

  lemma EnvBehind(e: Env, p: Item)
    requires EnvOk(e) && p.rule < |e.g.rules| && p.dot < |e.g.rules[p.rule].rhs|
    ensures forall i :: 0 <= i < |Behind(e.g, p)| ==> e.g.ValidSymbol(Behind(e.g, p)[i])
  {
    BehindValid(e.g, p);
  }

  /**
    Every computed lookahead is an LALR(1) lookahead, whatever the grammar: a token in
    the follow set of an item of a state can follow the item's rule there.
  */
  lemma LookaheadsSound(e: Env, states: seq<State>, links: Links, fws0: Sets, fws: Sets, s: nat, it: Item, a: nat)
    requires EnvOk(e) && Followed(e, states, links, fws0, fws)
    requires s < |MachineOf(states, fws).la| && it in MachineOf(states, fws).la[s]
    requires a in MachineOf(states, fws).la[s][it]
    ensures Lookahead(e.g, MachineOf(states, fws), Cfg(s, it), a)
  {
    hide EnvOk, Followed, MachineOf, Foreseen, Lookahead;
    LookaheadsExact(e, states, links, fws0, fws);
    ForeseenIsTrue(e, MachineOf(states, fws), Cfg(s, it), a);
  }

  lemma ForeseenIsTrue(e: Env, m: Machine, c: Cfg, a: nat)
    requires EnvOk(e) && Foreseen(e, m, c, a)
    ensures Lookahead(e.g, m, c, a)
  {
    hide EnvOk, Walk;
    var d :| DerivedAt(e.g, m, c.state, c.item, d) && a in Ahead(e, d);
    AheadIsTrue(e, d, a);
  }

  // ----- when none is missing ------------------------------------------------------------------------------

  /**
    The item is predicted by p in state s and should have the token from there: it can
    begin what is behind p, or all of that can vanish and p has the token itself.
  */
  ghost predicate Passed(g: Grammar, m: Machine, s: nat, p: Item, it: Item, a: nat) {
    && s < |m.la| && p in m.la[s] && it in m.la[s] && Predicts(g, p, it)
    && (CanBegin(g, Behind(g, p), a) || (CanVanish(g, Behind(g, p)) && a in m.la[s][p]))
  }

  /** The lookaheads obey the rules of propagation for true first tokens and true empty suffixes. */
  ghost predicate TrulyPropagated(g: Grammar, m: Machine) {
    forall s: nat, p, it, a :: Passed(g, m, s, p, it, a) ==> a in m.la[s][it]
  }

  /** Under the true rules the lookaheads contain whatever is truly ahead. */
  lemma {:induction false} TrueIsThere(e: Env, m: Machine, d: Deriv, a: nat) returns (s: nat)
    requires IsLR0(e.g, m) && LaClosed(e, m) && TrulyPropagated(e.g, m) && Derivation(e.g, d) && TrulyAhead(e.g, d, a)
    ensures s < |m.la| && Walk(e.g, m, Where(e.g, d), s) && What(d) in m.items[s] && What(d) in m.la[s]
    ensures a in m.la[s][What(d)]
  {
    hide Walk, LaClosed, CanBegin, CanVanish, Goto;
    LaClosedShape(e, m);
    s := DerivedIsThere(e, m, d);
    match d
    case Begin(r) =>
      assert StateOk(e.g, m, 0);
      assert Walk(e.g, m, [], 0) by { WalkNil(e.g, m); }
      WalkUnique(e.g, m, [], s, 0);
      LaClosedStart(e, m, What(d));
    case Over(p) =>
      var q := TrueIsThere(e, m, p, a);
      var x := After(e.g, What(p));
      var t := SuccessorState(e.g, m, q, What(p), x);
      WalkOn(e.g, m, Where(e.g, p), q, x, t);
      WalkUnique(e.g, m, Where(e.g, d), s, t);
      LaClosedShift(e, m, q, What(p), x, s);
    case Predict(p, r) =>
      if CanBegin(e.g, Behind(e.g, What(p)), a) {
        var q := DerivedIsThere(e, m, p);
        WalkUnique(e.g, m, Where(e.g, d), s, q);
      } else {
        var q := TrueIsThere(e, m, p, a);
        WalkUnique(e.g, m, Where(e.g, d), s, q);
      }
      assert Passed(e.g, m, s, What(p), What(d), a);
  }

  lemma LookaheadPassed(g: Grammar, m: Machine, s: nat, p: Item, it: Item, a: nat)
    requires Passed(g, m, s, p, it, a) && Derivable(g, m, s, p)
    requires a in m.la[s][p] ==> Lookahead(g, m, Cfg(s, p), a)
    ensures Lookahead(g, m, Cfg(s, it), a)
  {
    hide CanBegin, CanVanish, Walk;
    var d :| DerivedAt(g, m, s, p, d);
    if !CanBegin(g, Behind(g, p), a) {
      d :| DerivedAt(g, m, s, p, d) && TrulyAhead(g, d, a);
    }
    assert DerivedAt(g, m, s, it, Predict(d, it.rule)) && TrulyAhead(g, Predict(d, it.rule), a);
  }

  /** The facts about the final machine that the comparison needs. */
  lemma FinalMachine(e: Env, states: seq<State>, links: Links, fws0: Sets, fws: Sets)
    requires Followed(e, states, links, fws0, fws)
    ensures var m := MachineOf(states, fws); LaShaped(m) && IsLR0(e.g, m) && LaClosed(e, m)
    ensures var m := MachineOf(states, fws);
            forall s: nat, it :: s < |m.la| && it in m.la[s] ==> Derivable(e.g, m, s, it)
  {
    hide Followed, Derivable, IsLR0, GivenStays, PassedOn, ShiftedOn;
    var m := MachineOf(states, fws);
    FollowedBuilt(e, states, links, fws0, fws);
    BuiltIsLR0(e, states, m);
    LookaheadsClosed(e, states, links, fws0, fws);
    forall s: nat, it | s < |m.la| && it in m.la[s] ensures Derivable(e.g, m, s, it) {
      AllDerivable(e, states, m, s);
    }
  }

  /**
    The computed lookaheads are exactly the LALR(1) lookaheads if and only if they
    satisfy the rules of propagation for true first tokens and true empty suffixes.
  */
  lemma LookaheadsExactIff(e: Env, states: seq<State>, links: Links, fws0: Sets, fws: Sets)
    requires EnvOk(e) && Followed(e, states, links, fws0, fws)
    ensures LaShaped(MachineOf(states, fws))
    ensures IsLALR1(e.g, MachineOf(states, fws)) <==> TrulyPropagated(e.g, MachineOf(states, fws))
  {
    hide EnvOk, Followed, MachineOf, Derivable, Lookahead, LaClosed, IsLR0, Passed, LaShaped;
    var m := MachineOf(states, fws);
    FinalMachine(e, states, links, fws0, fws);
    if IsLALR1(e.g, m) {
      forall s: nat, p, it, a | Passed(e.g, m, s, p, it, a) ensures s < |m.la| && it in m.la[s] && a in m.la[s][it] {
        PassedItems(e.g, m, s, p, it, a);
        LookaheadPassed(e.g, m, s, p, it, a);
      }
    }
    if TrulyPropagated(e.g, m) {
      forall s: nat, it, a | s < |m.la| && it in m.la[s]
        ensures a in m.la[s][it] <==> Lookahead(e.g, m, Cfg(s, it), a) {
        if a in m.la[s][it] { LookaheadsSound(e, states, links, fws0, fws, s, it, a); }
        if Lookahead(e.g, m, Cfg(s, it), a) { LookaheadIsThere(e, m, s, it, a); }
      }
    }
  }

  lemma PassedItems(g: Grammar, m: Machine, s: nat, p: Item, it: Item, a: nat)
    requires Passed(g, m, s, p, it, a)
    ensures s < |m.la| && p in m.la[s] && it in m.la[s]
  {
  }

  lemma LookaheadIsThere(e: Env, m: Machine, s: nat, it: Item, a: nat)
    requires IsLR0(e.g, m) && LaClosed(e, m) && LaShaped(m) && TrulyPropagated(e.g, m)
    requires Lookahead(e.g, m, Cfg(s, it), a)
    ensures s < |m.la| && it in m.la[s] && a in m.la[s][it]
  {
    hide Walk, LaClosed, IsLR0, TrulyPropagated, TrulyAhead;
    var d :| DerivedAt(e.g, m, s, it, d) && TrulyAhead(e.g, d, a);
    var t := TrueIsThere(e, m, d, a);
    WalkUnique(e.g, m, Where(e.g, d), s, t);
  }

  // ----- grammars on which none is missing ------------------------------------------------------------------

  /** The flags that FindFirstSets computes. */
  ghost function Flags(g: Grammar): seq<bool> {
    seq(g.nsymbol, b requires 0 <= b < g.nsymbol => DirectlyEmpty(g, b))
  }

  lemma FlagsComputed(g: Grammar, lambda: seq<bool>)
    requires LambdaFor(g, lambda)
    ensures lambda == Flags(g)
  {
    hide DirectlyEmpty;
  }

  /** The symbols derive a form that begins with the token, skipping only symbols with empty rules of their own. */
  ghost predicate BeginsPlainly(g: Grammar, xs: seq<Symbol>, a: nat) {
    exists ts :: TreesBegin(g, Flags(g), xs, ts, a)
  }

  /** Whether the symbols vanish, and what they begin with, shows without skipping any other symbols. */
  ghost predicate Plain(g: Grammar, xs: seq<Symbol>) {
    && (CanVanish(g, xs) ==> AllLambda(Flags(g), xs))
    && (forall a :: CanBegin(g, xs, a) ==> BeginsPlainly(g, xs, a))
  }

  /** This is so of what stands behind the nonterminals that derivations from the start symbol predict. */
  ghost predicate SuffixesPlain(g: Grammar) {
    forall p, r :: Derivation(g, Predict(p, r)) ==> Plain(g, Behind(g, What(p)))
  }

  /** Where these suffixes are plain, the lookaheads are the LALR(1) lookaheads. */
  lemma LookaheadsAreLALR1(e: Env, states: seq<State>, links: Links, fws0: Sets, fws: Sets)
    requires EnvOk(e) && Followed(e, states, links, fws0, fws) && SuffixesPlain(e.g)
    ensures LaShaped(MachineOf(states, fws)) && IsLALR1(e.g, MachineOf(states, fws))
  {
    hide EnvOk, Followed, MachineOf, IsLR0, SuffixesPlain, IsLALR1, Passed, LaShaped, LaClosed, Derivable;
    var m := MachineOf(states, fws);
    FinalMachine(e, states, links, fws0, fws);
    forall s: nat, p, it, a | Passed(e.g, m, s, p, it, a) ensures s < |m.la| && it in m.la[s] && a in m.la[s][it] {
      PassedItems(e.g, m, s, p, it, a);
      PassedIsThere(e, m, s, p, it, a);
    }
    LookaheadsExactIff(e, states, links, fws0, fws);
  }

  lemma PassedIsThere(e: Env, m: Machine, s: nat, p: Item, it: Item, a: nat)
    requires EnvOk(e) && LaClosed(e, m) && SuffixesPlain(e.g) && Passed(e.g, m, s, p, it, a) && Derivable(e.g, m, s, p)
    ensures s < |m.la| && it in m.la[s] && a in m.la[s][it]
  {
    hide EnvOk, CanBegin, CanVanish, LaClosed, Walk;
    var xs := Behind(e.g, p);
    EnvBehind(e, p);
    LaClosedPredict(e, m, s, p, it);
    var d :| DerivedAt(e.g, m, s, p, d);
    assert Derivation(e.g, Predict(d, it.rule)) && Plain(e.g, xs);
    EnvFlags(e);
    if CanBegin(e.g, xs, a) {
      BeginsWithToken(e.g, xs, a);
      PlainlyIsFirst(e, xs, a);
    }
  }

  lemma BeginsWithToken(g: Grammar, xs: seq<Symbol>, a: nat)
    requires CanBegin(g, xs, a)
    ensures g.IsToken(a)
  {
  }

  lemma EnvFlags(e: Env)
    requires EnvOk(e)
    ensures e.lambda == Flags(e.g)
  {
    hide LeastSolution, TokenSets;
    FlagsComputed(e.g, e.lambda);
  }

  lemma PlainlyIsFirst(e: Env, xs: seq<Symbol>, a: nat)
    requires EnvOk(e) && BeginsPlainly(e.g, xs, a) && e.g.IsToken(a)
    requires forall i :: 0 <= i < |xs| ==> e.g.ValidSymbol(xs[i])
    ensures a in SuffixFirst(e.lambda, e.first, xs)
  {
    EnvFlags(e);
    var ts :| TreesBegin(e.g, Flags(e.g), xs, ts, a);
    SolutionCoversTrees(e.g, e.lambda, e.first, xs, ts);
  }

  /** An empty rule for every nullable nonterminal is enough for that. */
  lemma EmptyByRuleIsPlain(g: Grammar)
    requires g.WellFormed() && EmptyByRule(g)
    ensures SuffixesPlain(g)
  {
    hide EmptyByRule, LambdaFor, LambdaClosed, CanBegin, CanVanish;
    FlagsAreComputed(g);
    EmptyByRuleIff(g, Flags(g));
    forall p, r | Derivation(g, Predict(p, r)) ensures Plain(g, Behind(g, What(p))) {
      BehindValid(g, What(p));
      AllIsPlain(g, Behind(g, What(p)));
    }
  }

  lemma FlagsAreComputed(g: Grammar)
    ensures LambdaFor(g, Flags(g))
  {
  }

  lemma AllIsPlain(g: Grammar, xs: seq<Symbol>)
    requires g.WellFormed() && |Flags(g)| == g.nsymbol && LambdaClosed(g, Flags(g))
    requires forall i :: 0 <= i < |xs| ==> g.ValidSymbol(xs[i])
    ensures Plain(g, xs)
  {
    hide LambdaClosed, AllLambda, Flags;
    if CanVanish(g, xs) {
      var ts :| Yield(g, xs, ts, []);
      EmptyTreesAreLambda(g, Flags(g), xs, ts);
    }
    forall a | CanBegin(g, xs, a) ensures BeginsPlainly(g, xs, a) {
      var ts, form :| form != [] && form[0] == a && Yield(g, xs, ts, form);
      ClosedTreesSkipIn(g, Flags(g), ts);
      assert TreesBegin(g, Flags(g), xs, ts, a);
    }
  }

  // ----- and it is not needed ----------------------------------------------------------------------------

  /** S goes to A, A to B, and B to the empty string. */
  function ChainGrammar(): Grammar {
    Grammar(2, 6, 3, [Rule(3, [Nonterminal(4)], None), Rule(4, [Nonterminal(5)], None), Rule(5, [], None)],
            seq(6, _ => -1), seq(6, _ => UNK))
  }

  lemma ChainRules()
    ensures var g := ChainGrammar();
            && g.nsymbol == 6 && g.start == 3 && |g.rules| == 3 && g.rules[0] == Rule(3, [Nonterminal(4)], None)
            && g.rules[1] == Rule(4, [Nonterminal(5)], None) && g.rules[2] == Rule(5, [], None) && g.nterminal == 2
  {
  }

  /** A has no empty rule, but nothing stands behind it. */
  lemma ChainIsPlain()
    ensures ChainGrammar().WellFormed() && SuffixesPlain(ChainGrammar()) && !EmptyByRule(ChainGrammar())
  {
    assert ChainGrammar().WellFormed();
    hide ChainGrammar, AllLambda, Flags;
    ChainRules();
    var g := ChainGrammar();
    forall p, r | Derivation(g, Predict(p, r)) ensures Plain(g, Behind(g, What(p))) {
      assert Behind(g, What(p)) == [];
      NothingIsPlain(g);
    }
    ChainVanishes();
    assert !DirectlyEmpty(g, 4);
  }

  lemma ChainVanishes()
    ensures Derives(ChainGrammar(), 4, [])
  {
    hide ChainGrammar;
    ChainRules();
    var g := ChainGrammar();
    var b := Node(2, []);
    assert Roots(g, []) == [] && ValidTree(g, b) && Root(g, b) == 5;
    FrontiersSingle(b);
    var a := Node(1, [b]);
    assert Roots(g, [b]) == [5] && ValidTrees(g, [b]) && Frontier(a) == [];
    assert ValidTree(g, a) && Root(g, a) == 4;
  }

  lemma NothingIsPlain(g: Grammar)
    ensures Plain(g, [])
  {
    forall a ensures !CanBegin(g, [], a) { }
  }
}
