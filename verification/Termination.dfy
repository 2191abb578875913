/**
  The driver ends on every input, where the automaton has no conflicts.

  A call of the parser may reduce any number of times before it uses its token up.  The
  bound comes from other tokens.  Whatever has been reduced, some token b can follow what
  is on the stack, and had b been the token, then the driver would have made the same
  reductions, and would have ended.  There are finitely many tokens, so no call reduces
  more often than the longest of those that end.
*/
module Termination {
  import opened Grammars
  import opened Automata
  import opened FirstSets
  import opened Configlist
  import opened Lookaheads
  import opened Lalr
  import opened Lempar
  import opened Soundness
  import opened Completeness
  import opened Generator

  // ----- derivations along the stack -----------------------------------------------------------

  /** The derivation moves its dot over the entries of the stack, one after the other. */
  ghost predicate On(g: Grammar, m: Machine, stack: seq<Entry>, d: Deriv) {
    && stack != [] && Derivation(g, d)
    && match d
       case Begin(_) => |stack| == 1
       case Over(p) =>
         var n := |stack| - 1;
         && n > 0 && On(g, m, stack[..n], p) && stack[n - 1].stateno < |m.items| && stack[n].stateno < |m.kernel|
         && m.kernel[stack[n].stateno] == Goto(g, m.items[stack[n - 1].stateno], After(g, What(p)))
       case Predict(p, _) => On(g, m, stack, p)
  }

  /** The item of the derivation is in the top state, with all its tokens. */
  lemma {:induction false} OnState(e: Env, m: Machine, stack: seq<Entry>, d: Deriv)
    requires IsLR0(e.g, m) && LaClosed(e, m) && StackOk(e.g, m, stack) && On(e.g, m, stack, d)
    ensures var s := stack[|stack| - 1].stateno;
            && s < |m.la| == |m.items| && Walk(e.g, m, Where(e.g, d), s) && What(d) in m.items[s] && What(d) in m.la[s]
            && Ahead(e, d) <= m.la[s][What(d)]
  {
    hide LaClosed, Walk, IsLR0, Goto;
    var n := |stack| - 1;
    LaClosedShape(e, m);
    match d {
      case Begin(_) => WalkNil(e.g, m);
      case Over(p) =>
        PrefixKeeps(e.g, m, stack, n);
        OnState(e, m, stack[..n], p);
        var x := After(e.g, What(p));
        assert Advance(What(p)) in Goto(e.g, m.items[stack[n - 1].stateno], x) by {
          GotoHas(e.g, m.items[stack[n - 1].stateno], What(p), x);
        }
        WalkOn(e.g, m, Where(e.g, p), stack[n - 1].stateno, x, stack[n].stateno);
      case Predict(p, _) => OnState(e, m, stack, p);
    }
    var s := DerivedIsThere(e, m, d);
    WalkUnique(e.g, m, Where(e.g, d), s, stack[n].stateno);
  }

  lemma GotoHas(g: Grammar, items: set<Item>, it: Item, x: Symbol)
    requires it in items && Automata.Next(g, it, x)
    ensures Advance(it) in Goto(g, items, x)
  {
  }

  /** Where an item with the dot behind a symbol comes from. */
  lemma StackBack(g: Grammar, m: Machine, stack: seq<Entry>, r: nat, i: nat)
    requires IsLR0(g, m) && StackOk(g, m, stack) && i > 0
    requires stack[|stack| - 1].stateno < |m.items| && Item(r, i) in m.items[stack[|stack| - 1].stateno]
    ensures var n := |stack| - 1;
            && n > 0 && StackOk(g, m, stack[..n]) && r < |g.rules| && i <= |g.rules[r].rhs|
            && stack[n - 1].stateno < |m.items| && Item(r, i - 1) in m.items[stack[n - 1].stateno]
            && stack[n].stateno < |m.kernel|
            && m.kernel[stack[n].stateno] == Goto(g, m.items[stack[n - 1].stateno], g.rules[r].rhs[i - 1])
  {
    hide IsLR0, StateOk;
    var n := |stack| - 1;
    OneBack(g, m, stack, r, i);
    assert EntryOk(g, m, stack[n - 1], stack[n]);
    EdgeSymbol(g, m, stack[n - 1].stateno, stack[n].major, stack[n].stateno, r, i);
  }

  lemma EdgeSymbol(g: Grammar, m: Machine, s: int, a: nat, t: int, r: nat, i: nat)
    requires IsLR0(g, m) && Edge(g, m, s, a, t) && t < |m.items| && Item(r, i) in m.items[t] && i > 0
    requires r < |g.rules| && i <= |g.rules[r].rhs|
    ensures m.kernel[t] == Goto(g, m.items[s], g.rules[r].rhs[i - 1])
  {
    assert StateOk(g, m, t);
    var x :| Matches(x, a) && m.kernel[t] == Goto(g, m.items[s], x) != {};
    if Item(r, i) !in m.kernel[t] { ClosureOrigin(g, m.kernel[t], m.items[t], Item(r, i)); }
  }

  /** Every item of the top state has a derivation along the stack. */
  lemma {:induction false} DerivesOn(e: Env, m: Machine, stack: seq<Entry>, it: Item) returns (d: Deriv)
    requires e.g.WellFormed() && IsLR0(e.g, m) && StackOk(e.g, m, stack)
    requires stack[|stack| - 1].stateno < |m.items| && it in m.items[stack[|stack| - 1].stateno]
    ensures On(e.g, m, stack, d) && What(d) == it
    decreases |stack|
  {
    hide IsLR0, Goto;
    var s := stack[|stack| - 1].stateno;
    StateIsOk(e.g, m, s);
    forall k | k in m.kernel[s] ensures HasDeriv(e.g, m, stack, k) { KernelDerives(e, m, stack, k); }
    var derived := set k | k in m.items[s] && HasDeriv(e.g, m, stack, k);
    assert Closed(e.g, derived) by {
      forall p, k | p in derived && Predicts(e.g, p, k) ensures k in derived { DerivesPredicted(e.g, m, stack, p, k); }
    }
    assert m.items[s] <= derived;
    d :| On(e.g, m, stack, d) && What(d) == it;
  }

  ghost predicate HasDeriv(g: Grammar, m: Machine, stack: seq<Entry>, it: Item) {
    exists d :: On(g, m, stack, d) && What(d) == it
  }

  lemma StateIsOk(g: Grammar, m: Machine, s: nat)
    requires IsLR0(g, m) && s < |m.items|
    ensures s < |m.kernel| && StateOk(g, m, s)
  {
  }

  lemma DerivesPredicted(g: Grammar, m: Machine, stack: seq<Entry>, p: Item, it: Item)
    requires HasDeriv(g, m, stack, p) && Predicts(g, p, it)
    ensures HasDeriv(g, m, stack, it)
  {
    var d :| On(g, m, stack, d) && What(d) == p;
    assert On(g, m, stack, Predict(d, it.rule));
  }

  lemma {:induction false} KernelDerives(e: Env, m: Machine, stack: seq<Entry>, it: Item)
    requires e.g.WellFormed() && IsLR0(e.g, m) && StackOk(e.g, m, stack)
    requires stack[|stack| - 1].stateno < |m.kernel| && it in m.kernel[stack[|stack| - 1].stateno]
    ensures HasDeriv(e.g, m, stack, it)
    decreases |stack|, 0
  {
    hide IsLR0, Goto;
    var n := |stack| - 1;
    var s := stack[n].stateno;
    assert |m.kernel| == |m.items| && m.kernel[0] == StartItems(e.g) by { LR0Start(e.g, m); }
    StateIsOk(e.g, m, s);
    KernelInItems(e.g, m, s, it);
    if it.dot == 0 {
      assert s == 0;
      OnlyBottomIsZero(e.g, m, stack, n);
      assert On(e.g, m, stack, Begin(it.rule));
    } else {
      StackBack(e.g, m, stack, it.rule, it.dot);
      var d := DerivesOn(e, m, stack[..n], Item(it.rule, it.dot - 1));
      assert On(e.g, m, stack, Over(d));
    }
  }

  lemma LR0Start(g: Grammar, m: Machine)
    requires IsLR0(g, m)
    ensures |m.kernel| == |m.items| > 0 && m.kernel[0] == StartItems(g)
  {
  }

  // ----- what is due ------------------------------------------------------------------------------

  /** The symbols behind the dot. */
  function Rest(g: Grammar, d: Deriv): seq<Symbol>
    requires What(d).rule < |g.rules| && What(d).dot <= |g.rules[What(d).rule].rhs|
  {
    g.rules[What(d).rule].rhs[What(d).dot..]
  }

  lemma {:induction false} DerivInRange(g: Grammar, d: Deriv)
    requires Derivation(g, d)
    ensures What(d).rule < |g.rules| && What(d).dot <= |g.rules[What(d).rule].rhs|
  {
    match d
    case Begin(_) =>
    case Over(p) => DerivInRange(g, p);
    case Predict(p, _) => DerivInRange(g, p);
  }

  /** Token b can come next: it begins the rest of the rule, or the rest vanishes and b is ahead. */
  ghost predicate Coming(e: Env, d: Deriv, b: nat) {
    && Derivation(e.g, d) && What(d).rule < |e.g.rules| && What(d).dot <= |e.g.rules[What(d).rule].rhs|
    && (|| b in SuffixFirst(e.lambda, e.first, Rest(e.g, d))
        || (AllLambda(e.lambda, Rest(e.g, d)) && b in Ahead(e, d)))
  }

  lemma RestOfPredictor(e: Env, p: Deriv, r: nat)
    requires EnvOk(e) && Derivation(e.g, Predict(p, r))
    ensures What(p).rule < |e.g.rules| && What(p).dot < |e.g.rules[What(p).rule].rhs|
    ensures var c := e.g.rules[r].lhs;
            && c < |e.lambda| == |e.first| && Rest(e.g, p) == [Nonterminal(c)] + Behind(e.g, What(p))
            && (AllLambda(e.lambda, Rest(e.g, p)) <==> e.lambda[c] && AllLambda(e.lambda, Behind(e.g, What(p))))
            && SuffixFirst(e.lambda, e.first, Rest(e.g, p)) ==
                 e.first[c] + if e.lambda[c] then SuffixFirst(e.lambda, e.first, Behind(e.g, What(p))) else {}
  {
    hide LeastSolution, LambdaFor, TokenSets;
    assert EnvSizes(e) by { EnvHasSizes(e); }
    assert e.g.ValidRule(e.g.rules[r]);
    var xs := Rest(e.g, p);
    assert xs[0] == Nonterminal(e.g.rules[r].lhs) && xs[1..] == Behind(e.g, What(p));
    assert xs == [xs[0]] + xs[1..];
    AllLambdaCons(e.lambda, xs);
  }

  ghost predicate EnvSizes(e: Env) {
    |e.lambda| == |e.first| == e.g.nsymbol
  }

  lemma EnvHasSizes(e: Env)
    requires EnvOk(e)
    ensures EnvSizes(e)
  {
  }

  lemma AllLambdaCons(lambda: seq<bool>, xs: seq<Symbol>)
    requires xs != []
    ensures AllLambda(lambda, xs) <==> AllLambda(lambda, [xs[0]]) && AllLambda(lambda, xs[1..])
  {
    forall i | 0 <= i < |xs| && AllLambda(lambda, [xs[0]]) && AllLambda(lambda, xs[1..])
      ensures xs[i].Nonterminal? && xs[i].id < |lambda| && lambda[xs[i].id] {
      if i > 0 { assert xs[1..][i - 1] == xs[i]; } else { assert [xs[0]][0] == xs[0]; }
    }
    if AllLambda(lambda, xs) {
      forall i | 0 <= i < |xs| - 1 ensures xs[1..][i] == xs[i + 1] { }
    }
  }

  /** What can come behind a predicted rule's dot can come at its predictor. */
  lemma ComingBack(e: Env, p: Deriv, r: nat, b: nat)
    requires EnvOk(e) && LambdaClosed(e.g, e.lambda) && Coming(e, Predict(p, r), b)
    ensures Coming(e, p, b)
  {
    hide LambdaFor, TokenSets, SuffixFirst, AllLambda;
    RestOfPredictor(e, p, r);
    assert e.g.rules[r].rhs[0..] == e.g.rules[r].rhs;
    assert RuleSatisfied(e.g, e.lambda, e.first, r);
  }

  /** At the end of a rule what comes is what is ahead. */
  lemma ComingAtEnd(e: Env, d: Deriv, b: nat)
    requires Derivation(e.g, d) && What(d).rule < |e.g.rules| && What(d).dot == |e.g.rules[What(d).rule].rhs|
    ensures Coming(e, d, b) <==> b in Ahead(e, d)
  {
    assert Rest(e.g, d) == [];
  }

  /** What comes behind a symbol is ahead of the rules predicted for it. */
  lemma ComingOver(e: Env, p: Deriv, r: nat, b: nat)
    requires Derivation(e.g, Over(p)) && Derivation(e.g, Predict(p, r))
    ensures Coming(e, Over(p), b) <==> b in Ahead(e, Predict(p, r))
  {
    assert Rest(e.g, Over(p)) == Behind(e.g, What(p));
  }

  // ----- undoing a reduction ------------------------------------------------------------------------

  /** Behind the entries of a rule's symbols the dot is at the end, with the same tokens ahead. */
  lemma {:induction false} DotToTop(e: Env, m: Machine, stack: seq<Entry>, r: nat, i: nat, d0: Deriv) returns (d: Deriv)
    requires IsLR0(e.g, m) && StackOk(e.g, m, stack) && i < |stack|
    requires stack[|stack| - 1].stateno < |m.items| && Item(r, i) in m.items[stack[|stack| - 1].stateno]
    requires On(e.g, m, stack[..|stack| - i], d0) && What(d0) == Item(r, 0)
    ensures On(e.g, m, stack, d) && What(d) == Item(r, i) && Ahead(e, d) == Ahead(e, d0)
    decreases i
  {
    hide IsLR0, StackOk, Goto;
    if i == 0 {
      assert stack[..|stack|] == stack;
      d := d0;
    } else {
      var n := |stack| - 1;
      StackBack(e.g, m, stack, r, i);
      assert stack[..n][..n - (i - 1)] == stack[..|stack| - i];
      var p := DotToTop(e, m, stack[..n], r, i - 1, d0);
      d := Over(p);
    }
  }

  /** The derivation of what was pushed leads back to the item that expected it. */
  lemma {:induction false} BackToOver(e: Env, m: Machine, stack: seq<Entry>, d: Deriv, b: nat) returns (p: Deriv)
    requires EnvOk(e) && LambdaClosed(e.g, e.lambda) && On(e.g, m, stack, d) && |stack| > 1 && Coming(e, d, b)
    ensures On(e.g, m, stack, Over(p)) && Coming(e, Over(p), b)
    decreases d
  {
    hide EnvOk, LambdaClosed, Coming;
    match d
    case Over(q) => p := q;
    case Predict(q, r) =>
      ComingBack(e, q, r, b);
      p := BackToOver(e, m, stack, q, b);
  }

  /** Two ways to the same state move over the same symbol. */
  lemma SameSymbol(g: Grammar, items: set<Item>, x: Symbol, y: Symbol)
    requires Goto(g, items, x) == Goto(g, items, y) != {}
    ensures x == y
  {
    var it :| it in Goto(g, items, x);
  }

  /** The stack before a reduction by rule r, and after it. */
  ghost predicate Reduces(g: Grammar, m: Machine, stack: seq<Entry>, r: nat, stack': seq<Entry>) {
    && stack != [] && r < |g.rules| && |g.rules[r].rhs| < |stack|
    && stack[|stack| - 1].stateno < |m.items| && Item(r, |g.rules[r].rhs|) in m.items[stack[|stack| - 1].stateno]
    && var k := |stack| - |g.rules[r].rhs|;
       && |stack'| == k + 1 && stack'[..k] == stack[..k] && stack'[k].major == g.rules[r].lhs
       && stack[k - 1].stateno < |m.items| && Item(r, 0) in m.items[stack[k - 1].stateno]
  }

  /** Whatever can come after the reduction was ahead of the reduced rule. */
  lemma BeforeReduction(e: Env, m: Machine, stack: seq<Entry>, r: nat, stack': seq<Entry>, d: Deriv, b: nat)
    returns (d0: Deriv)
    requires EnvOk(e) && LambdaClosed(e.g, e.lambda) && IsLR0(e.g, m) && StackOk(e.g, m, stack)
    requires StackOk(e.g, m, stack') && Reduces(e.g, m, stack, r, stack')
    requires On(e.g, m, stack', d) && Coming(e, d, b)
    ensures On(e.g, m, stack, d0) && What(d0) == Item(r, |e.g.rules[r].rhs|) && b in Ahead(e, d0)
  {
    hide IsLR0, LambdaClosed, Coming, StateOk, Goto;
    var n := |e.g.rules[r].rhs|;
    var k := |stack| - n;
    var p := BackToOver(e, m, stack', d, b);
    var base := stack[..k];
    assert stack'[..|stack'| - 1] == base && stack'[k - 1] == stack'[..k][k - 1] == stack[k - 1];
    assert After(e.g, What(p)) == Nonterminal(e.g.rules[r].lhs) by { PushedSymbol(e, m, stack', p, r); }
    assert Derivation(e.g, Predict(p, r));
    ComingOver(e, p, r, b);
    d0 := DotToTop(e, m, stack, r, n, Predict(p, r));
  }

  lemma PushedSymbol(e: Env, m: Machine, stack: seq<Entry>, p: Deriv, r: nat)
    requires EnvOk(e) && IsLR0(e.g, m) && StackOk(e.g, m, stack) && On(e.g, m, stack, Over(p))
    requires r < |e.g.rules| && stack[|stack| - 1].major == e.g.rules[r].lhs
    ensures After(e.g, What(p)) == Nonterminal(e.g.rules[r].lhs)
  {
    hide IsLR0, StateOk;
    var n := |stack| - 1;
    var s := stack[n - 1].stateno;
    assert EntryOk(e.g, m, stack[n - 1], stack[n]);
    StateIsOk(e.g, m, s);
    assert ValidItems(e.g, m.items[s]) by { StateHasValidItems(e.g, m, s); }
    assert e.g.ValidRule(e.g.rules[r]);
    EdgeOn(e.g, m, s, e.g.rules[r].lhs, stack[n].stateno);
    assert m.kernel[stack[n].stateno] != {};
    SameSymbol(e.g, m.items[s], After(e.g, What(p)), Nonterminal(e.g.rules[r].lhs));
  }

  lemma StateHasValidItems(g: Grammar, m: Machine, s: nat)
    requires s < |m.items| && s < |m.kernel| && StateOk(g, m, s)
    ensures ValidItems(g, m.items[s])
  {
  }

  // ----- reducing under a token that is ahead ----------------------------------------------------------

  /** The state after a reduction by rule r. */
  function Popped(t: Tables, c: Conf, r: nat, u: nat): Conf
    requires Shaped(t) && r < t.nrule && t.ruleInfo[r].nrhs < |c.stack|
  {
    var k := |c.stack| - t.ruleInfo[r].nrhs;
    c.(stack := c.stack[..k] + [Entry(u, t.ruleInfo[r].lhs, Tree.Node(r, Minors(c.stack[k..])))])
  }

  /** A reduction that does not accept, under any token. */
  lemma ReducesSo(g: Grammar, m: Machine, t: Tables, c: Conf, r: nat) returns (u: nat)
    requires g.WellFormed() && IsLR0(g, m) && TablesFit(g, m, t) && ConfOk(g, m, c) && c.stack != [] && r < |g.rules|
    requires Top(c).stateno < |m.items| && Item(r, |g.rules[r].rhs|) in m.items[Top(c).stateno]
    requires g.rules[r].lhs != g.start
    ensures Shaped(t) && r < t.nrule && t.ruleInfo[r].nrhs == |g.rules[r].rhs| < |c.stack| && Top(c).stateno < t.nstate
    ensures ConfOk(g, m, Popped(t, c, r, u)) && Reduces(g, m, c.stack, r, Popped(t, c, r, u).stack)
    ensures forall a: nat :: FindShiftAction(t, Top(c).stateno, a) == t.nstate + r ==>
              Step(t, c, a) == Outcome.Next(Popped(t, c, r, u), Some(a))
  {
    hide IsLR0, TablesFit, ReduceDefined, FindReduceAction, FindShiftAction, Reduce, AcceptOk, ReportsOk;
    TablesFitRule(g, m, t, r);
    ItemSeesStack(g, m, c.stack, r, |g.rules[r].rhs|);
    ReducePushes(g, m, t, c, r, 0);
    var k := |c.stack| - |g.rules[r].rhs|;
    u := FindReduceAction(t, c.stack[k - 1].stateno, g.rules[r].lhs);
    assert Popped(t, c, r, u).stack[..k] == c.stack[..k];
    forall a: nat | FindShiftAction(t, Top(c).stateno, a) == t.nstate + r
      ensures Step(t, c, a) == Outcome.Next(Popped(t, c, r, u), Some(a)) {
      ReducePushes(g, m, t, c, r, a);
    }
  }

  /** A reduction by a start rule ends the call. */
  lemma AcceptsSo(g: Grammar, m: Machine, t: Tables, c: Conf, r: nat, a: nat)
    requires g.WellFormed() && IsLR0(g, m) && TablesFit(g, m, t) && ConfOk(g, m, c) && c.stack != [] && r < |g.rules|
    requires Top(c).stateno < |m.items| && Item(r, |g.rules[r].rhs|) in m.items[Top(c).stateno]
    requires g.rules[r].lhs == g.start
    ensures Shaped(t) && Top(c).stateno < t.nstate
    ensures FindShiftAction(t, Top(c).stateno, a) == t.nstate + r ==>
              Step(t, c, a).Next? && Step(t, c, a).conf.stack == []
  {
    hide IsLR0, TablesFit, ReduceDefined, FindReduceAction, FindShiftAction, Reduce, AcceptOk, ReportsOk;
    TablesFitRule(g, m, t, r);
    ReduceAccepts(g, m, t, c, r, a);
  }

  /** The call ends for some amount of fuel. */
  ghost predicate Ends(t: Tables, c: Conf, a: nat)
    requires Shaped(t)
  {
    exists fuel: nat :: Loop(t, c, a, fuel).Some?
  }

  lemma EndsNow(t: Tables, c: Conf, a: nat)
    requires Shaped(t)
    requires Step(t, c, a).Next? ==> Step(t, c, a).major == None || Step(t, c, a).conf.stack == []
    ensures Ends(t, c, a)
  {
    hide Step;
    assert Loop(t, c, a, 1).Some?;
  }

  lemma EndsLater(t: Tables, c: Conf, a: nat, c': Conf)
    requires Shaped(t) && Step(t, c, a) == Outcome.Next(c', Some(a)) && Ends(t, c', a)
    ensures Ends(t, c, a)
  {
    hide Step;
    var fuel: nat :| Loop(t, c', a, fuel).Some?;
    assert Loop(t, c, a, fuel + 1).Some?;
  }

  /** The tables take a reduction whose end has the token ahead. */
  lemma ReducesAhead(e: Env, m: Machine, t: Tables, c: Conf, d: Deriv, r: nat, b: nat)
    requires Ready(e, m, t) && ConfOk(e.g, m, c) && c.stack != [] && On(e.g, m, c.stack, d) && r < |e.g.rules|
    requires What(d) == Item(r, |e.g.rules[r].rhs|) && b in Ahead(e, d) && b < e.g.nterminal
    ensures Shaped(t) && Top(c).stateno < t.nstate == |m.items| && FindShiftAction(t, Top(c).stateno, b) == t.nstate + r
    ensures Item(r, |e.g.rules[r].rhs|) in m.items[Top(c).stateno]
  {
    hide IsLR0, LaClosed, TablesFit, TablesTake, LambdaClosed, FindShiftAction, ReportsOk;
    ReadyFacts(e, m, t);
    OnState(e, m, c.stack, d);
    ReduceFound(e, m, t, Top(c).stateno, r, b);
  }

  /** The number of predictions in a derivation. */
  function Predictions(d: Deriv): nat {
    match d
    case Begin(_) => 0
    case Over(p) => Predictions(p)
    case Predict(p, _) => Predictions(p) + 1
  }

  /** An empty rule of the next symbol is reduced when the token can come behind the symbol. */
  lemma SkipSymbol(e: Env, m: Machine, t: Tables, c: Conf, d: Deriv, b: nat) returns (c': Conf)
    requires Ready(e, m, t) && ConfOk(e.g, m, c) && c.stack != [] && On(e.g, m, c.stack, d) && b < e.g.nterminal
    requires What(d).rule < |e.g.rules| && What(d).dot < |e.g.rules[What(d).rule].rhs|
    requires var x := After(e.g, What(d)); x.Nonterminal? && DirectlyEmpty(e.g, x.id)
    requires Coming(e, Over(d), b)
    ensures Shaped(t) && Step(t, c, b) == Outcome.Next(c', Some(b))
    ensures ConfOk(e.g, m, c') && c'.stack != [] && On(e.g, m, c'.stack, Over(d))
  {
    hide Ready, Coming, DirectlyEmpty, Step, On;
    ReadyParts(e, m, t);
    var a := After(e.g, What(d)).id;
    assert DirectlyEmpty(e.g, a);
    var r := EmptyRule(e.g, a);
    c' := SkipBy(e, m, t, c, d, r, b);
  }

  lemma EmptyRule(g: Grammar, a: nat) returns (r: nat)
    requires DirectlyEmpty(g, a)
    ensures r < |g.rules| && g.rules[r].lhs == a && g.rules[r].rhs == []
  {
    var k :| 0 <= k < |g.rules| && g.rules[k].lhs == a && g.rules[k].rhs == [];
    r := k;
  }

  lemma SkipBy(e: Env, m: Machine, t: Tables, c: Conf, d: Deriv, r: nat, b: nat) returns (c': Conf)
    requires Ready(e, m, t) && ConfOk(e.g, m, c) && c.stack != [] && On(e.g, m, c.stack, d) && b < e.g.nterminal
    requires What(d).rule < |e.g.rules| && What(d).dot < |e.g.rules[What(d).rule].rhs| && r < |e.g.rules|
    requires After(e.g, What(d)) == Nonterminal(e.g.rules[r].lhs) && e.g.rules[r].rhs == [] && Coming(e, Over(d), b)
    ensures Shaped(t) && Step(t, c, b) == Outcome.Next(c', Some(b))
    ensures ConfOk(e.g, m, c') && c'.stack != [] && On(e.g, m, c'.stack, Over(d))
  {
    hide Ready, Step, EnvOk, LaClosed, IsLR0, TablesFit, LambdaClosed, FindShiftAction, ConfOk, Reduces;
    ReadyParts(e, m, t);
    assert Derivation(e.g, Predict(d, r)) && On(e.g, m, c.stack, Predict(d, r));
    assert b in Ahead(e, Predict(d, r)) by { ComingOver(e, d, r, b); }
    hide Coming, On, Ahead;
    ReducesAhead(e, m, t, c, Predict(d, r), r, b);
    assert e.g.rules[r].lhs != e.g.start by { NotStart(e.g, What(d)); }
    var u := ReducesSo(e.g, m, t, c, r);
    c' := Popped(t, c, r, u);
    assert c'.stack[..|c'.stack| - 1] == c.stack && c'.stack[|c'.stack| - 1].major == e.g.rules[r].lhs by {
      TablesFitRule(e.g, m, t, r);
    }
    PushedOver(e, m, c, d, r, u, c');
  }

  lemma NotStart(g: Grammar, p: Item)
    requires g.WellFormed() && p.rule < |g.rules| && p.dot < |g.rules[p.rule].rhs|
    ensures g.rules[p.rule].rhs[p.dot] != Nonterminal(g.start)
  {
    assert g.ValidRule(g.rules[p.rule]);
  }

  lemma ReadyParts(e: Env, m: Machine, t: Tables)
    requires Ready(e, m, t)
    ensures EnvOk(e) && e.g.WellFormed() && IsLR0(e.g, m) && LaClosed(e, m) && LambdaClosed(e.g, e.lambda)
    ensures TablesFit(e.g, m, t) && Shaped(t) && t.nstate == |m.items| == |m.la|
  {
    ReadyFacts(e, m, t);
  }

  /** After pushing a nonterminal the dot is behind it. */
  lemma PushedOver(e: Env, m: Machine, c: Conf, d: Deriv, r: nat, u: nat, c': Conf)
    requires EnvOk(e) && IsLR0(e.g, m) && ConfOk(e.g, m, c') && c.stack != [] && r < |e.g.rules|
    requires |c'.stack| > 1 && c'.stack[|c'.stack| - 1].major == e.g.rules[r].lhs
    requires On(e.g, m, c'.stack[..|c'.stack| - 1], d) && Derivation(e.g, Predict(d, r))
    ensures On(e.g, m, c'.stack, Over(d))
  {
    hide IsLR0, StateOk, AcceptOk, ReportsOk;
    var n := |c'.stack| - 1;
    var s := c'.stack[n - 1].stateno;
    assert EntryOk(e.g, m, c'.stack[n - 1], c'.stack[n]);
    StateIsOk(e.g, m, s);
    assert ValidItems(e.g, m.items[s]) by { StateHasValidItems(e.g, m, s); }
    assert e.g.ValidRule(e.g.rules[r]);
    EdgeOn(e.g, m, s, e.g.rules[r].lhs, c'.stack[n].stateno);
  }

  // ----- a token that can come is used up ------------------------------------------------------------

  lemma OnRange(e: Env, m: Machine, stack: seq<Entry>, d: Deriv)
    requires EnvOk(e) && On(e.g, m, stack, d)
    ensures Derivation(e.g, d) && What(d).rule < |e.g.rules| && What(d).dot <= |e.g.rules[What(d).rule].rhs|
    ensures forall i :: 0 <= i < |Rest(e.g, d)| ==> e.g.ValidSymbol(Rest(e.g, d)[i])
    ensures Rest(e.g, d) != [] ==>
              && What(d).dot < |e.g.rules[What(d).rule].rhs| && After(e.g, What(d)) == Rest(e.g, d)[0]
              && Derivation(e.g, Over(d)) && Rest(e.g, Over(d)) == Rest(e.g, d)[1..]
  {
    hide LambdaFor, LeastSolution, TokenSets;
    DerivInRange(e.g, d);
    assert e.g.ValidRule(e.g.rules[What(d).rule]);
  }

  /** The next symbol is the token. */
  lemma TokenEnds(e: Env, m: Machine, t: Tables, c: Conf, d: Deriv, b: nat)
    requires Ready(e, m, t) && ConfOk(e.g, m, c) && c.stack != [] && On(e.g, m, c.stack, d) && e.g.IsToken(b)
    requires What(d).rule < |e.g.rules| && What(d).dot < |e.g.rules[What(d).rule].rhs|
    requires Matches(After(e.g, What(d)), b)
    ensures Shaped(t) && Ends(t, c, b)
  {
    hide Ready, EnvOk, LaClosed, IsLR0, TablesFit, LambdaClosed, On, Step, Ends, ReportsOk, AcceptOk;
    ReadyParts(e, m, t);
    OnState(e, m, c.stack, d);
    var u, c' := TokenMove(e, m, t, c, What(d), After(e.g, What(d)), b, []);
    assert [b] + [] == [b];
    EndsNow(t, c, b);
  }

  /** Trees for the symbols behind the dot begin with the token: it is shifted after some empty reductions. */
  lemma {:induction false} ShiftsWithin(e: Env, m: Machine, t: Tables, c: Conf, d: Deriv, ts: seq<Tree>, b: nat)
    requires Ready(e, m, t) && ConfOk(e.g, m, c) && c.stack != [] && On(e.g, m, c.stack, d) && e.g.IsToken(b)
    requires What(d).rule < |e.g.rules| && What(d).dot <= |e.g.rules[What(d).rule].rhs|
    requires TreesBegin(e.g, e.lambda, Rest(e.g, d), ts, b)
    ensures Shaped(t) && Ends(t, c, b)
    decreases ts
  {
    hide Ready, EnvOk, LaClosed, IsLR0, TablesFit, LambdaClosed, Step, Ends, ConfOk, Coming, On;
    ReadyParts(e, m, t);
    OnRange(e, m, c.stack, d);
    FirstTree(e, Rest(e.g, d), ts, b);
    var x := After(e.g, What(d));
    if Frontier(ts[0]) == [] {
      assert Coming(e, Over(d), b) by { ComingLater(e, d, ts, b); }
      var c' := SkipSymbol(e, m, t, c, d, b);
      ShiftsWithin(e, m, t, c', Over(d), ts[1..], b);
      EndsLater(t, c, b, c');
    } else {
      match ts[0]
      case Leaf(_) => TokenEnds(e, m, t, c, d, b);
      case Node(r, kids) =>
        assert e.g.rules[r].rhs[0..] == e.g.rules[r].rhs;
        PredictOn(e.g, m, c.stack, d, r);
        ShiftsWithin(e, m, t, c, Predict(d, r), kids, b);
    }
  }

  lemma PredictOn(g: Grammar, m: Machine, stack: seq<Entry>, d: Deriv, r: nat)
    requires On(g, m, stack, d) && r < |g.rules| && Automata.Next(g, What(d), Nonterminal(g.rules[r].lhs))
    ensures On(g, m, stack, Predict(d, r))
  {
  }

  /** What the first of the trees can be. */
  lemma FirstTree(e: Env, xs: seq<Symbol>, ts: seq<Tree>, b: nat)
    requires EnvOk(e) && e.g.IsToken(b) && TreesBegin(e.g, e.lambda, xs, ts, b)
    requires forall i :: 0 <= i < |xs| ==> e.g.ValidSymbol(xs[i])
    ensures xs != [] && ts != [] && Matches(xs[0], Root(e.g, ts[0])) && ValidTree(e.g, ts[0])
    ensures Frontier(ts[0]) == [] ==>
              && xs[0].Nonterminal? && DirectlyEmpty(e.g, xs[0].id)
              && TreesBegin(e.g, e.lambda, xs[1..], ts[1..], b)
    ensures Frontier(ts[0]) != [] && ts[0].Leaf? ==> Matches(xs[0], b)
    ensures Frontier(ts[0]) != [] && ts[0].Node? ==>
              && ts[0].rule < |e.g.rules| && xs[0] == Nonterminal(e.g.rules[ts[0].rule].lhs)
              && TreesBegin(e.g, e.lambda, e.g.rules[ts[0].rule].rhs, ts[0].kids, b)
  {
    hide LeastSolution, TokenSets, LambdaFor, Frontier, Frontiers, MatchAll, Skips, SkipsIn, ValidTree, DirectlyEmpty;
    FirstFacts(e.g, e.lambda, xs, ts, b);
    if ts[0].Node? { RootKind(e.g, ts[0], xs[0]); }
    if Frontier(ts[0]) == [] { RootFlagged(e, ts[0]); }
  }

  lemma RootFlagged(e: Env, tree: Tree)
    requires EnvOk(e) && Root(e.g, tree) < |e.lambda| && e.lambda[Root(e.g, tree)]
    ensures DirectlyEmpty(e.g, Root(e.g, tree))
  {
  }

  lemma FirstFacts(g: Grammar, lambda: seq<bool>, xs: seq<Symbol>, ts: seq<Tree>, b: nat)
    requires TreesBegin(g, lambda, xs, ts, b)
    ensures xs != [] && ts != [] && Matches(xs[0], Root(g, ts[0])) && ValidTree(g, ts[0])
    ensures Frontier(ts[0]) == [] ==>
              && ts[0].Node? && Root(g, ts[0]) < |lambda| && lambda[Root(g, ts[0])]
              && TreesBegin(g, lambda, xs[1..], ts[1..], b)
    ensures Frontier(ts[0]) != [] && ts[0].Leaf? ==> Root(g, ts[0]) == b
    ensures Frontier(ts[0]) != [] && ts[0].Node? ==>
              ts[0].rule < |g.rules| && TreesBegin(g, lambda, g.rules[ts[0].rule].rhs, ts[0].kids, b)
  {
    assert Matches(xs[0], Roots(g, ts)[0]) && ValidTree(g, ts[0]);
    TailMatches(g, xs, ts);
    assert Frontiers(ts) == Frontier(ts[0]) + Frontiers(ts[1..]);
    forall i | 0 <= i < |ts| - 1 ensures ValidTree(g, ts[1..][i]) { assert ts[1..][i] == ts[i + 1]; }
    if Frontier(ts[0]) != [] { KidsBegin(g, lambda, ts[0], b); }
  }

  lemma KidsBegin(g: Grammar, lambda: seq<bool>, tree: Tree, b: nat)
    requires ValidTree(g, tree) && Skips(g, lambda, tree) && Frontier(tree) != [] && Frontier(tree)[0] == b
    ensures tree.Node? ==>
              tree.rule < |g.rules| && TreesBegin(g, lambda, g.rules[tree.rule].rhs, tree.kids, b)
  {
  }

  /** The token begins what is behind the first symbol. */
  lemma ComingLater(e: Env, d: Deriv, ts: seq<Tree>, b: nat)
    requires EnvOk(e) && Derivation(e.g, Over(d)) && e.g.IsToken(b)
    requires What(d).rule < |e.g.rules| && What(d).dot < |e.g.rules[What(d).rule].rhs|
    requires forall i :: 0 <= i < |Rest(e.g, d)| ==> e.g.ValidSymbol(Rest(e.g, d)[i])
    requires ts != [] && TreesBegin(e.g, e.lambda, Rest(e.g, d)[1..], ts[1..], b)
    ensures Coming(e, Over(d), b)
  {
    var xs := Rest(e.g, d)[1..];
    forall i | 0 <= i < |xs| ensures e.g.ValidSymbol(xs[i]) { assert xs[i] == Rest(e.g, d)[i + 1]; }
    SolutionCoversTrees(e.g, e.lambda, e.first, xs, ts[1..]);
    assert Rest(e.g, Over(d)) == xs;
  }

  lemma FirstEnds(e: Env, m: Machine, t: Tables, c: Conf, d: Deriv, b: nat)
    requires Ready(e, m, t) && ConfOk(e.g, m, c) && c.stack != [] && On(e.g, m, c.stack, d)
    requires What(d).rule < |e.g.rules| && What(d).dot <= |e.g.rules[What(d).rule].rhs|
    requires b in SuffixFirst(e.lambda, e.first, Rest(e.g, d))
    ensures Shaped(t) && Ends(t, c, b)
  {
    hide Ready, LeastSolution, TokenSets, LaClosed, IsLR0, TablesFit, LambdaClosed, Step, Ends, ConfOk, On, TreesBegin;
    ReadyParts(e, m, t);
    OnRange(e, m, c.stack, d);
    FirstBelowMeaning(e, Rest(e.g, d));
    var ts := SuffixTrees(e.g, e.lambda, Rest(e.g, d), b);
    ShiftsWithin(e, m, t, c, d, ts, b);
  }

  // ----- a token that is ahead of a rule that vanishes --------------------------------------------------

  /** Where the rule of the item began. */
  lemma {:induction false} RuleBegin(e: Env, m: Machine, stack: seq<Entry>, d: Deriv) returns (d0: Deriv)
    requires On(e.g, m, stack, d)
    ensures var i := What(d).dot;
            && i < |stack| && On(e.g, m, stack[..|stack| - i], d0) && What(d0) == Item(What(d).rule, 0)
            && (d0.Begin? || d0.Predict?) && Ahead(e, d0) == Ahead(e, d) && Predictions(d0) == Predictions(d)
  {
    match d
    case Begin(_) =>
      assert stack[..|stack|] == stack;
      d0 := d;
    case Predict(_, _) =>
      assert stack[..|stack|] == stack;
      d0 := d;
    case Over(p) =>
      var n := |stack| - 1;
      d0 := RuleBegin(e, m, stack[..n], p);
      assert stack[..n][..n - What(p).dot] == stack[..|stack| - What(d).dot];
  }

  /** The rest of the rule vanishes and the token is ahead: the rule is reduced, and the token comes later. */
  lemma {:induction false} AheadEnds(e: Env, m: Machine, t: Tables, c: Conf, d: Deriv, b: nat)
    requires Ready(e, m, t) && ConfOk(e.g, m, c) && c.stack != [] && On(e.g, m, c.stack, d) && b < e.g.nterminal
    requires What(d).rule < |e.g.rules| && What(d).dot <= |e.g.rules[What(d).rule].rhs|
    requires AllLambda(e.lambda, Rest(e.g, d)) && b in Ahead(e, d)
    ensures Shaped(t) && Ends(t, c, b)
    decreases Predictions(d), |e.g.rules[What(d).rule].rhs| - What(d).dot
  {
    hide Ready, LeastSolution, LambdaFor, TokenSets, LaClosed, IsLR0, TablesFit, LambdaClosed, Step, Ends, ConfOk, On;
    hide Coming, SuffixFirst, FindShiftAction;
    ReadyParts(e, m, t);
    OnRange(e, m, c.stack, d);
    if Rest(e.g, d) != [] {
      assert Coming(e, Over(d), b) && AllLambda(e.lambda, Rest(e.g, Over(d))) by { VanishingRest(e, d, b); }
      assert DirectlyEmpty(e.g, After(e.g, What(d)).id) by { FlaggedIsEmpty(e, After(e.g, What(d)).id); }
      var c' := SkipSymbol(e, m, t, c, d, b);
      AheadEnds(e, m, t, c', Over(d), b);
      EndsLater(t, c, b, c');
    } else {
      var r := What(d).rule;
      ReducesAhead(e, m, t, c, d, r, b);
      if e.g.rules[r].lhs == e.g.start {
        AcceptsSo(e.g, m, t, c, r, b);
        EndsNow(t, c, b);
      } else {
        var c', q := AfterReduction(e, m, t, c, d, b);
        OnRange(e, m, c'.stack, Over(q));
        if b in SuffixFirst(e.lambda, e.first, Rest(e.g, Over(q))) {
          FirstEnds(e, m, t, c', Over(q), b);
        } else {
          ComingMeans(e, Over(q), b);
          AheadEnds(e, m, t, c', Over(q), b);
        }
        EndsLater(t, c, b, c');
      }
    }
  }

  lemma ComingMeans(e: Env, d: Deriv, b: nat)
    requires Coming(e, d, b) && b !in SuffixFirst(e.lambda, e.first, Rest(e.g, d))
    ensures AllLambda(e.lambda, Rest(e.g, d)) && b in Ahead(e, d)
  {
  }

  lemma FlaggedIsEmpty(e: Env, a: nat)
    requires EnvOk(e) && a < |e.lambda| && e.lambda[a]
    ensures DirectlyEmpty(e.g, a)
  {
  }

  lemma VanishingRest(e: Env, d: Deriv, b: nat)
    requires Derivation(e.g, Over(d)) && What(d).rule < |e.g.rules| && What(d).dot < |e.g.rules[What(d).rule].rhs|
    requires AllLambda(e.lambda, Rest(e.g, d)) && b in Ahead(e, d)
    ensures Coming(e, Over(d), b) && AllLambda(e.lambda, Rest(e.g, Over(d)))
    ensures var x := After(e.g, What(d)); x.Nonterminal? && x.id < |e.lambda| && e.lambda[x.id]
  {
    var xs := Rest(e.g, d);
    assert xs[0] == After(e.g, What(d)) && Rest(e.g, Over(d)) == xs[1..];
    AllLambdaCons(e.lambda, xs);
    assert [xs[0]][0] == xs[0];
  }

  /** A reduction under a token that is ahead, and the item that it returns to. */
  lemma AfterReduction(e: Env, m: Machine, t: Tables, c: Conf, d: Deriv, b: nat) returns (c': Conf, q: Deriv)
    requires Ready(e, m, t) && ConfOk(e.g, m, c) && c.stack != [] && On(e.g, m, c.stack, d) && b < e.g.nterminal
    requires What(d).rule < |e.g.rules| && What(d).dot == |e.g.rules[What(d).rule].rhs| && b in Ahead(e, d)
    requires e.g.rules[What(d).rule].lhs != e.g.start
    ensures Shaped(t) && Step(t, c, b) == Outcome.Next(c', Some(b))
    ensures ConfOk(e.g, m, c') && c'.stack != [] && On(e.g, m, c'.stack, Over(q)) && Coming(e, Over(q), b)
    ensures Predictions(q) < Predictions(d)
  {
    hide Ready, EnvOk, LaClosed, IsLR0, TablesFit, LambdaClosed, Step, ConfOk, Coming, FindShiftAction, Reduces, Shaped;
    ReadyParts(e, m, t);
    var r := What(d).rule;
    var d0 := RuleBegin(e, m, c.stack, d);
    assert d0.Predict? && Derivation(e.g, d0) && On(e.g, m, c.stack[..|c.stack| - |e.g.rules[r].rhs|], d0.d);
    q := d0.d;
    assert Coming(e, Over(q), b) by { ComingOver(e, q, r, b); }
    ReducesAhead(e, m, t, c, d, r, b);
    hide On, Ahead;
    var u := ReducesSo(e.g, m, t, c, r);
    c' := Popped(t, c, r, u);
    assert c'.stack[..|c'.stack| - 1] == c.stack[..|c.stack| - |e.g.rules[r].rhs|];
    TablesFitRule(e.g, m, t, r);
    PushedOver(e, m, c, q, r, u, c');
  }

  lemma ComingEnds(e: Env, m: Machine, t: Tables, c: Conf, d: Deriv, b: nat)
    requires Ready(e, m, t) && ConfOk(e.g, m, c) && c.stack != [] && On(e.g, m, c.stack, d) && b < e.g.nterminal
    requires Coming(e, d, b)
    ensures Shaped(t) && Ends(t, c, b)
  {
    hide Ready, ConfOk, On, Ends, SuffixFirst, AllLambda, Ahead;
    if b in SuffixFirst(e.lambda, e.first, Rest(e.g, d)) {
      FirstEnds(e, m, t, c, d, b);
    } else {
      AheadEnds(e, m, t, c, d, b);
    }
  }

  // ----- some token can always come ----------------------------------------------------------------------

  /** Every nonterminal on a right-hand side vanishes or begins with some token. */
  ghost predicate Fruitful(g: Grammar) {
    forall r, i :: 0 <= r < |g.rules| && 0 <= i < |g.rules[r].rhs| ==> Yields(g, g.rules[r].rhs[i])
  }

  ghost predicate Yields(g: Grammar, x: Symbol) {
    CanVanish(g, [x]) || exists a :: CanBegin(g, [x], a)
  }

  /** Fruitful symbols have a first token, or they all carry the flag. */
  lemma {:induction false} SomeFirst(e: Env, xs: seq<Symbol>) returns (b: nat)
    requires EnvOk(e) && EmptyByRule(e.g) && !AllLambda(e.lambda, xs)
    requires forall i :: 0 <= i < |xs| ==> e.g.ValidSymbol(xs[i]) && Yields(e.g, xs[i])
    ensures b in SuffixFirst(e.lambda, e.first, xs) && e.g.IsToken(b)
  {
    hide LambdaFor, LeastSolution, TokenSets, EmptyByRule, CanVanish, CanBegin, AllLambda;
    EnvHasSizes(e);
    assert xs != [] by { assert xs == [] ==> AllLambda(e.lambda, xs) by { NoneFlagged(e.lambda); } }
    var x := xs[0];
    assert e.g.ValidSymbol(x) && Yields(e.g, x);
    match x
    case Terminal(a) => b := a;
    case Multi(subs) => b := subs[0];
    case Nonterminal(n) =>
      assert [x][1..] == [];
      if e.lambda[n] {
        LambdaTail(e.lambda, xs);
        b := SomeFirst(e, xs[1..]);
      } else {
        if CanVanish(e.g, [x]) { TrueIsFlagged(e, [x]); FlagSaid(e.lambda, x); }
        b :| CanBegin(e.g, [x], b);
        TrueIsFirst(e, [x], b);
        assert e.g.IsToken(b) by { BeginsWithToken(e.g, [x], b); }
      }
  }

  lemma NoneFlagged(lambda: seq<bool>)
    ensures AllLambda(lambda, [])
  {
  }

  lemma FlagSaid(lambda: seq<bool>, x: Symbol)
    requires AllLambda(lambda, [x])
    ensures x.Nonterminal? && x.id < |lambda| && lambda[x.id]
  {
    assert [x][0] == x;
  }

  lemma LambdaTail(lambda: seq<bool>, xs: seq<Symbol>)
    requires !AllLambda(lambda, xs) && xs != [] && xs[0].Nonterminal? && xs[0].id < |lambda| && lambda[xs[0].id]
    ensures !AllLambda(lambda, xs[1..])
  {
    AllLambdaCons(lambda, xs);
    assert [xs[0]][0] == xs[0];
  }

  /** Some token is ahead of every derived item. */
  lemma {:induction false} SomeAhead(e: Env, d: Deriv) returns (b: nat)
    requires EnvOk(e) && EmptyByRule(e.g) && Fruitful(e.g) && Derivation(e.g, d)
    ensures b in Ahead(e, d) && b < e.g.nterminal
  {
    hide EnvOk, EmptyByRule, Yields, AllLambda, SuffixFirst;
    assert e.g.nterminal > 0 by { SomeTerminal(e); }
    match d
    case Begin(_) => b := 0;
    case Over(p) => b := SomeAhead(e, p);
    case Predict(p, _) =>
      var xs := Behind(e.g, What(p));
      if AllLambda(e.lambda, xs) {
        b := SomeAhead(e, p);
      } else {
        EnvBehind(e, What(p));
        forall i | 0 <= i < |xs| ensures Yields(e.g, xs[i]) {
          assert xs[i] == e.g.rules[What(p).rule].rhs[What(p).dot + 1 + i];
        }
        b := SomeFirst(e, xs);
      }
  }

  lemma SomeTerminal(e: Env)
    requires EnvOk(e)
    ensures e.g.nterminal > 0
  {
  }

  // ----- another token in place of this one ------------------------------------------------------------------

  /** A turn that goes on with the same token is a reduction. */
  lemma TurnReduces(g: Grammar, m: Machine, t: Tables, c: Conf, a: nat) returns (r: nat, u: nat)
    requires g.WellFormed() && IsLR0(g, m) && TablesFit(g, m, t) && ConfOk(g, m, c) && c.stack != [] && a < g.nterminal
    requires Shaped(t) && Step(t, c, a).Next? && Step(t, c, a).major.Some? && Step(t, c, a).conf.stack != []
    ensures r < |g.rules| && r < t.nrule && t.ruleInfo[r].nrhs == |g.rules[r].rhs| < |c.stack|
    ensures Top(c).stateno < |m.items| && Item(r, |g.rules[r].rhs|) in m.items[Top(c).stateno]
    ensures Step(t, c, a).conf == Popped(t, c, r, u) && g.rules[r].lhs != g.start
    ensures ConfOk(g, m, Popped(t, c, r, u)) && Reduces(g, m, c.stack, r, Popped(t, c, r, u).stack)
    ensures forall b: nat :: FindShiftAction(t, Top(c).stateno, b) == t.nstate + r ==>
              Step(t, c, b) == Outcome.Next(Popped(t, c, r, u), Some(b))
  {
    hide IsLR0, TablesFit, ReduceDefined, FindReduceAction, FindShiftAction, Reduce, ConfOk, Reduces;
    TablesFitShape(g, m, t);
    ShiftFitsTop(g, m, t, c, a);
    r := FindShiftAction(t, Top(c).stateno, a) - t.nstate;
    if g.rules[r].lhs == g.start { AcceptsSo(g, m, t, c, r, a); }
    u := ReducesSo(g, m, t, c, r);
  }

  /**
    What can come after a turn could have come before it, and would have made the same
    turn.
  */
  lemma SameTurn(e: Env, m: Machine, t: Tables, c: Conf, a: nat, d: Deriv, b: nat) returns (d0: Deriv)
    requires Ready(e, m, t) && ConfOk(e.g, m, c) && c.stack != [] && a < e.g.nterminal && b < e.g.nterminal
    requires Shaped(t) && Step(t, c, a).Next? && Step(t, c, a).major.Some? && Step(t, c, a).conf.stack != []
    requires On(e.g, m, Step(t, c, a).conf.stack, d) && Coming(e, d, b)
    ensures Step(t, c, b) == Outcome.Next(Step(t, c, a).conf, Some(b)) && ConfOk(e.g, m, Step(t, c, a).conf)
    ensures On(e.g, m, c.stack, d0) && Coming(e, d0, b)
  {
    hide Ready, EnvOk, LaClosed, IsLR0, TablesFit, LambdaClosed, FindShiftAction, ConfOk, Reduces, Step, Coming, On;
    ReadyParts(e, m, t);
    var r, u := TurnReduces(e.g, m, t, c, a);
    ConfStack(e.g, m, c);
    ConfStack(e.g, m, Step(t, c, a).conf);
    d0 := BeforeReduction(e, m, c.stack, r, Step(t, c, a).conf.stack, d, b);
    assert Derivation(e.g, d0) by { OnRange(e, m, c.stack, d0); }
    ComingAtEnd(e, d0, b);
    ReducesAhead(e, m, t, c, d0, r, b);
  }

  lemma ConfStack(g: Grammar, m: Machine, c: Conf)
    requires ConfOk(g, m, c) && c.stack != []
    ensures StackOk(g, m, c.stack)
  {
  }

  /** The turns of a call are those that it would have made with any token that can come after them. */
  lemma {:induction false} SameTurns(e: Env, m: Machine, t: Tables, c: Conf, a: nat, fuel: nat, d: Deriv, b: nat)
    returns (d0: Deriv)
    requires Ready(e, m, t) && ConfOk(e.g, m, c) && c.stack != [] && a < e.g.nterminal && b < e.g.nterminal
    requires Shaped(t) && Loop(t, c, a, fuel) == None
    requires On(e.g, m, Turned(t, c, a, fuel).stack, d) && Coming(e, d, b)
    ensures Loop(t, c, b, fuel) == None && On(e.g, m, c.stack, d0) && Coming(e, d0, b)
    decreases fuel
  {
    hide Ready, ConfOk, Step, Coming, On;
    TurnedOnce(t, c, a, fuel);
    if fuel == 0 {
      d0 := d;
    } else {
      var c' := Step(t, c, a).conf;
      if Step(t, c, a).major.Some? { StepMajor(t, c, a); }
      assert ConfOk(e.g, m, c') by { TurnOk(e, m, t, c, a); }
      var d1 := SameTurns(e, m, t, c', a, fuel - 1, d, b);
      d0 := SameTurn(e, m, t, c, a, d1, b);
    }
  }

  lemma TurnOk(e: Env, m: Machine, t: Tables, c: Conf, a: nat)
    requires Ready(e, m, t) && ConfOk(e.g, m, c) && c.stack != [] && a < e.g.nterminal
    ensures Shaped(t) && Step(t, c, a).Next? && ConfOk(e.g, m, Step(t, c, a).conf)
  {
    hide Ready, EnvOk, LaClosed, IsLR0, TablesFit, LambdaClosed, ConfOk, Step;
    ReadyParts(e, m, t);
    StepKeeps(e.g, m, t, c, a);
  }

  /** The state that the turns of an unfinished call lead to. */
  lemma {:induction false} TurnedOk(e: Env, m: Machine, t: Tables, c: Conf, a: nat, fuel: nat)
    requires Ready(e, m, t) && ConfOk(e.g, m, c) && c.stack != [] && a < e.g.nterminal
    requires Shaped(t) && Loop(t, c, a, fuel) == None
    ensures ConfOk(e.g, m, Turned(t, c, a, fuel)) && Turned(t, c, a, fuel).stack != []
    decreases fuel
  {
    hide Ready, ConfOk, Step;
    TurnedOnce(t, c, a, fuel);
    if fuel > 0 {
      TurnOk(e, m, t, c, a);
      if Step(t, c, a).major.Some? { StepMajor(t, c, a); }
      TurnedOk(e, m, t, Step(t, c, a).conf, a, fuel - 1);
    }
  }

  /** Enough fuel for every token with which the call ends. */
  lemma {:induction false} MostFuel(t: Tables, c: Conf, n: nat) returns (fuel: nat)
    requires Shaped(t)
    ensures forall b: nat :: b < n && Ends(t, c, b) ==> Loop(t, c, b, fuel).Some?
  {
    hide Loop;
    fuel := 0;
    if n > 0 {
      var less := MostFuel(t, c, n - 1);
      fuel := less;
      if Ends(t, c, n - 1) {
        var k: nat :| Loop(t, c, n - 1, k).Some?;
        fuel := less + k;
        FuelImmaterial(t, c, n - 1, k, less);
      }
      forall b: nat | b < n - 1 && Ends(t, c, b) ensures Loop(t, c, b, fuel).Some? {
        FuelImmaterial(t, c, b, less, fuel - less);
      }
    }
  }

  /** Every call ends. */
  lemma CallEnds(e: Env, m: Machine, t: Tables, c: Conf, a: nat)
    requires Ready(e, m, t) && EmptyByRule(e.g) && Fruitful(e.g)
    requires ConfOk(e.g, m, c) && c.stack != [] && a < e.g.nterminal
    ensures Shaped(t) && Ends(t, c, a)
  {
    hide Ready, EnvOk, LaClosed, IsLR0, TablesFit, LambdaClosed, FindShiftAction, ConfOk, Reduces, Step, Coming, On;
    hide Ends, EmptyByRule, Fruitful, Loop;
    ReadyParts(e, m, t);
    var fuel := MostFuel(t, c, e.g.nterminal);
    if Loop(t, c, a, fuel) == None {
      var c' := Turned(t, c, a, fuel);
      TurnedOk(e, m, t, c, a, fuel);
      if !Ends(t, c', a) {
        var d, b := StuckDerives(e, m, t, c', a);
        var d0 := SameTurns(e, m, t, c, a, fuel, d, b);
        ComingEnds(e, m, t, c, d0, b);
        assert false;
      }
      EndsAfter(t, c, a, fuel);
    } else {
      assert Ends(t, c, a) by { EndsWith(t, c, a, fuel); }
    }
  }

  /** If a call does not end, then an item of the top state is complete, and some token is ahead of it. */
  lemma StuckDerives(e: Env, m: Machine, t: Tables, c: Conf, a: nat) returns (d: Deriv, b: nat)
    requires Ready(e, m, t) && EmptyByRule(e.g) && Fruitful(e.g)
    requires ConfOk(e.g, m, c) && c.stack != [] && a < e.g.nterminal
    requires Shaped(t) && !Ends(t, c, a)
    ensures On(e.g, m, c.stack, d) && Coming(e, d, b) && b < e.g.nterminal
  {
    hide Ready, EnvOk, LaClosed, IsLR0, TablesFit, LambdaClosed, FindShiftAction, ConfOk, Reduces, Step, Coming, On;
    hide Ends, EmptyByRule, Fruitful;
    ReadyParts(e, m, t);
    TurnOk(e, m, t, c, a);
    if Step(t, c, a).major == None || Step(t, c, a).conf.stack == [] { EndsNow(t, c, a); }
    var r, u := TurnReduces(e.g, m, t, c, a);
    ConfStack(e.g, m, c);
    d := DerivesOn(e, m, c.stack, Item(r, |e.g.rules[r].rhs|));
    assert Derivation(e.g, d) by { OnRange(e, m, c.stack, d); }
    b := SomeAhead(e, d);
    ComingAtEnd(e, d, b);
  }

  lemma EndsWith(t: Tables, c: Conf, a: nat, fuel: nat)
    requires Shaped(t) && Loop(t, c, a, fuel).Some?
    ensures Ends(t, c, a)
  {
  }

  lemma EndsAfter(t: Tables, c: Conf, a: nat, fuel: nat)
    requires Shaped(t) && Loop(t, c, a, fuel) == None && Ends(t, Turned(t, c, a, fuel), a)
    ensures Ends(t, c, a)
  {
    hide Loop;
    var more: nat :| Loop(t, Turned(t, c, a, fuel), a, more).Some?;
    FuelImmaterial(t, c, a, fuel, more);
  }

  // ----- whole inputs ----------------------------------------------------------------------------------------

  /** More fuel does not change what a finished run does. */
  lemma {:induction false} FeedMore(t: Tables, c: Conf, w: seq<nat>, fuel: nat, more: nat)
    requires Shaped(t) && Feed(t, c, w, fuel).Some?
    ensures Feed(t, c, w, fuel + more) == Feed(t, c, w, fuel)
    decreases |w|
  {
    hide Loop;
    if w != [] {
      FuelImmaterial(t, Start(c), w[0], fuel, more);
      match Call(t, c, w[0], fuel)
      case Some(Abort) =>
      case Some(Next(c', _)) => FeedMore(t, c', w[1..], fuel, more);
    }
  }

  /** With enough fuel the driver gets through any tokens. */
  lemma {:induction false} FeedEnds(e: Env, m: Machine, t: Tables, c: Conf, w: seq<nat>) returns (fuel: nat)
    requires Ready(e, m, t) && EmptyByRule(e.g) && Fruitful(e.g) && ConfOk(e.g, m, Start(c))
    requires forall i :: 0 <= i < |w| ==> w[i] < e.g.nterminal
    ensures Shaped(t) && Feed(t, c, w, fuel).Some?
    decreases |w|
  {
    hide Ready, EnvOk, LaClosed, IsLR0, TablesFit, LambdaClosed, ConfOk, EmptyByRule, Fruitful, Loop;
    ReadyParts(e, m, t);
    if w == [] {
      fuel := 0;
    } else {
      CallEnds(e, m, t, Start(c), w[0]);
      var k: nat :| Loop(t, Start(c), w[0], k).Some?;
      LoopKeeps(e.g, m, t, Start(c), w[0], k);
      var c' := Loop(t, Start(c), w[0], k).value.conf;
      assert ConfOk(e.g, m, Start(c')) by { RestartOk(e.g, m, c'); }
      var j := FeedEnds(e, m, t, c', w[1..]);
      fuel := k + j;
      FuelImmaterial(t, Start(c), w[0], k, j);
      FeedMore(t, c', w[1..], j, k);
    }
  }

  lemma RestartOk(g: Grammar, m: Machine, c: Conf)
    requires IsLR0(g, m) && ConfOk(g, m, c)
    ensures ConfOk(g, m, Start(c))
  {
    hide IsLR0, AcceptOk;
    LR0Start(g, m);
    assert Minors(Start(c).stack[1..]) == [] || c.stack != [];
  }
}
