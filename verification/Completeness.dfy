/**
  Where the tables lose no action, the driver accepts every sentence, and builds its
  tree.  The lookaheads are what makes each step the right one: after the part of a
  tree that has been read, the next token of the input is a lookahead of the item
  that is being recognised.
*/
module Completeness {
  import opened Grammars
  import opened Automata
  import opened FirstSets
  import opened Configlist
  import opened Lookaheads
  import opened Actions
  import opened Lempar
  import opened Soundness
  import opened Generator

  /** The tables take every action of the automaton, and every nullable nonterminal has an empty rule. */
  ghost predicate Ready(e: Env, m: Machine, t: Tables) {
    && EnvOk(e) && IsLR0(e.g, m) && LaClosed(e, m) && LambdaClosed(e.g, e.lambda)
    && TablesFit(e.g, m, t) && TablesTake(e.g, m, t)
  }

  // ----- runs of the driver, step by step -----------------------------------------------------

  /** A parser state with the input that is left. */
  datatype Point = Point(c: Conf, input: seq<nat>)

  /** One iteration of the loop; None when it ends the parse. */
  function Move(t: Tables, p: Point): Option<Point>
    requires Shaped(t)
  {
    if p.input == [] then None
    else
      match Step(t, p.c, p.input[0])
      case Abort => None
      case Next(c, major) =>
        if c.stack == [] then None
        else Some(Point(c, if major == None then p.input[1..] else p.input))
  }

  function Run(t: Tables, p: Point, n: nat): Option<Point>
    requires Shaped(t)
    decreases n
  {
    if n == 0 then Some(p)
    else
      match Move(t, p)
      case None => None
      case Some(q) => Run(t, q, n - 1)
  }

  lemma {:induction false} RunOn(t: Tables, p: Point, n: nat, k: nat)
    requires Shaped(t) && Run(t, p, n).Some?
    ensures Run(t, p, n + k) == Run(t, Run(t, p, n).value, k)
    decreases n
  {
    hide Move;
    if n > 0 { RunOn(t, Move(t, p).value, n - 1, k); }
  }

  lemma RunOne(t: Tables, p: Point)
    requires Shaped(t)
    ensures Run(t, p, 1) == Move(t, p)
  {
    if Move(t, p).Some? { assert Run(t, Move(t, p).value, 0) == Move(t, p); }
  }

  // ----- what is due after an item ---------------------------------------------------------------

  /** Token a can follow the symbol after the dot of item p in state s. */
  ghost predicate Due(e: Env, m: Machine, s: nat, p: Item, a: nat)
    requires p.rule < |e.g.rules| && p.dot < |e.g.rules[p.rule].rhs|
  {
    || a in SuffixFirst(e.lambda, e.first, Behind(e.g, p))
    || (AllLambda(e.lambda, Behind(e.g, p)) && s < |m.la| && p in m.la[s] && a in m.la[s][p])
  }

  ghost predicate AllTokens(g: Grammar, w: seq<nat>) {
    forall i :: 0 <= i < |w| ==> g.IsToken(w[i])
  }

  /** Trees for a symbol string begin with one of its first tokens, or all its symbols can be skipped. */
  lemma RestFirst(e: Env, xs: seq<Symbol>, ts: seq<Tree>)
    requires EnvOk(e) && LambdaClosed(e.g, e.lambda) && forall i :: 0 <= i < |xs| ==> e.g.ValidSymbol(xs[i])
    requires MatchAll(xs, Roots(e.g, ts)) && ValidTrees(e.g, ts) && AllTokens(e.g, Frontiers(ts))
    ensures if Frontiers(ts) != [] then Frontiers(ts)[0] in SuffixFirst(e.lambda, e.first, xs)
            else AllLambda(e.lambda, xs)
  {
    hide SuffixFirst, AllLambda, Frontiers, ValidTrees, MatchAll, SkipsIn, LambdaClosed, Solution;
    if Frontiers(ts) != [] {
      ClosedTreesSkipIn(e.g, e.lambda, ts);
      SolutionCoversTrees(e.g, e.lambda, e.first, xs, ts);
    } else {
      EmptyTreesAreLambda(e.g, e.lambda, xs, ts);
    }
  }

  lemma RestValid(g: Grammar, r: nat, d: nat)
    requires g.WellFormed() && r < |g.rules| && d <= |g.rules[r].rhs|
    ensures forall i :: 0 <= i < |g.rules[r].rhs[d..]| ==> g.ValidSymbol(g.rules[r].rhs[d..][i])
  {
    assert g.ValidRule(g.rules[r]);
  }

  /** The first token after a part of the right-hand side begins the rest of it, or follows the rule. */
  lemma RestDue(e: Env, m: Machine, s: nat, r: nat, d: nat, ts: seq<Tree>, rest: seq<nat>)
    requires EnvOk(e) && LambdaClosed(e.g, e.lambda) && r < |e.g.rules| && d < |e.g.rules[r].rhs|
    requires MatchAll(e.g.rules[r].rhs[d + 1..], Roots(e.g, ts)) && ValidTrees(e.g, ts) && AllTokens(e.g, Frontiers(ts))
    requires rest != [] && s < |m.la| && Item(r, d) in m.la[s] && rest[0] in m.la[s][Item(r, d)]
    ensures Due(e, m, s, Item(r, d), (Frontiers(ts) + rest)[0])
  {
    hide SuffixFirst, AllLambda, Frontiers, ValidTrees, MatchAll, LambdaClosed, LeastSolution, TokenSets, LambdaFor;
    RestValid(e.g, r, d + 1);
    RestFirst(e, e.g.rules[r].rhs[d + 1..], ts);
    assert Behind(e.g, Item(r, d)) == e.g.rules[r].rhs[d + 1..];
  }

  /** A predicted rule can be followed by what is due after the nonterminal. */
  lemma PredictedDue(e: Env, m: Machine, s: nat, p: Item, it: Item, a: nat)
    requires IsLR0(e.g, m) && LaClosed(e, m) && s < |m.items| && p in m.items[s] && Predicts(e.g, p, it)
    requires Due(e, m, s, p, a)
    ensures s < |m.la| && it in m.items[s] && it in m.la[s] && a in m.la[s][it]
  {
    hide LaClosed, StateOk, SuffixFirst, AllLambda;
    LaClosedShape(e, m);
    assert StateOk(e.g, m, s);
    PredictedInItems(e.g, m, s, p, it);
    LaClosedPredict(e, m, s, p, it);
  }

  // ----- the moves -----------------------------------------------------------------------------------

  /** c' is c after the tree has been recognised, in state u. */
  ghost predicate Recognised(g: Grammar, c: Conf, tree: Tree, u: nat, c': Conf) {
    && c'.stack == c.stack + [Entry(u, Root(g, tree), tree)]
    && c'.shifted == c.shifted + Frontier(tree) && c'.errors == c.errors && c'.accepted == c.accepted
  }

  ghost predicate At(m: Machine, c: Conf, it: Item) {
    c.stack != [] && Top(c).stateno < |m.items| && it in m.items[Top(c).stateno]
  }

  /** Shifting a token. */
  lemma TokenMove(e: Env, m: Machine, t: Tables, c: Conf, p: Item, x: Symbol, a: nat, rest: seq<nat>)
    returns (u: nat, c': Conf)
    requires Ready(e, m, t) && At(m, c, p) && Automata.Next(e.g, p, x) && Matches(x, a) && e.g.IsToken(a)
    ensures Shaped(t) && Move(t, Point(c, [a] + rest)) == Some(Point(c', rest))
    ensures Recognised(e.g, c, Leaf(a), u, c') && u < |m.kernel| && m.kernel[u] == Goto(e.g, m.items[Top(c).stateno], x)
  {
    hide IsLR0, LaClosed, TablesFit, EnvOk, LambdaClosed;
    var s := Top(c).stateno;
    u := SuccessorState(e.g, m, s, p, x);
    LaClosedShape(e, m);
    assert Edge(e.g, m, s, a, u);
    var act := Action(a, SHIFT, u);
    assert IsRaw(e.g, m, s, act);
    assert FindShiftAction(t, s, a) == u;
    c' := Push(c, Entry(u, a, Leaf(a))).(errcnt := c.errcnt - 1, shifted := c.shifted + [a]);
    assert ([a] + rest)[1..] == rest;
  }

  /** The edge on a nonterminal comes from that nonterminal. */
  lemma EdgeOn(g: Grammar, m: Machine, s: nat, b: nat, u: nat)
    requires g.WellFormed() && s < |m.items| && ValidItems(g, m.items[s]) && Edge(g, m, s, b, u) && g.IsNonterminal(b)
    ensures m.kernel[u] == Goto(g, m.items[s], Nonterminal(b))
  {
    var x :| Matches(x, b) && m.kernel[u] == Goto(g, m.items[s], x) != {};
    var adv :| adv in Goto(g, m.items[s], x);
    var it :| it in m.items[s] && Automata.Next(g, it, x) && Advance(it) == adv;
    assert g.ValidRule(g.rules[it.rule]) && g.ValidSymbol(x);
  }

  /** c' is c after the kids of a rule have been recognised. */
  ghost predicate KidsOn(g: Grammar, c: Conf, kids: seq<Tree>, c': Conf) {
    && |c'.stack| == |c.stack| + |kids| && c'.stack[..|c.stack|] == c.stack && Minors(c'.stack[|c.stack|..]) == kids
    && c'.shifted == c.shifted + Frontiers(kids) && c'.errors == c.errors && c'.accepted == c.accepted
  }

  /** The complete item and its lookahead make the driver reduce. */
  lemma ReduceFound(e: Env, m: Machine, t: Tables, u: nat, r: nat, a: nat)
    requires Ready(e, m, t) && u < |m.items| && u < |m.la| && r < |e.g.rules| && a < e.g.nterminal
    requires Item(r, |e.g.rules[r].rhs|) in m.items[u] && Item(r, |e.g.rules[r].rhs|) in m.la[u]
    requires a in m.la[u][Item(r, |e.g.rules[r].rhs|)]
    ensures Shaped(t) && u < t.nstate && FindShiftAction(t, u, a) == t.nstate + r && t.nrule == |e.g.rules|
    ensures t.ruleInfo[r] == RuleInfo(e.g.rules[r].lhs, |e.g.rules[r].rhs|)
  {
    hide IsLR0, LaClosed, EnvOk, LambdaClosed, FindShiftAction, Edge;
    assert IsRaw(e.g, m, u, Action(a, REDUCE, r));
    TablesFitRule(e.g, m, t, r);
  }

  /** Where the driver goes after a reduction to the nonterminal that item p expects. */
  lemma GotoFound(e: Env, m: Machine, t: Tables, s: nat, p: Item, b: nat) returns (u: nat)
    requires Ready(e, m, t) && s < |m.items| && p in m.items[s] && Automata.Next(e.g, p, Nonterminal(b))
    ensures Shaped(t) && t.nstate == |m.items| && ReduceDefined(t, s, b) && FindReduceAction(t, s, b) == u < t.nstate
    ensures u < |m.kernel| && m.kernel[u] == Goto(e.g, m.items[s], Nonterminal(b))
  {
    hide LaClosed, LambdaClosed, Edge, TablesTake, HasSuccessors;
    assert e.g.ValidRule(e.g.rules[p.rule]) && e.g.ValidSymbol(Nonterminal(b)) && b != e.g.start;
    assert GotoNeeded(e.g, m, s, b);
    assert GotoFits(e.g, m, t, s, b);
    u := FindReduceAction(t, s, b);
    assert StateOk(e.g, m, s);
    EdgeOn(e.g, m, s, b, u);
  }

  /** The reduction itself. */
  lemma ReduceDone(t: Tables, c: Conf, c': Conf, r: nat, lhs: nat, kids: seq<Tree>, a: nat, s: nat, u: nat)
    returns (d: Conf)
    requires Shaped(t) && r < t.nrule && t.ruleInfo[r] == RuleInfo(lhs, |kids|)
    requires c.stack != [] && Top(c).stateno == s < t.nstate && ReduceDefined(t, s, lhs)
    requires FindReduceAction(t, s, lhs) == u < t.nstate
    requires |c'.stack| == |c.stack| + |kids| && c'.stack[..|c.stack|] == c.stack
    requires Minors(c'.stack[|c.stack|..]) == kids
    ensures d == c'.(stack := c.stack + [Entry(u, lhs, Tree.Node(r, kids))])
    ensures Reduce(t, c', r, a) == Outcome.Next(d, Some(a))
  {
    d := c'.(stack := c.stack + [Entry(u, lhs, Tree.Node(r, kids))]);
    assert c'.stack[..|c'.stack| - |kids|] == c.stack;
  }

  /** Reducing a rule other than a start rule. */
  lemma ReduceMove(e: Env, m: Machine, t: Tables, c: Conf, c': Conf, p: Item, r: nat, kids: seq<Tree>, rest: seq<nat>)
    returns (u: nat, d: Conf)
    requires Ready(e, m, t) && At(m, c, p) && r < |e.g.rules| && Automata.Next(e.g, p, Nonterminal(e.g.rules[r].lhs))
    requires KidsOn(e.g, c, kids, c') && |kids| == |e.g.rules[r].rhs| && rest != [] && rest[0] < e.g.nterminal
    requires Top(c').stateno < |m.items| && Top(c').stateno < |m.la|
    requires var it := Item(r, |e.g.rules[r].rhs|);
             it in m.items[Top(c').stateno] && it in m.la[Top(c').stateno] && rest[0] in m.la[Top(c').stateno][it]
    ensures Shaped(t) && Move(t, Point(c', rest)) == Some(Point(d, rest))
    ensures Recognised(e.g, c, Tree.Node(r, kids), u, d)
    ensures u < |m.kernel| && m.kernel[u] == Goto(e.g, m.items[Top(c).stateno], Nonterminal(e.g.rules[r].lhs))
  {
    hide Ready, FindShiftAction, ReduceDefined, FindReduceAction, Reduce;
    var s, b := Top(c).stateno, e.g.rules[r].lhs;
    ReduceFound(e, m, t, Top(c').stateno, r, rest[0]);
    u := GotoFound(e, m, t, s, p, b);
    d := ReduceDone(t, c, c', r, b, kids, rest[0], s, u);
  }

  // ----- recognising trees ---------------------------------------------------------------------------

  /** Moving the dot over a recognised symbol. */
  lemma DotMoves(e: Env, m: Machine, s: nat, p: Item, x: Symbol, u: nat)
    requires IsLR0(e.g, m) && LaClosed(e, m) && s < |m.items| && p in m.items[s] && Automata.Next(e.g, p, x)
    requires u < |m.kernel| && m.kernel[u] == Goto(e.g, m.items[s], x)
    ensures u < |m.items| && u < |m.la| && s < |m.la| && p in m.la[s] && Advance(p) in m.items[u]
    ensures Advance(p) in m.la[u]
    ensures m.la[s][p] <= m.la[u][Advance(p)]
  {
    hide LaClosed, StateOk;
    LaClosedShape(e, m);
    assert StateOk(e.g, m, u);
    assert Advance(p) in Goto(e.g, m.items[s], x);
    KernelInItems(e.g, m, u, Advance(p));
    LaClosedShift(e, m, s, p, x, u);
  }

  lemma ReadyFacts(e: Env, m: Machine, t: Tables)
    requires Ready(e, m, t)
    ensures EnvOk(e) && IsLR0(e.g, m) && LaClosed(e, m) && LambdaClosed(e.g, e.lambda) && Shaped(t)
    ensures t.nstate == |m.items| == |m.la|
    ensures forall s :: 0 <= s < |m.la| ==> m.la[s].Keys == m.items[s]
  {
    LaClosedShape(e, m);
  }

  /** Wherever a symbol is expected, the driver recognises any tree for it that the next token can follow. */
  lemma {:induction false} RecogniseTree(e: Env, m: Machine, t: Tables, c: Conf, p: Item, x: Symbol, tree: Tree,
                                         rest: seq<nat>)
    returns (n: nat, u: nat, c': Conf)
    requires Ready(e, m, t) && At(m, c, p) && Automata.Next(e.g, p, x) && ValidTree(e.g, tree)
    requires Matches(x, Root(e.g, tree))
    requires AllTokens(e.g, Frontier(tree)) && rest != [] && rest[0] < e.g.nterminal
    requires Due(e, m, Top(c).stateno, p, rest[0])
    ensures Shaped(t) && Run(t, Point(c, Frontier(tree) + rest), n) == Some(Point(c', rest))
    ensures Recognised(e.g, c, tree, u, c') && u < |m.kernel| && m.kernel[u] == Goto(e.g, m.items[Top(c).stateno], x)
    decreases tree, 1
  {
    hide Ready, Due, Move;
    match tree
    case Leaf(a) =>
      assert e.g.IsToken(Frontier(tree)[0]);
      u, c' := TokenMove(e, m, t, c, p, x, a, rest);
      n := 1;
      RunOne(t, Point(c, [a] + rest));
    case Node(r, kids) =>
      NodeExpected(e, m, t, c, p, x, tree, rest);
      var k, mid := RecogniseKids(e, m, t, c, r, 0, kids, rest);
      u, c' := ReduceMove(e, m, t, c, mid, p, r, kids, rest);
      n := k + 1;
      RunOn(t, Point(c, Frontiers(kids) + rest), k, 1);
      RunOne(t, Point(mid, rest));
  }

  /** The rule of the tree has been predicted, and the next token is among its lookaheads. */
  lemma NodeExpected(e: Env, m: Machine, t: Tables, c: Conf, p: Item, x: Symbol, tree: Tree, rest: seq<nat>)
    requires Ready(e, m, t) && At(m, c, p) && Automata.Next(e.g, p, x) && ValidTree(e.g, tree)
    requires Matches(x, Root(e.g, tree)) && tree.Node?
    requires rest != [] && Due(e, m, Top(c).stateno, p, rest[0])
    ensures Shaped(t) && tree.rule < |e.g.rules| && x == Nonterminal(e.g.rules[tree.rule].lhs)
    ensures At(m, c, Item(tree.rule, 0)) && Top(c).stateno < |m.la| && Item(tree.rule, 0) in m.la[Top(c).stateno]
    ensures rest[0] in m.la[Top(c).stateno][Item(tree.rule, 0)]
    ensures e.g.rules[tree.rule].rhs[0..] == e.g.rules[tree.rule].rhs
  {
    hide IsLR0, LaClosed, TablesFit, TablesTake, Due;
    ReadyFacts(e, m, t);
    assert e.g.ValidRule(e.g.rules[p.rule]) && e.g.ValidSymbol(x);
    RootKind(e.g, tree, x);
    PredictedDue(e, m, Top(c).stateno, p, Item(tree.rule, 0), rest[0]);
  }

  /** The rest of a rule: the trees ts for the symbols from d on. */
  lemma {:induction false} RecogniseKids(e: Env, m: Machine, t: Tables, c: Conf, r: nat, d: nat, ts: seq<Tree>,
                                         rest: seq<nat>)
    returns (n: nat, c': Conf)
    requires Ready(e, m, t) && r < |e.g.rules| && d <= |e.g.rules[r].rhs| && At(m, c, Item(r, d))
    requires MatchAll(e.g.rules[r].rhs[d..], Roots(e.g, ts)) && ValidTrees(e.g, ts) && AllTokens(e.g, Frontiers(ts))
    requires rest != [] && rest[0] < e.g.nterminal
    requires Top(c).stateno < |m.la| && Item(r, d) in m.la[Top(c).stateno]
    requires rest[0] in m.la[Top(c).stateno][Item(r, d)]
    ensures Shaped(t) && Run(t, Point(c, Frontiers(ts) + rest), n) == Some(Point(c', rest))
    ensures KidsOn(e.g, c, ts, c') && c'.stack != [] && Top(c').stateno < |m.items| && Top(c').stateno < |m.la|
    ensures var it := Item(r, |e.g.rules[r].rhs|);
            it in m.items[Top(c').stateno] && it in m.la[Top(c').stateno] && rest[0] in m.la[Top(c').stateno][it]
    decreases ts, 0
  {
    hide Ready, Due, Move, IsLR0, LaClosed, LambdaClosed, EnvOk, KidsOn, MatchAll, ValidTrees, AllTokens;
    ReadyFacts(e, m, t);
    if ts == [] {
      n, c' := 0, c;
      assert Frontiers(ts) + rest == rest;
      KidsEnd(e.g, c, r, d, ts);
    } else {
      KidsSplit(e.g, r, d, ts);
      var p, x := Item(r, d), e.g.rules[r].rhs[d];
      var after := Frontiers(ts[1..]) + rest;
      assert Frontiers(ts) + rest == Frontier(ts[0]) + after;
      RestDue(e, m, Top(c).stateno, r, d, ts[1..], rest);
      AfterIsToken(e.g, Frontiers(ts[1..]), rest);
      var k, u, mid := RecogniseTree(e, m, t, c, p, x, ts[0], after);
      DotMoves(e, m, Top(c).stateno, p, x, u);
      var j;
      j, c' := RecogniseKids(e, m, t, mid, r, d + 1, ts[1..], rest);
      n := k + j;
      RunOn(t, Point(c, Frontier(ts[0]) + after), k, j);
      KidsJoin(e.g, c, ts, u, mid, c');
    }
  }

  lemma KidsEnd(g: Grammar, c: Conf, r: nat, d: nat, ts: seq<Tree>)
    requires r < |g.rules| && d <= |g.rules[r].rhs| && MatchAll(g.rules[r].rhs[d..], Roots(g, ts)) && ts == []
    ensures d == |g.rules[r].rhs| && KidsOn(g, c, ts, c)
  {
    assert Minors(c.stack[|c.stack|..]) == [];
  }

  lemma AfterIsToken(g: Grammar, w: seq<nat>, rest: seq<nat>)
    requires AllTokens(g, w) && rest != [] && rest[0] < g.nterminal
    ensures (w + rest)[0] < g.nterminal
  {
  }

  lemma KidsSplit(g: Grammar, r: nat, d: nat, ts: seq<Tree>)
    requires r < |g.rules| && d <= |g.rules[r].rhs| && ts != []
    requires MatchAll(g.rules[r].rhs[d..], Roots(g, ts)) && ValidTrees(g, ts) && AllTokens(g, Frontiers(ts))
    ensures d < |g.rules[r].rhs| && Matches(g.rules[r].rhs[d], Root(g, ts[0])) && ValidTree(g, ts[0])
    ensures MatchAll(g.rules[r].rhs[d + 1..], Roots(g, ts[1..])) && ValidTrees(g, ts[1..])
    ensures AllTokens(g, Frontier(ts[0])) && AllTokens(g, Frontiers(ts[1..]))
  {
    var xs := g.rules[r].rhs[d..];
    assert Matches(xs[0], Roots(g, ts)[0]);
    TailMatches(g, xs, ts);
    assert xs[1..] == g.rules[r].rhs[d + 1..];
    var f, h := Frontier(ts[0]), Frontiers(ts[1..]);
    forall i | 0 <= i < |f| ensures g.IsToken(f[i]) { assert Frontiers(ts)[i] == f[i]; }
    forall i | 0 <= i < |h| ensures g.IsToken(h[i]) { assert Frontiers(ts)[|f| + i] == h[i]; }
  }

  lemma KidsJoin(g: Grammar, c: Conf, ts: seq<Tree>, u: nat, mid: Conf, c': Conf)
    requires ts != [] && Recognised(g, c, ts[0], u, mid) && KidsOn(g, mid, ts[1..], c')
    ensures KidsOn(g, c, ts, c')
  {
    var n := |c.stack|;
    assert c'.stack[..n] == c'.stack[..n + 1][..n] == c.stack;
    assert c'.stack[n] == c'.stack[..n + 1][n] == mid.stack[n];
    assert c'.stack[n..] == [c'.stack[n]] + c'.stack[n + 1..];
    assert Minors(c'.stack[n..]) == [ts[0]] + Minors(c'.stack[n + 1..]);
    assert ts == [ts[0]] + ts[1..];
  }

  // ----- whole parses --------------------------------------------------------------------------------------

  /** The last step: under the end marker the driver accepts with the configuration `final`. */
  ghost predicate Accepting(t: Tables, c: Conf, final: Conf)
    requires Shaped(t)
  {
    Step(t, c, 0) == Outcome.Next(final, Some(0)) && final.stack == []
  }

  /** Feed, with `left` iterations left for the first token. */
  function FeedLeft(t: Tables, c: Conf, input: seq<nat>, left: nat, fuel: nat): Option<Outcome>
    requires Shaped(t) && input != []
  {
    match Loop(t, c, input[0], left)
    case None => None
    case Some(Abort) => Some(Abort)
    case Some(Next(c', _)) => Feed(t, c', input[1..], fuel)
  }

  lemma StepAsks(t: Tables, c: Conf, major: nat)
    requires Shaped(t) && Step(t, c, major).Next?
    ensures Step(t, c, major).major == None || Step(t, c, major).major == Some(major)
  {
  }

  /** A run that ends in acceptance is what Feed does, given enough iterations for each token. */
  lemma {:induction false} RunFeeds(t: Tables, c: Conf, input: seq<nat>, n: nat, c1: Conf, final: Conf, left: nat,
                                    fuel: nat)
    requires Shaped(t) && c.stack != [] && input != []
    requires Run(t, Point(c, input), n) == Some(Point(c1, [0])) && Accepting(t, c1, final)
    requires left > n && fuel > n
    ensures FeedLeft(t, c, input, left, fuel) == Some(Outcome.Next(final, None))
    decreases n
  {
    hide Step, Accepting;
    if n == 0 {
      AcceptLoop(t, c, final, left);
      assert [0][1..] == [];
    } else {
      var q := Move(t, Point(c, input)).value;
      StepAsks(t, c, input[0]);
      if Step(t, c, input[0]).major == None {
        InputLeft(t, q, n - 1, c1);
        RunFeeds(t, q.c, q.input, n - 1, c1, final, fuel, fuel);
      } else {
        RunFeeds(t, q.c, q.input, n - 1, c1, final, left - 1, fuel);
      }
    }
  }

  lemma AcceptLoop(t: Tables, c: Conf, final: Conf, left: nat)
    requires Shaped(t) && Accepting(t, c, final) && left > 0
    ensures Loop(t, c, 0, left) == Some(Outcome.Next(final, Some(0)))
  {
    hide Step;
  }

  lemma InputLeft(t: Tables, q: Point, n: nat, c1: Conf)
    requires Shaped(t) && Run(t, q, n) == Some(Point(c1, [0]))
    ensures q.input != []
  {
  }

  /** Reducing a start rule accepts. */
  lemma AcceptMove(e: Env, m: Machine, t: Tables, c: Conf, c': Conf, r: nat, kids: seq<Tree>)
    requires Ready(e, m, t) && |c.stack| == 1 && Top(c).stateno == 0 && r < |e.g.rules| && e.g.rules[r].lhs == e.g.start
    requires KidsOn(e.g, c, kids, c') && |kids| == |e.g.rules[r].rhs|
    requires Top(c').stateno < |m.items| && Top(c').stateno < |m.la|
    requires var it := Item(r, |e.g.rules[r].rhs|);
             it in m.items[Top(c').stateno] && it in m.la[Top(c').stateno] && 0 in m.la[Top(c').stateno][it]
    ensures Shaped(t)
    ensures Accepting(t, c', c'.(stack := [], accepted := c'.accepted + [Accept(c'.shifted, Tree.Node(r, kids))]))
  {
    hide LaClosed, LambdaClosed, FindShiftAction, Edge, TablesTake;
    var b := e.g.start;
    ReduceFound(e, m, t, Top(c').stateno, r, 0);
    assert GotoNeeded(e.g, m, 0, b);
    assert GotoFits(e.g, m, t, 0, b);
    assert c'.stack[..1] == c.stack;
  }

  /** The driver has accepted the tokens with the tree, and reported no error. */
  function AcceptedWith(c: Conf, w: seq<nat>, tree: Tree): Conf {
    c.(stack := [], shifted := w, accepted := [Accept(w, tree)], errors := 0)
  }

  lemma StartItem(e: Env, m: Machine, t: Tables, r: nat)
    requires Ready(e, m, t) && r < |e.g.rules| && e.g.rules[r].lhs == e.g.start
    ensures |m.items| == |m.la| > 0 && Item(r, 0) in m.items[0] && Item(r, 0) in m.la[0] && 0 in m.la[0][Item(r, 0)]
  {
    hide StateOk, LambdaClosed, TablesFit, TablesTake;
    LaClosedShape(e, m);
    assert StateOk(e.g, m, 0);
    assert Item(r, 0) in m.kernel[0];
    KernelInItems(e.g, m, 0, Item(r, 0));
    LaClosedStart(e, m, Item(r, 0));
  }

  /** The driver takes n steps to read the tokens and accepts. */
  lemma TreeAccepted(e: Env, m: Machine, t: Tables, tree: Tree) returns (n: nat, c: Conf)
    requires Ready(e, m, t) && ValidTree(e.g, tree) && tree.Node? && Root(e.g, tree) == e.g.start
    requires AllTokens(e.g, Frontier(tree))
    ensures Shaped(t) && Run(t, Point(Start(Lempar.EMPTY), Frontier(tree) + [0]), n) == Some(Point(c, [0]))
    ensures exists final :: Accepting(t, c, final) && final == AcceptedWith(final, Frontier(tree), tree)
  {
    hide Ready, Accepting, KidsOn, Move;
    ReadyFacts(e, m, t);
    assert 0 < e.g.nterminal;
    var c0, r := Start(Lempar.EMPTY), tree.rule;
    StartItem(e, m, t, r);
    assert e.g.rules[r].rhs[0..] == e.g.rules[r].rhs;
    n, c := RecogniseKids(e, m, t, c0, r, 0, tree.kids, [0]);
    AcceptMove(e, m, t, c0, c, r, tree.kids);
    var final := c.(stack := [], accepted := c.accepted + [Accept(c.shifted, tree)]);
    assert c.shifted == Frontier(tree) && c.accepted == [] && c.errors == 0 by { KidsHistory(e.g, c0, tree.kids, c); }
    assert final == AcceptedWith(final, Frontier(tree), tree);
  }

  lemma KidsHistory(g: Grammar, c: Conf, kids: seq<Tree>, c': Conf)
    requires KidsOn(g, c, kids, c')
    ensures c'.shifted == c.shifted + Frontiers(kids) && c'.errors == c.errors && c'.accepted == c.accepted
  {
  }

  /** Fed the tokens and the end marker, the driver accepts them with the tree. */
  ghost predicate AcceptsTree(t: Tables, w: seq<nat>, tree: Tree, fuel: nat)
    requires Shaped(t)
  {
    exists final ::
      Feed(t, Lempar.EMPTY, w + [0], fuel) == Some(Outcome.Next(final, None)) && final == AcceptedWith(final, w, tree)
  }

  /**
    The driver is complete: given enough iterations, it accepts the tokens of every
    parse tree of the start symbol, without reporting an error, and builds that tree.
  */
  lemma DriverComplete(e: Env, m: Machine, t: Tables, tree: Tree) returns (enough: nat)
    requires Ready(e, m, t) && ValidTree(e.g, tree) && tree.Node? && Root(e.g, tree) == e.g.start
    requires AllTokens(e.g, Frontier(tree))
    ensures Shaped(t) && forall fuel :: fuel >= enough ==> AcceptsTree(t, Frontier(tree), tree, fuel)
  {
    hide Ready, Accepting, Run, Feed, Loop;
    ReadyFacts(e, m, t);
    var w := Frontier(tree);
    var n, c := TreeAccepted(e, m, t, tree);
    var final :| Accepting(t, c, final) && final == AcceptedWith(final, w, tree);
    enough := n + 1;
    forall fuel | fuel >= enough ensures AcceptsTree(t, w, tree, fuel) {
      RunFeeds(t, Start(Lempar.EMPTY), w + [0], n, c, final, fuel, fuel);
      FeedIsFeedLeft(t, w + [0], fuel);
      assert Feed(t, Lempar.EMPTY, w + [0], fuel) == Some(Outcome.Next(final, None));
    }
  }

  lemma FeedIsFeedLeft(t: Tables, input: seq<nat>, fuel: nat)
    requires Shaped(t) && input != []
    ensures Feed(t, Lempar.EMPTY, input, fuel) == FeedLeft(t, Start(Lempar.EMPTY), input, fuel, fuel)
  {
    hide Loop;
  }

  /** Where no action is lost the grammar is unambiguous: a sentence has one parse tree. */
  lemma Unambiguous(e: Env, m: Machine, t: Tables, a: Tree, b: Tree)
    requires Ready(e, m, t)
    requires ValidTree(e.g, a) && a.Node? && Root(e.g, a) == e.g.start && AllTokens(e.g, Frontier(a))
    requires ValidTree(e.g, b) && b.Node? && Root(e.g, b) == e.g.start && Frontier(b) == Frontier(a)
    ensures a == b
  {
    hide Ready, Feed;
    var x := DriverComplete(e, m, t, a);
    var y := DriverComplete(e, m, t, b);
    var fuel := x + y;
    assert AcceptsTree(t, Frontier(a), a, fuel) && AcceptsTree(t, Frontier(b), b, fuel);
  }
}
