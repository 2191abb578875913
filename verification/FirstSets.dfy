/**
  FindFirstSets: which nonterminals generate the empty string, and which tokens
  can begin a string that a nonterminal generates.
*/
module FirstSets {
  import opened Grammars

  /** The tokens a symbol stands for, when it is not a nonterminal. */
  function Tokens(x: Symbol): set<nat> {
    match x
    case Terminal(a) => {a}
    case Multi(subs) => set i | 0 <= i < |subs| :: subs[i]
    case Nonterminal(_) => {}
  }

  /** The first tokens of a symbol string: look behind a nonterminal only if its lambda flag is set. */
  function SuffixFirst(lambda: seq<bool>, first: seq<set<nat>>, xs: seq<Symbol>): set<nat> {
    if xs == [] then {}
    else if xs[0].Nonterminal? && xs[0].id < |lambda| && xs[0].id < |first| then
      first[xs[0].id] + if lambda[xs[0].id] then SuffixFirst(lambda, first, xs[1..]) else {}
    else Tokens(xs[0])
  }

  /** Every symbol of the string is a nonterminal with its lambda flag set. */
  predicate AllLambda(lambda: seq<bool>, xs: seq<Symbol>) {
    forall i :: 0 <= i < |xs| ==> xs[i].Nonterminal? && xs[i].id < |lambda| && lambda[xs[i].id]
  }

  ghost predicate DirectlyEmpty(g: Grammar, a: nat) {
    exists r :: 0 <= r < |g.rules| && g.rules[r].lhs == a && g.rules[r].rhs == []
  }

  /** The lambda flags that are computed: a nonterminal with an empty rule. */
  ghost predicate LambdaFor(g: Grammar, lambda: seq<bool>) {
    |lambda| == g.nsymbol && forall a :: 0 <= a < g.nsymbol ==> (lambda[a] <==> DirectlyEmpty(g, a))
  }

  ghost predicate Below(f: seq<set<nat>>, h: seq<set<nat>>) {
    |f| == |h| && forall a :: 0 <= a < |f| ==> f[a] <= h[a]
  }

  ghost predicate RuleSatisfied(g: Grammar, lambda: seq<bool>, first: seq<set<nat>>, r: nat)
    requires r < |g.rules|
  {
    g.rules[r].lhs < |first| && SuffixFirst(lambda, first, g.rules[r].rhs) <= first[g.rules[r].lhs]
  }

  /** The sets satisfy the equations of all rules. */
  ghost predicate Solution(g: Grammar, lambda: seq<bool>, first: seq<set<nat>>) {
    |first| == g.nsymbol && forall r :: 0 <= r < |g.rules| ==> RuleSatisfied(g, lambda, first, r)
  }

  ghost predicate LeastSolution(g: Grammar, lambda: seq<bool>, first: seq<set<nat>>) {
    && Solution(g, lambda, first)
    && forall h :: Solution(g, lambda, h) ==> Below(first, h)
  }

  lemma {:induction false} SuffixFirstMonotone(lambda: seq<bool>, f: seq<set<nat>>, h: seq<set<nat>>, xs: seq<Symbol>)
    requires Below(f, h)
    ensures SuffixFirst(lambda, f, xs) <= SuffixFirst(lambda, h, xs)
  {
    if xs != [] { SuffixFirstMonotone(lambda, f, h, xs[1..]); }
  }

  lemma {:induction false} SuffixFirstTokens(g: Grammar, lambda: seq<bool>, first: seq<set<nat>>, xs: seq<Symbol>)
    requires |lambda| == |first| == g.nsymbol
    requires forall a, b :: 0 <= a < |first| && b in first[a] ==> g.IsToken(b)
    requires forall i :: 0 <= i < |xs| ==> g.ValidSymbol(xs[i])
    ensures forall b :: b in SuffixFirst(lambda, first, xs) ==> g.IsToken(b)
  {
    if xs != [] { SuffixFirstTokens(g, lambda, first, xs[1..]); }
  }

  // ----- the computation ---------------------------------------------------------------

  /** The test that lets the lambda loop go past a symbol; it breaks on any symbol that is not a terminal. */
  predicate Passable(lambda: seq<bool>, x: Symbol) {
    x.Terminal? && x.id < |lambda| && lambda[x.id]
  }

  method RuleIsLambda(lambda: seq<bool>, rhs: seq<Symbol>) returns (b: bool)
    ensures b <==> forall k :: 0 <= k < |rhs| ==> Passable(lambda, rhs[k])
  {
    var i := 0;
    while i < |rhs|
      invariant i <= |rhs| && forall k :: 0 <= k < i ==> Passable(lambda, rhs[k])
    {
      if !Passable(lambda, rhs[i]) { break; }
      i := i + 1;
    }
    b := i == |rhs|;
  }

  /** No terminal has its flag set, so only an empty right-hand side passes. */
  lemma OnlyEmptyPasses(g: Grammar, lambda: seq<bool>, r: nat)
    requires g.WellFormed() && r < |g.rules| && |lambda| == g.nsymbol
    requires forall a :: 0 <= a < g.nterminal ==> !lambda[a]
    ensures (forall k :: 0 <= k < |g.rules[r].rhs| ==> Passable(lambda, g.rules[r].rhs[k])) <==> g.rules[r].rhs == []
  {
    var rhs := g.rules[r].rhs;
    assert g.ValidRule(g.rules[r]);
    if rhs != [] { assert g.ValidSymbol(rhs[0]) && !Passable(lambda, rhs[0]); }
  }

  ghost function Unset(lambda: seq<bool>): set<int> {
    set a | 0 <= a < |lambda| && !lambda[a]
  }

  method FindLambdas(g: Grammar) returns (lambda: seq<bool>)
    requires g.WellFormed()
    ensures LambdaFor(g, lambda)
  {
    lambda := seq(g.nsymbol, _ => false);
    var progress := true;
    while progress
      invariant |lambda| == g.nsymbol
      invariant forall a :: 0 <= a < g.nsymbol && lambda[a] ==> a >= g.nterminal && DirectlyEmpty(g, a)
      invariant !progress ==> forall r :: 0 <= r < |g.rules| && g.rules[r].rhs == [] ==> lambda[g.rules[r].lhs]
      decreases Unset(lambda), progress
    {
      progress := false;
      ghost var before := lambda;
      for r := 0 to |g.rules|
        invariant |lambda| == g.nsymbol
        invariant forall a :: 0 <= a < g.nsymbol && lambda[a] ==> a >= g.nterminal && DirectlyEmpty(g, a)
        invariant forall k :: 0 <= k < r && g.rules[k].rhs == [] ==> lambda[g.rules[k].lhs]
        invariant Unset(lambda) <= Unset(before)
        invariant if progress then Unset(lambda) != Unset(before) else lambda == before
      {
        var lhs := g.rules[r].lhs;
        assert g.ValidRule(g.rules[r]);
        if lambda[lhs] { continue; }
        var b := RuleIsLambda(lambda, g.rules[r].rhs);
        OnlyEmptyPasses(g, lambda, r);
        if b {
          assert lhs in Unset(lambda);
          lambda := lambda[lhs := true];
          assert lhs !in Unset(lambda);
          progress := true;
        }
      }
    }
  }

  /** The pairs that can still be added. */
  ghost function Missing(g: Grammar, first: seq<set<nat>>): set<(int, int)> {
    set a, b | 0 <= a < |first| && 0 <= b < g.nterminal && b !in first[a] :: (a, b)
  }

  ghost predicate TokenSets(g: Grammar, first: seq<set<nat>>) {
    |first| == g.nsymbol && forall a, b :: 0 <= a < |first| && b in first[a] ==> g.IsToken(b)
  }

  /** The scan of one right-hand side. */
  method FirstOfRule(g: Grammar, lambda: seq<bool>, first0: seq<set<nat>>, r: nat)
    returns (first: seq<set<nat>>, progress: bool)
    requires g.WellFormed() && r < |g.rules| && |lambda| == |first0| == g.nsymbol
    ensures first == first0[g.rules[r].lhs := first0[g.rules[r].lhs] + SuffixFirst(lambda, first0, g.rules[r].rhs)]
    ensures progress <==> first != first0
  {
    var s1, rhs := g.rules[r].lhs, g.rules[r].rhs;
    assert g.ValidRule(g.rules[r]);
    ghost var goal := first0[s1] + SuffixFirst(lambda, first0, rhs);
    var fs := first0[s1];
    progress := false;
    assert rhs[0..] == rhs;
    var i := 0;
    while i < |rhs|
      invariant i <= |rhs| && first0[s1] <= fs
      invariant fs + SuffixFirst(lambda, first0, rhs[i..]) == goal
      invariant progress <==> fs != first0[s1]
      decreases |rhs| - i
    {
      var s2 := rhs[i];
      assert g.ValidSymbol(s2);
      assert rhs[i..][1..] == rhs[i + 1..];
      match s2 {
      case Nonterminal(b) =>
        if b != s1 {
          progress := progress || !(first0[b] <= fs);
          fs := fs + first0[b];
        }
        if !lambda[b] {
          assert fs == goal;
          break;
        }
      case _ =>
        progress := progress || !(Tokens(s2) <= fs);
        fs := fs + Tokens(s2);
        assert fs == goal;
        break;
      }
      i := i + 1;
    }
    assert fs == goal;
    first := first0[s1 := fs];
    assert first[s1] == fs && (fs == first0[s1] ==> first == first0);
  }

  /** Enlarging one set by what its rule demands keeps the sets below every solution. */
  lemma RuleBelowSolutions(g: Grammar, lambda: seq<bool>, first: seq<set<nat>>, r: nat, h: seq<set<nat>>)
    requires g.WellFormed() && r < |g.rules| && |first| == g.nsymbol && Below(first, h) && Solution(g, lambda, h)
    ensures Below(first[g.rules[r].lhs := first[g.rules[r].lhs] + SuffixFirst(lambda, first, g.rules[r].rhs)], h)
  {
    assert RuleSatisfied(g, lambda, h, r);
    SuffixFirstMonotone(lambda, first, h, g.rules[r].rhs);
  }

  lemma RuleShrinksMissing(g: Grammar, first: seq<set<nat>>, first': seq<set<nat>>)
    requires TokenSets(g, first) && TokenSets(g, first') && Below(first, first')
    ensures Missing(g, first') <= Missing(g, first)
    ensures first' != first ==> Missing(g, first') != Missing(g, first)
  {
    if first' != first {
      var a :| 0 <= a < |first| && first'[a] != first[a];
      var b :| b in first'[a] && b !in first[a];
      assert g.IsToken(b);
      assert (a, b) in Missing(g, first) && (a, b) !in Missing(g, first');
    }
  }

  lemma RuleKeepsTokens(g: Grammar, lambda: seq<bool>, first: seq<set<nat>>, r: nat)
    requires g.WellFormed() && r < |g.rules| && |lambda| == g.nsymbol && TokenSets(g, first)
    ensures TokenSets(g, first[g.rules[r].lhs := first[g.rules[r].lhs] + SuffixFirst(lambda, first, g.rules[r].rhs)])
  {
    assert g.ValidRule(g.rules[r]);
    SuffixFirstTokens(g, lambda, first, g.rules[r].rhs);
  }

  ghost predicate BelowSolutions(g: Grammar, lambda: seq<bool>, first: seq<set<nat>>) {
    forall h :: Solution(g, lambda, h) ==> Below(first, h)
  }

  ghost predicate SatisfiedUpTo(g: Grammar, lambda: seq<bool>, first: seq<set<nat>>, n: nat)
    requires n <= |g.rules|
  {
    forall r :: 0 <= r < n ==> RuleSatisfied(g, lambda, first, r)
  }

  lemma TokenSetsSize(g: Grammar, first: seq<set<nat>>)
    requires TokenSets(g, first)
    ensures |first| == g.nsymbol
  {
  }

  /** One pass over the rules. */
  method FirstPass(g: Grammar, lambda: seq<bool>, first0: seq<set<nat>>) returns (first: seq<set<nat>>, progress: bool)
    requires g.WellFormed() && |lambda| == g.nsymbol
    requires TokenSets(g, first0) && BelowSolutions(g, lambda, first0)
    ensures TokenSets(g, first) && BelowSolutions(g, lambda, first)
    ensures Missing(g, first) <= Missing(g, first0)
    ensures if progress then Missing(g, first) != Missing(g, first0)
            else first == first0 && SatisfiedUpTo(g, lambda, first, |g.rules|)
  {
    hide TokenSets, Below, RuleSatisfied, Missing, Solution;
    first, progress := first0, false;
    for r := 0 to |g.rules|
      invariant TokenSets(g, first) && BelowSolutions(g, lambda, first)
      invariant Missing(g, first) <= Missing(g, first0)
      invariant if progress then Missing(g, first) != Missing(g, first0)
                else first == first0 && SatisfiedUpTo(g, lambda, first, r)
    {
      first, progress := PassOne(g, lambda, first0, first, r, progress);
    }
  }

  method PassOne(g: Grammar, lambda: seq<bool>, ghost first0: seq<set<nat>>, f: seq<set<nat>>, r: nat, progress0: bool)
    returns (first: seq<set<nat>>, progress: bool)
    requires g.WellFormed() && |lambda| == g.nsymbol && r < |g.rules|
    requires TokenSets(g, f) && BelowSolutions(g, lambda, f)
    requires Missing(g, f) <= Missing(g, first0)
    requires if progress0 then Missing(g, f) != Missing(g, first0) else f == first0 && SatisfiedUpTo(g, lambda, f, r)
    ensures TokenSets(g, first) && BelowSolutions(g, lambda, first)
    ensures Missing(g, first) <= Missing(g, first0)
    ensures if progress then Missing(g, first) != Missing(g, first0)
            else first == first0 && SatisfiedUpTo(g, lambda, first, r + 1)
  {
    hide TokenSets, Missing, Solution;
    assert |f| == g.nsymbol by { TokenSetsSize(g, f); }
    var more;
    first, more := FirstOfRule(g, lambda, f, r);
    progress := progress0 || more;
    RuleKeepsTokens(g, lambda, f, r);
    RuleShrinksMissing(g, f, first);
    forall h | Solution(g, lambda, h) ensures Below(first, h) {
      RuleBelowSolutions(g, lambda, f, r, h);
    }
  }

  /** The lambda flags and the least solution of the first-set equations. */
  method FindFirstSets(g: Grammar) returns (lambda: seq<bool>, first: seq<set<nat>>)
    requires g.WellFormed()
    ensures LambdaFor(g, lambda) && TokenSets(g, first) && LeastSolution(g, lambda, first)
  {
    lambda := FindLambdas(g);
    first := seq(g.nsymbol, _ => {});
    var progress := true;
    while progress
      invariant TokenSets(g, first) && BelowSolutions(g, lambda, first)
      invariant !progress ==> SatisfiedUpTo(g, lambda, first, |g.rules|)
      decreases Missing(g, first), progress
    {
      first, progress := FirstPass(g, lambda, first);
    }
  }

  // ----- what the results mean -----------------------------------------------------------

  /**
    Left of its first leaf the tree derives the empty string only from symbols with
    the lambda flag.
  */
  ghost predicate Skips(g: Grammar, lambda: seq<bool>, t: Tree)
    decreases t, 1
  {
    match t
    case Leaf(_) => true
    case Node(_, kids) => SkipsIn(g, lambda, kids)
  }

  ghost predicate SkipsIn(g: Grammar, lambda: seq<bool>, ts: seq<Tree>)
    decreases ts, 0
  {
    if ts == [] then true
    else if Frontier(ts[0]) != [] then Skips(g, lambda, ts[0])
    else Root(g, ts[0]) < |lambda| && lambda[Root(g, ts[0])] && SkipsIn(g, lambda, ts[1..])
  }

  ghost predicate StartsWith(g: Grammar, t: Tree, a: nat) {
    ValidTree(g, t) && Frontier(t) != [] && Frontier(t)[0] == a
  }

  /** Symbol b derives a form that begins with token a, skipping only symbols with the lambda flag. */
  ghost predicate Begins(g: Grammar, lambda: seq<bool>, b: nat, a: nat) {
    g.IsToken(a) && exists t :: Root(g, t) == b && StartsWith(g, t, a) && Skips(g, lambda, t)
  }

  lemma RootKind(g: Grammar, t: Tree, x: Symbol)
    requires g.WellFormed() && g.ValidSymbol(x) && ValidTree(g, t) && Matches(x, Root(g, t)) && t.Node?
    ensures x == Nonterminal(Root(g, t))
  {
    assert g.ValidRule(g.rules[t.rule]);
  }

  /** Any solution contains every token with which a tree begins. */
  lemma {:induction false} SolutionCoversTree(g: Grammar, lambda: seq<bool>, first: seq<set<nat>>, t: Tree)
    requires g.WellFormed() && |lambda| == g.nsymbol && Solution(g, lambda, first)
    requires t.Node? && ValidTree(g, t) && Skips(g, lambda, t) && Frontier(t) != [] && g.IsToken(Frontier(t)[0])
    ensures Root(g, t) < |first| && Frontier(t)[0] in first[Root(g, t)]
    decreases t, 1
  {
    assert g.ValidRule(g.rules[t.rule]) && RuleSatisfied(g, lambda, first, t.rule);
    SolutionCoversTrees(g, lambda, first, g.rules[t.rule].rhs, t.kids);
  }

  lemma {:induction false} SolutionCoversTrees(g: Grammar, lambda: seq<bool>, first: seq<set<nat>>, xs: seq<Symbol>,
                                               ts: seq<Tree>)
    requires g.WellFormed() && |lambda| == g.nsymbol && Solution(g, lambda, first)
    requires forall i :: 0 <= i < |xs| ==> g.ValidSymbol(xs[i])
    requires MatchAll(xs, Roots(g, ts)) && ValidTrees(g, ts) && SkipsIn(g, lambda, ts)
    requires Frontiers(ts) != [] && g.IsToken(Frontiers(ts)[0])
    ensures Frontiers(ts)[0] in SuffixFirst(lambda, first, xs)
    decreases ts, 0
  {
    var t, x := ts[0], xs[0];
    assert ValidTree(g, t) && g.ValidSymbol(x) && Matches(x, Roots(g, ts)[0]);
    if Frontier(t) == [] {
      RootKind(g, t, x);
      TailMatches(g, xs, ts);
      SolutionCoversTrees(g, lambda, first, xs[1..], ts[1..]);
    } else if t.Node? {
      RootKind(g, t, x);
      SolutionCoversTree(g, lambda, first, t);
    }
  }

  lemma TailMatches(g: Grammar, xs: seq<Symbol>, ts: seq<Tree>)
    requires MatchAll(xs, Roots(g, ts)) && xs != []
    ensures ts != [] && MatchAll(xs[1..], Roots(g, ts[1..]))
  {
    assert Roots(g, ts[1..]) == Roots(g, ts)[1..];
  }

  /** A leaf for each symbol. */
  function Leaves(xs: seq<Symbol>): seq<Tree> {
    seq(|xs|, i requires 0 <= i < |xs| =>
      match xs[i]
      case Terminal(a) => Leaf(a)
      case Nonterminal(a) => Leaf(a)
      case Multi(subs) => Leaf(if subs == [] then 0 else subs[0]))
  }

  lemma LeavesMatch(g: Grammar, xs: seq<Symbol>)
    requires forall i :: 0 <= i < |xs| ==> g.ValidSymbol(xs[i])
    ensures MatchAll(xs, Roots(g, Leaves(xs))) && ValidTrees(g, Leaves(xs))
  {
    forall i | 0 <= i < |xs| ensures Matches(xs[i], Roots(g, Leaves(xs))[i]) {
      assert g.ValidSymbol(xs[i]);
    }
  }

  ghost function Meaning(g: Grammar, lambda: seq<bool>): seq<set<nat>> {
    seq(g.nsymbol, b requires 0 <= b < g.nsymbol => set a | 0 <= a < g.nterminal && Begins(g, lambda, b, a))
  }

  /** The trees match the symbols and begin with token a. */
  ghost predicate TreesBegin(g: Grammar, lambda: seq<bool>, xs: seq<Symbol>, ts: seq<Tree>, a: nat) {
    && MatchAll(xs, Roots(g, ts)) && ValidTrees(g, ts) && SkipsIn(g, lambda, ts)
    && Frontiers(ts) != [] && Frontiers(ts)[0] == a
  }

  lemma TreesBeginHere(g: Grammar, lambda: seq<bool>, xs: seq<Symbol>, t: Tree, a: nat)
    requires xs != [] && Matches(xs[0], Root(g, t)) && StartsWith(g, t, a) && Skips(g, lambda, t)
    requires forall i :: 0 <= i < |xs| ==> g.ValidSymbol(xs[i])
    ensures TreesBegin(g, lambda, xs, [t] + Leaves(xs[1..]), a)
  {
    var ts := [t] + Leaves(xs[1..]);
    LeavesMatch(g, xs[1..]);
    assert ts[1..] == Leaves(xs[1..]);
    ConsValid(g, t, Leaves(xs[1..]));
    ConsMatches(g, xs, ts);
  }

  lemma TreesBeginLater(g: Grammar, lambda: seq<bool>, xs: seq<Symbol>, r: nat, us: seq<Tree>, a: nat)
    requires xs != [] && r < |g.rules| && g.rules[r].rhs == [] && xs[0] == Nonterminal(g.rules[r].lhs)
    requires g.rules[r].lhs < |lambda| && lambda[g.rules[r].lhs] && TreesBegin(g, lambda, xs[1..], us, a)
    ensures TreesBegin(g, lambda, xs, [Tree.Node(r, [])] + us, a)
  {
    var t := Tree.Node(r, []);
    var ts := [t] + us;
    assert Roots(g, []) == [] && Frontier(t) == [];
    assert ts[1..] == us;
    ConsValid(g, t, us);
    ConsMatches(g, xs, ts);
  }

  lemma ConsValid(g: Grammar, t: Tree, us: seq<Tree>)
    requires ValidTree(g, t) && ValidTrees(g, us)
    ensures ValidTrees(g, [t] + us)
  {
  }

  /** Trees for a symbol string whose first leaf is the token a. */
  lemma {:induction false} SuffixTrees(g: Grammar, lambda: seq<bool>, xs: seq<Symbol>, a: nat) returns (ts: seq<Tree>)
    requires g.WellFormed() && LambdaFor(g, lambda)
    requires forall i :: 0 <= i < |xs| ==> g.ValidSymbol(xs[i])
    requires a in SuffixFirst(lambda, Meaning(g, lambda), xs)
    ensures TreesBegin(g, lambda, xs, ts, a) && g.IsToken(a)
  {
    hide TreesBegin, StartsWith;
    var x := xs[0];
    assert g.ValidSymbol(x);
    match x {
      case Nonterminal(b) =>
        if a in Meaning(g, lambda)[b] {
          var t :| Root(g, t) == b && StartsWith(g, t, a) && Skips(g, lambda, t);
          TreesBeginHere(g, lambda, xs, t, a);
          ts := [t] + Leaves(xs[1..]);
        } else {
          var r :| 0 <= r < |g.rules| && g.rules[r].lhs == b && g.rules[r].rhs == [];
          var us := SuffixTrees(g, lambda, xs[1..], a);
          TreesBeginLater(g, lambda, xs, r, us, a);
          ts := [Tree.Node(r, [])] + us;
        }
      case _ =>
        assert g.IsToken(a);
        assert StartsWith(g, Leaf(a), a) by { LeafStarts(g, a); }
        TreesBeginHere(g, lambda, xs, Leaf(a), a);
        ts := [Leaf(a)] + Leaves(xs[1..]);
    }
  }

  lemma LeafStarts(g: Grammar, a: nat)
    ensures StartsWith(g, Leaf(a), a)
  {
  }

  lemma ConsMatches(g: Grammar, xs: seq<Symbol>, ts: seq<Tree>)
    requires xs != [] && ts != [] && MatchAll(xs[1..], Roots(g, ts[1..])) && Matches(xs[0], Root(g, ts[0]))
    ensures MatchAll(xs, Roots(g, ts))
  {
    forall i | 0 <= i < |xs| ensures Matches(xs[i], Roots(g, ts)[i]) {
      if i > 0 { assert Matches(xs[1..][i - 1], Roots(g, ts[1..])[i - 1]); }
    }
  }

  /** What trees begin with satisfies the equations. */
  lemma MeaningIsSolution(g: Grammar, lambda: seq<bool>)
    requires g.WellFormed() && LambdaFor(g, lambda)
    ensures Solution(g, lambda, Meaning(g, lambda))
  {
    forall r | 0 <= r < |g.rules| ensures RuleSatisfied(g, lambda, Meaning(g, lambda), r) {
      assert g.ValidRule(g.rules[r]);
      forall a | a in SuffixFirst(lambda, Meaning(g, lambda), g.rules[r].rhs)
        ensures a in Meaning(g, lambda)[g.rules[r].lhs] {
        var ts := SuffixTrees(g, lambda, g.rules[r].rhs, a);
        var t := Tree.Node(r, ts);
        assert StartsWith(g, t, a) && Skips(g, lambda, t);
      }
    }
  }

  /**
    The computed sets are exact: a is in first(b) if and only if b derives a form
    that begins with a while skipping only directly empty nonterminals.
  */
  lemma FirstExact(g: Grammar, lambda: seq<bool>, first: seq<set<nat>>, b: nat, a: nat)
    requires g.WellFormed() && LambdaFor(g, lambda) && LeastSolution(g, lambda, first) && g.IsNonterminal(b)
    ensures a in first[b] <==> Begins(g, lambda, b, a)
  {
    MeaningIsSolution(g, lambda);
    assert first[b] <= Meaning(g, lambda)[b];
    if Begins(g, lambda, b, a) {
      var t :| Root(g, t) == b && StartsWith(g, t, a) && Skips(g, lambda, t);
      SolutionCoversTree(g, lambda, first, t);
    }
  }

  // ----- lambda against nullability ------------------------------------------------------

  /** A rule of directly empty nonterminals only has a directly empty left-hand side. */
  ghost predicate LambdaClosed(g: Grammar, lambda: seq<bool>)
    requires |lambda| == g.nsymbol
  {
    forall r {:trigger g.rules[r]} :: 0 <= r < |g.rules| && AllLambda(lambda, g.rules[r].rhs) ==>
      g.rules[r].lhs < |lambda| && lambda[g.rules[r].lhs]
  }

  ghost predicate LambdaIsNullable(g: Grammar, lambda: seq<bool>)
    requires |lambda| == g.nsymbol
  {
    forall b: nat :: g.IsNonterminal(b) ==> (lambda[b] <==> Derives(g, b, []))
  }

  lemma {:induction false} EmptyTreeIsLambda(g: Grammar, lambda: seq<bool>, t: Tree)
    requires g.WellFormed() && |lambda| == g.nsymbol && LambdaClosed(g, lambda)
    requires ValidTree(g, t) && Frontier(t) == []
    ensures Root(g, t) < g.nsymbol && lambda[Root(g, t)]
    decreases t, 1
  {
    assert g.ValidRule(g.rules[t.rule]);
    EmptyTreesAreLambda(g, lambda, g.rules[t.rule].rhs, t.kids);
  }

  lemma {:induction false} EmptyTreesAreLambda(g: Grammar, lambda: seq<bool>, xs: seq<Symbol>, ts: seq<Tree>)
    requires g.WellFormed() && |lambda| == g.nsymbol && LambdaClosed(g, lambda)
    requires forall i :: 0 <= i < |xs| ==> g.ValidSymbol(xs[i])
    requires MatchAll(xs, Roots(g, ts)) && ValidTrees(g, ts) && Frontiers(ts) == []
    ensures AllLambda(lambda, xs)
    decreases ts, 0
  {
    if ts != [] {
      assert ValidTree(g, ts[0]) && g.ValidSymbol(xs[0]) && Matches(xs[0], Roots(g, ts)[0]);
      assert |Frontiers(ts)| == |Frontier(ts[0])| + |Frontiers(ts[1..])|;
      EmptyTreeIsLambda(g, lambda, ts[0]);
      RootKind(g, ts[0], xs[0]);
      TailMatches(g, xs, ts);
      EmptyTreesAreLambda(g, lambda, xs[1..], ts[1..]);
      forall i | 0 <= i < |xs| ensures xs[i].Nonterminal? && xs[i].id < |lambda| && lambda[xs[i].id] {
        if i > 0 { assert xs[1..][i - 1] == xs[i]; }
      }
    }
  }

  /** A tree with the given rule whose nonterminals all go to the empty string. */
  lemma {:induction false} EmptyKids(g: Grammar, lambda: seq<bool>, xs: seq<Symbol>) returns (ts: seq<Tree>)
    requires LambdaFor(g, lambda) && AllLambda(lambda, xs)
    ensures MatchAll(xs, Roots(g, ts)) && ValidTrees(g, ts) && Frontiers(ts) == []
  {
    if xs == [] {
      ts := [];
    } else {
      assert xs[0].Nonterminal?;
      var r :| 0 <= r < |g.rules| && g.rules[r].lhs == xs[0].id && g.rules[r].rhs == [];
      var us := EmptyKids(g, lambda, xs[1..]);
      var t := Tree.Node(r, []);
      ts := [t] + us;
      assert Roots(g, []) == [] && Frontier(t) == [] && ts[1..] == us;
      ConsMatches(g, xs, ts);
    }
  }

  /** The lambda flags decide nullability exactly for the grammars that are closed in this sense. */
  lemma LambdaExactIff(g: Grammar, lambda: seq<bool>)
    requires g.WellFormed() && LambdaFor(g, lambda)
    ensures LambdaIsNullable(g, lambda) <==> LambdaClosed(g, lambda)
    ensures forall b: nat :: g.IsNonterminal(b) && lambda[b] ==> Derives(g, b, [])
  {
    forall b: nat | g.IsNonterminal(b) && lambda[b] ensures Derives(g, b, []) {
      var r :| 0 <= r < |g.rules| && g.rules[r].lhs == b && g.rules[r].rhs == [];
      RuleDerivesEmpty(g, lambda, r);
    }
    if LambdaClosed(g, lambda) {
      forall b: nat | g.IsNonterminal(b) && Derives(g, b, []) ensures lambda[b] {
        var t :| ValidTree(g, t) && Root(g, t) == b && Frontier(t) == [];
        EmptyTreeIsLambda(g, lambda, t);
      }
    }
    if LambdaIsNullable(g, lambda) {
      forall r | 0 <= r < |g.rules| && AllLambda(lambda, g.rules[r].rhs)
        ensures g.rules[r].lhs < |lambda| && lambda[g.rules[r].lhs] {
        assert g.ValidRule(g.rules[r]);
        RuleDerivesEmpty(g, lambda, r);
      }
    }
  }

  /** Every nullable nonterminal has an empty rule of its own. */
  ghost predicate EmptyByRule(g: Grammar) {
    forall b: nat :: g.IsNonterminal(b) && Derives(g, b, []) ==> DirectlyEmpty(g, b)
  }

  /** The condition under which the flags are right, said of the grammar alone. */
  lemma EmptyByRuleIff(g: Grammar, lambda: seq<bool>)
    requires g.WellFormed() && LambdaFor(g, lambda)
    ensures EmptyByRule(g) <==> LambdaClosed(g, lambda)
  {
    hide Derives, DirectlyEmpty, LambdaClosed;
    LambdaExactIff(g, lambda);
  }

  lemma RuleDerivesEmpty(g: Grammar, lambda: seq<bool>, r: nat)
    requires LambdaFor(g, lambda) && r < |g.rules| && AllLambda(lambda, g.rules[r].rhs)
    ensures Derives(g, g.rules[r].lhs, [])
  {
    var ts := EmptyKids(g, lambda, g.rules[r].rhs);
    assert ValidTree(g, Tree.Node(r, ts));
  }

  /** In a closed grammar every tree skips only lambda symbols. */
  lemma {:induction false} ClosedTreesSkip(g: Grammar, lambda: seq<bool>, t: Tree)
    requires g.WellFormed() && |lambda| == g.nsymbol && LambdaClosed(g, lambda) && ValidTree(g, t)
    ensures Skips(g, lambda, t)
    decreases t, 1
  {
    if t.Node? { ClosedTreesSkipIn(g, lambda, t.kids); }
  }

  lemma {:induction false} ClosedTreesSkipIn(g: Grammar, lambda: seq<bool>, ts: seq<Tree>)
    requires g.WellFormed() && |lambda| == g.nsymbol && LambdaClosed(g, lambda) && ValidTrees(g, ts)
    ensures SkipsIn(g, lambda, ts)
    decreases ts, 0
  {
    if ts != [] {
      assert ValidTree(g, ts[0]);
      if Frontier(ts[0]) == [] { EmptyTreeIsLambda(g, lambda, ts[0]); }
      ClosedTreesSkip(g, lambda, ts[0]);
      ClosedTreesSkipIn(g, lambda, ts[1..]);
    }
  }

  /** In a closed grammar first(b) is exactly the set of tokens that can begin what b derives. */
  lemma FirstExactWhenClosed(g: Grammar, lambda: seq<bool>, first: seq<set<nat>>, b: nat, a: nat)
    requires g.WellFormed() && LambdaFor(g, lambda) && LeastSolution(g, lambda, first) && g.IsNonterminal(b)
    requires LambdaClosed(g, lambda)
    ensures a in first[b] <==> g.IsToken(a) && exists t :: Root(g, t) == b && StartsWith(g, t, a)
  {
    FirstExact(g, lambda, first, b, a);
    if exists t :: Root(g, t) == b && StartsWith(g, t, a) {
      var t :| Root(g, t) == b && StartsWith(g, t, a);
      ClosedTreesSkip(g, lambda, t);
    }
  }
}
