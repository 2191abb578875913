/**
  Whatever the driver accepts, the grammar derives.

  `TablesFit` is what the driver needs of its tables: every action they hold is an
  action of the automaton.  Nothing is asked about conflicts or defaults.
*/
module Soundness {
  import opened Grammars
  import opened Automata
  import opened Lempar

  ghost predicate ShiftFits(g: Grammar, m: Machine, t: Tables, s: nat, a: nat)
    requires Shaped(t) && s < t.nstate && |m.items| == t.nstate && t.nrule == |g.rules|
  {
    var act := FindShiftAction(t, s, a);
    && 0 <= act <= t.nstate + t.nrule
    && (act < t.nstate ==> a != 0 && Edge(g, m, s, a, act))
    && (t.nstate <= act < t.nstate + t.nrule ==>
          var r := act - t.nstate;
          && Item(r, |g.rules[r].rhs|) in m.items[s]
          && (g.rules[r].lhs == g.start ==> a == 0))
  }

  /** After a reduction to nonterminal b, state s must move on. */
  ghost predicate GotoNeeded(g: Grammar, m: Machine, s: nat, b: nat)
    requires s < |m.items|
  {
    || (s == 0 && b == g.start)
    || exists p :: p in m.items[s] && Automata.Next(g, p, Nonterminal(b))
  }

  ghost predicate GotoFits(g: Grammar, m: Machine, t: Tables, s: nat, b: nat)
    requires Shaped(t) && s < t.nstate
  {
    && ReduceDefined(t, s, b)
    && var act := FindReduceAction(t, s, b);
       if b == g.start then act == t.nstate + t.nrule + 1
       else 0 <= act < t.nstate && Edge(g, m, s, b, act)
  }

  ghost predicate TablesFit(g: Grammar, m: Machine, t: Tables) {
    && Shaped(t) && t.nstate == |m.items| && t.nrule == |g.rules|
    && (forall r :: 0 <= r < t.nrule ==> t.ruleInfo[r] == RuleInfo(g.rules[r].lhs, |g.rules[r].rhs|))
    && (forall s, a :: 0 <= s < t.nstate && 0 <= a < g.nterminal ==> ShiftFits(g, m, t, s, a))
    && (forall s, b :: 0 <= s < t.nstate && GotoNeeded(g, m, s, b) ==> GotoFits(g, m, t, s, b))
  }

  // ----- the stack invariant ----------------------------------------------------------

  ghost predicate EntryOk(g: Grammar, m: Machine, below: Entry, e: Entry) {
    && Edge(g, m, below.stateno, e.major, e.stateno)
    && ValidTree(g, e.minor) && Root(g, e.minor) == e.major
  }

  /** The states on the stack are a path of the automaton from state 0. */
  ghost predicate StackOk(g: Grammar, m: Machine, stack: seq<Entry>) {
    && stack != [] && stack[0].stateno == 0 && 0 < |m.items| == |m.kernel|
    && forall i :: 1 <= i < |stack| ==> EntryOk(g, m, stack[i - 1], stack[i])
  }

  /** A parse that stands for sentences: its tree is rooted at the start symbol and spans the tokens. */
  ghost predicate AcceptOk(g: Grammar, a: Accept) {
    ValidTree(g, a.tree) && Root(g, a.tree) == g.start && Frontier(a.tree) == a.tokens
  }

  /** Errors have been counted if and only if some have been reported. */
  predicate ReportsOk(c: Conf) {
    (c.errcnt > 0 ==> c.errors > 0) && (c.errors > 0 <==> c.reported > 0) && c.reported <= c.errors
  }

  ghost predicate ConfOk(g: Grammar, m: Machine, c: Conf) {
    && ReportsOk(c)
    && (c.stack != [] ==> StackOk(g, m, c.stack) && Frontiers(Minors(c.stack[1..])) == c.shifted)
    && (forall i :: 0 <= i < |c.shifted| ==> g.IsToken(c.shifted[i]))
    && (forall i :: 0 <= i < |c.accepted| ==> AcceptOk(g, c.accepted[i]))
    && (forall i, j :: 0 <= i < |c.accepted| && 0 <= j < |c.accepted[i].tokens| ==> g.IsToken(c.accepted[i].tokens[j]))
  }

  lemma StackStates(g: Grammar, m: Machine, stack: seq<Entry>)
    requires StackOk(g, m, stack)
    ensures forall i :: 0 <= i < |stack| ==> stack[i].stateno < |m.items|
  {
    forall i | 0 <= i < |stack| ensures stack[i].stateno < |m.items| {
      if i > 0 { assert EntryOk(g, m, stack[i - 1], stack[i]); }
    }
  }

  /**
    An item of the top state with its dot at d says that the top d symbols of the
    stack match the first d symbols of its rule, and that the state below them has
    the same item with the dot at the left.
  */
  lemma {:induction false} ItemSeesStack(g: Grammar, m: Machine, stack: seq<Entry>, r: nat, d: nat)
    requires IsLR0(g, m) && StackOk(g, m, stack)
    requires stack[|stack| - 1].stateno < |m.items| && Item(r, d) in m.items[stack[|stack| - 1].stateno]
    ensures r < |g.rules| && d <= |g.rules[r].rhs| && d < |stack|
    ensures stack[|stack| - 1 - d].stateno < |m.items| && Item(r, 0) in m.items[stack[|stack| - 1 - d].stateno]
    ensures forall k :: 0 <= k < d ==> Matches(g.rules[r].rhs[k], stack[|stack| - d + k].major)
    decreases d
  {
    hide Edge, StateOk;
    if d == 0 {
      assert StateOk(g, m, stack[|stack| - 1].stateno);
      ItemInRange(g, m, stack[|stack| - 1].stateno, Item(r, d));
    } else {
      var n := |stack| - 1;
      OneBack(g, m, stack, r, d);
      ItemSeesStack(g, m, stack[..n], r, d - 1);
      forall k | 0 <= k < d ensures Matches(g.rules[r].rhs[k], stack[|stack| - d + k].major) {
        if k < d - 1 { assert stack[..n][n - (d - 1) + k] == stack[|stack| - d + k]; }
      }
    }
  }

  lemma ItemInRange(g: Grammar, m: Machine, s: nat, it: Item)
    requires s < |m.items| && s < |m.kernel| && StateOk(g, m, s) && it in m.items[s]
    ensures ValidItem(g, it)
  {
  }

  /** No item of state 0 has its dot past the left. */
  lemma FirstStateDots(g: Grammar, m: Machine, it: Item)
    requires IsLR0(g, m)
    ensures it in m.items[0] ==> it.dot == 0
  {
    assert StateOk(g, m, 0);
    if it in m.items[0] && it !in m.kernel[0] { ClosureOrigin(g, m.kernel[0], m.items[0], it); }
  }

  /** The state below the top has the item with the dot one to the left. */
  lemma OneBack(g: Grammar, m: Machine, stack: seq<Entry>, r: nat, d: nat)
    requires IsLR0(g, m) && StackOk(g, m, stack) && d > 0
    requires stack[|stack| - 1].stateno < |m.items| && Item(r, d) in m.items[stack[|stack| - 1].stateno]
    ensures var n := |stack| - 1;
            && n > 0 && StackOk(g, m, stack[..n])
            && stack[n - 1].stateno < |m.items| && Item(r, d - 1) in m.items[stack[n - 1].stateno]
            && r < |g.rules| && d <= |g.rules[r].rhs| && Matches(g.rules[r].rhs[d - 1], stack[n].major)
  {
    hide IsLR0, Edge;
    var n := |stack| - 1;
    FirstStateDots(g, m, Item(r, d));
    assert EntryOk(g, m, stack[n - 1], stack[n]);
    EdgeBack(g, m, stack[n - 1].stateno, stack[n].major, stack[n].stateno, Item(r, d));
    PrefixKeeps(g, m, stack, n);
    StackStates(g, m, stack);
  }

  /** No edge enters state 0, so it occurs only at the bottom of the stack. */
  lemma NoEdgeToStart(g: Grammar, m: Machine, s: int, a: nat, t: int)
    requires IsLR0(g, m) && Edge(g, m, s, a, t)
    ensures t != 0
  {
    var it :| it in m.kernel[t];
    assert it.dot > 0;
  }

  lemma OnlyBottomIsZero(g: Grammar, m: Machine, stack: seq<Entry>, i: nat)
    requires IsLR0(g, m) && StackOk(g, m, stack) && i < |stack| && stack[i].stateno == 0
    ensures i == 0
  {
    if i > 0 {
      assert EntryOk(g, m, stack[i - 1], stack[i]);
      NoEdgeToStart(g, m, stack[i - 1].stateno, stack[i].major, 0);
    }
  }

  // ----- one step ------------------------------------------------------------------------

  /** The tree built from the top n entries is a tree for the rule. */
  lemma ReducedTree(g: Grammar, m: Machine, stack: seq<Entry>, r: nat)
    requires IsLR0(g, m) && StackOk(g, m, stack) && r < |g.rules|
    requires stack[|stack| - 1].stateno < |m.items| && Item(r, |g.rules[r].rhs|) in m.items[stack[|stack| - 1].stateno]
    ensures |g.rules[r].rhs| < |stack|
    ensures ValidTree(g, Tree.Node(r, Minors(stack[|stack| - |g.rules[r].rhs|..])))
  {
    var n := |g.rules[r].rhs|;
    ItemSeesStack(g, m, stack, r, n);
    var top := stack[|stack| - n..];
    var kids := Minors(top);
    forall i | 0 <= i < n ensures ValidTree(g, kids[i]) && Matches(g.rules[r].rhs[i], Roots(g, kids)[i]) {
      assert top[i] == stack[|stack| - n + i];
      assert EntryOk(g, m, stack[|stack| - n + i - 1], stack[|stack| - n + i]);
    }
  }

  lemma MinorsSplit(stack: seq<Entry>, k: nat)
    requires 1 <= k <= |stack|
    ensures Frontiers(Minors(stack[1..])) == Frontiers(Minors(stack[1..k])) + Frontiers(Minors(stack[k..]))
  {
    assert Minors(stack[1..]) == Minors(stack[1..k]) + Minors(stack[k..]);
    FrontiersConcat(Minors(stack[1..k]), Minors(stack[k..]));
  }

  /** Pushing an entry whose tree spans `w` extends what the stack spans by `w`. */
  lemma PushKeeps(g: Grammar, m: Machine, stack: seq<Entry>, e: Entry)
    requires StackOk(g, m, stack) && EntryOk(g, m, stack[|stack| - 1], e)
    ensures StackOk(g, m, stack + [e])
    ensures Frontiers(Minors((stack + [e])[1..])) == Frontiers(Minors(stack[1..])) + Frontier(e.minor)
  {
    var s := stack + [e];
    MinorsSplit(s, |stack|);
    assert s[1..|stack|] == stack[1..];
    assert Minors(s[|stack|..]) == [e.minor];
    FrontiersSingle(e.minor);
  }

  lemma PrefixKeeps(g: Grammar, m: Machine, stack: seq<Entry>, k: nat)
    requires StackOk(g, m, stack) && 1 <= k <= |stack|
    ensures StackOk(g, m, stack[..k])
  {
    forall i | 1 <= i < k ensures EntryOk(g, m, stack[..k][i - 1], stack[..k][i]) {
      assert EntryOk(g, m, stack[i - 1], stack[i]);
    }
  }

  /** Where a reduction by rule r goes. */
  lemma ReduceGoes(g: Grammar, m: Machine, t: Tables, stack: seq<Entry>, r: nat)
    requires g.WellFormed() && IsLR0(g, m) && TablesFit(g, m, t) && StackOk(g, m, stack) && r < |g.rules|
    requires stack[|stack| - 1].stateno < |m.items| && Item(r, |g.rules[r].rhs|) in m.items[stack[|stack| - 1].stateno]
    ensures var k := |stack| - |g.rules[r].rhs|;
            && k > 0 && stack[k - 1].stateno < t.nstate
            && GotoFits(g, m, t, stack[k - 1].stateno, g.rules[r].lhs)
            && (g.rules[r].lhs == g.start ==> k == 1)
  {
    var k := |stack| - |g.rules[r].rhs|;
    ItemSeesStack(g, m, stack, r, |g.rules[r].rhs|);
    var s := stack[k - 1].stateno;
    FreshItem(g, m, s, Item(r, 0));
    if g.rules[r].lhs == g.start { OnlyBottomIsZero(g, m, stack, k - 1); }
    assert GotoNeeded(g, m, s, g.rules[r].lhs);
  }

  /** What a loop iteration may do to the history. */
  ghost predicate Continues(c: Conf, c': Conf) {
    && c.shifted <= c'.shifted && c.errors <= c'.errors
    && c.accepted <= c'.accepted
    && (c'.stack != [] ==> c'.accepted == c.accepted)
  }

  /** The token was shifted, or it was dropped and counted as an error. */
  ghost predicate ShiftsOrDrops(c: Conf, c': Conf, major: nat) {
    || (major != 0 && c'.stack != [] && c'.errors == c.errors && c'.shifted == c.shifted + [major])
    || (&& (c'.stack == [] <==> major == 0) && c'.errors == c.errors + 1
        && c'.shifted == c.shifted && c'.accepted == c.accepted)
  }

  lemma ReducePushes(g: Grammar, m: Machine, t: Tables, c: Conf, r: nat, major: nat)
    requires g.WellFormed() && IsLR0(g, m) && TablesFit(g, m, t) && ConfOk(g, m, c) && c.stack != [] && r < |g.rules|
    requires Top(c).stateno < t.nstate && Item(r, |g.rules[r].rhs|) in m.items[Top(c).stateno]
    requires g.rules[r].lhs != g.start
    ensures var k := |c.stack| - |g.rules[r].rhs|;
            && k > 0 && c.stack[k - 1].stateno < t.nstate && ReduceDefined(t, c.stack[k - 1].stateno, g.rules[r].lhs)
            && var act := FindReduceAction(t, c.stack[k - 1].stateno, g.rules[r].lhs);
            && 0 <= act
            && var c' := c.(stack := c.stack[..k] + [Entry(act, g.rules[r].lhs, Tree.Node(r, Minors(c.stack[k..])))]);
            && Reduce(t, c, r, major) == Outcome.Next(c', Some(major)) && ConfOk(g, m, c')
  {
    hide TablesFit, IsLR0, StackOk, AcceptOk, Edge;
    TablesFitRule(g, m, t, r);
    var n, lhs := |g.rules[r].rhs|, g.rules[r].lhs;
    ReduceGoes(g, m, t, c.stack, r);
    ReducedTree(g, m, c.stack, r);
    var k := |c.stack| - n;
    var rest, tree := c.stack[..k], Tree.Node(r, Minors(c.stack[k..]));
    PrefixKeeps(g, m, c.stack, k);
    MinorsSplit(c.stack, k);
    assert rest[1..] == c.stack[1..k];
    PushKeeps(g, m, rest, Entry(FindReduceAction(t, rest[k - 1].stateno, lhs), lhs, tree));
  }

  lemma ReduceAccepts(g: Grammar, m: Machine, t: Tables, c: Conf, r: nat, major: nat)
    requires g.WellFormed() && IsLR0(g, m) && TablesFit(g, m, t) && ConfOk(g, m, c) && c.stack != [] && r < |g.rules|
    requires Top(c).stateno < t.nstate && Item(r, |g.rules[r].rhs|) in m.items[Top(c).stateno]
    requires g.rules[r].lhs == g.start
    ensures var a := Accept(c.shifted, Tree.Node(r, Minors(c.stack[1..])));
            && AcceptOk(g, a)
            && Reduce(t, c, r, major) == Outcome.Next(c.(stack := [], accepted := c.accepted + [a]), Some(major))
            && ConfOk(g, m, c.(stack := [], accepted := c.accepted + [a]))
  {
    hide TablesFit, IsLR0, StackOk;
    TablesFitRule(g, m, t, r);
    ReduceGoes(g, m, t, c.stack, r);
    ReducedTree(g, m, c.stack, r);
  }

  lemma TablesFitRule(g: Grammar, m: Machine, t: Tables, r: nat)
    requires TablesFit(g, m, t) && r < |g.rules|
    ensures Shaped(t) && t.nstate == |m.items| && t.nrule == |g.rules|
    ensures t.ruleInfo[r] == RuleInfo(g.rules[r].lhs, |g.rules[r].rhs|)
  {
  }

  /** What one iteration achieves. */
  ghost predicate StepDone(g: Grammar, m: Machine, c: Conf, o: Outcome, major: nat) {
    && o.Next? && ConfOk(g, m, o.conf) && Continues(c, o.conf)
    && (o.major == None || o.major == Some(major))
    && (o.major == None ==> ShiftsOrDrops(c, o.conf, major))
    && (o.major != None ==> o.conf.shifted == c.shifted && o.conf.errors == c.errors)
    && (o.conf.stack == [] ==> major == 0)
    && (o.major != None && o.conf.stack == [] ==> Accepts(c, o.conf))
  }

  lemma StepShifts(g: Grammar, m: Machine, t: Tables, c: Conf, major: nat, u: nat)
    requires Shaped(t) && ConfOk(g, m, c) && c.stack != [] && Top(c).stateno < t.nstate && 0 < major < g.nterminal
    requires FindShiftAction(t, Top(c).stateno, major) == u < t.nstate && Edge(g, m, Top(c).stateno, major, u)
    ensures StepDone(g, m, c, Step(t, c, major), major)
  {
    hide StackOk, AcceptOk, Edge, FindShiftAction;
    PushKeeps(g, m, c.stack, Entry(u, major, Leaf(major)));
  }

  lemma StepFails(g: Grammar, m: Machine, t: Tables, c: Conf, major: nat)
    requires Shaped(t) && ConfOk(g, m, c) && c.stack != [] && Top(c).stateno < t.nstate
    requires FindShiftAction(t, Top(c).stateno, major) == t.nstate + t.nrule
    ensures StepDone(g, m, c, Step(t, c, major), major)
  {
    hide StackOk, AcceptOk, FindShiftAction;
  }

  lemma StepReduces(g: Grammar, m: Machine, t: Tables, c: Conf, major: nat, r: nat)
    requires g.WellFormed() && IsLR0(g, m) && TablesFit(g, m, t) && ConfOk(g, m, c) && c.stack != [] && r < |g.rules|
    requires Shaped(t) && t.nrule == |g.rules| && Top(c).stateno < t.nstate && Top(c).stateno < |m.items|
    requires FindShiftAction(t, Top(c).stateno, major) == t.nstate + r
    requires Item(r, |g.rules[r].rhs|) in m.items[Top(c).stateno]
    requires g.rules[r].lhs == g.start ==> major == 0
    ensures StepDone(g, m, c, Step(t, c, major), major)
  {
    hide IsLR0, TablesFit, StackOk, AcceptOk, FindShiftAction, ReduceDefined, FindReduceAction, Reduce;
    if g.rules[r].lhs == g.start {
      ReduceAccepts(g, m, t, c, r, major);
    } else {
      ReducePushes(g, m, t, c, r, major);
    }
  }

  /**
    One iteration: no assertion fails, the invariant holds, and the parse ends only in
    acceptance or failure at the end of input.
  */
  lemma StepKeeps(g: Grammar, m: Machine, t: Tables, c: Conf, major: nat)
    requires g.WellFormed() && IsLR0(g, m) && TablesFit(g, m, t) && ConfOk(g, m, c) && c.stack != []
    requires major < g.nterminal
    ensures StepDone(g, m, c, Step(t, c, major), major)
  {
    hide IsLR0, ConfOk, TablesFit, Edge, Step, StepDone, FindShiftAction;
    TablesFitShape(g, m, t);
    ShiftFitsTop(g, m, t, c, major);
    var act := FindShiftAction(t, Top(c).stateno, major);
    if act < t.nstate {
      StepShifts(g, m, t, c, major, act);
    } else if act < t.nstate + t.nrule {
      StepReduces(g, m, t, c, major, act - t.nstate);
    } else {
      StepFails(g, m, t, c, major);
    }
  }

  /** c' is c after an acceptance: one more parse, of the tokens shifted. */
  ghost predicate Accepts(c: Conf, c': Conf) {
    && |c'.accepted| == |c.accepted| + 1 && c.accepted <= c'.accepted
    && c'.accepted[|c.accepted|].tokens == c.shifted
  }

  lemma ShiftFitsTop(g: Grammar, m: Machine, t: Tables, c: Conf, major: nat)
    requires TablesFit(g, m, t) && ConfOk(g, m, c) && c.stack != [] && major < g.nterminal
    ensures Top(c).stateno < t.nstate && ShiftFits(g, m, t, Top(c).stateno, major)
  {
    StackStates(g, m, c.stack);
  }

  // ----- whole runs -----------------------------------------------------------------------

  /** What one call of the parser does with a token. */
  ghost predicate CallDone(c: Conf, o: Outcome, major: nat) {
    && o.Next? && Continues(c, o.conf)
    && (ShiftsOrDrops(c, o.conf, major) ||
        (&& major == 0 && o.conf.stack == [] && Accepts(c, o.conf)
         && o.conf.shifted == c.shifted && o.conf.errors == c.errors))
  }

  lemma {:induction false} LoopKeeps(g: Grammar, m: Machine, t: Tables, c: Conf, major: nat, fuel: nat)
    requires g.WellFormed() && IsLR0(g, m) && TablesFit(g, m, t) && ConfOk(g, m, c) && c.stack != []
    requires major < g.nterminal
    ensures Loop(t, c, major, fuel).Some? ==>
              var o := Loop(t, c, major, fuel).value;
              CallDone(c, o, major) && ConfOk(g, m, o.conf)
    decreases fuel
  {
    hide ConfOk, IsLR0, TablesFit, Step;
    assert Shaped(t) by { TablesFitShape(g, m, t); }
    if fuel > 0 {
      StepKeeps(g, m, t, c, major);
      var o := Step(t, c, major);
      if o.major != None && o.conf.stack != [] {
        LoopKeeps(g, m, t, o.conf, major, fuel - 1);
      }
    }
  }

  lemma TablesFitShape(g: Grammar, m: Machine, t: Tables)
    requires TablesFit(g, m, t)
    ensures Shaped(t) && t.nstate == |m.items| && t.nrule == |g.rules|
  {
  }

  /** xs is w with some tokens left out. */
  ghost predicate Kept(xs: seq<nat>, w: seq<nat>) {
    if w == [] then xs == []
    else (xs != [] && xs[0] == w[0] && Kept(xs[1..], w[1..])) || Kept(xs, w[1..])
  }

  /** Feeding ordinary tokens to an open parse: each is shifted or counted as an error. */
  lemma {:induction false} FeedTokens(g: Grammar, m: Machine, t: Tables, c: Conf, w: seq<nat>, fuel: nat)
    returns (xs: seq<nat>)
    requires g.WellFormed() && IsLR0(g, m) && TablesFit(g, m, t) && ConfOk(g, m, c) && c.stack != []
    requires forall i :: 0 <= i < |w| ==> g.IsToken(w[i])
    ensures Kept(xs, w)
    ensures Feed(t, c, w, fuel).Some? ==>
              var o := Feed(t, c, w, fuel).value;
              && o.Next? && ConfOk(g, m, o.conf) && o.conf.stack != [] && o.conf.accepted == c.accepted
              && o.conf.shifted == c.shifted + xs && |xs| + o.conf.errors == |w| + c.errors
    ensures Feed(t, c, w, fuel).None? ==> xs == w
    decreases |w|
  {
    hide ConfOk, IsLR0, TablesFit, Loop;
    TablesFitShape(g, m, t);
    xs := w;
    KeptAll(w);
    if w != [] {
      LoopKeeps(g, m, t, c, w[0], fuel);
      if Loop(t, c, w[0], fuel).Some? {
        var c' := Loop(t, c, w[0], fuel).value.conf;
        var ys := FeedTokens(g, m, t, c', w[1..], fuel);
        if Feed(t, c, w, fuel).Some? {
          xs := if c'.errors == c.errors then [w[0]] + ys else ys;
        }
      }
    }
  }

  lemma {:induction false} KeptAll(w: seq<nat>)
    ensures Kept(w, w)
  {
    if w != [] { KeptAll(w[1..]); }
  }

  lemma {:induction false} FeedSplit(t: Tables, c: Conf, v: seq<nat>, w: seq<nat>, fuel: nat)
    requires Shaped(t)
    ensures Feed(t, c, v + w, fuel) ==
            match Feed(t, c, v, fuel)
            case None => None
            case Some(Abort) => Some(Abort)
            case Some(Next(c', _)) => if w == [] then Feed(t, c, v, fuel) else Feed(t, c', w, fuel)
    decreases |v|
  {
    if v == [] {
      assert v + w == w;
    } else {
      assert (v + w)[1..] == v[1..] + w && (v + w)[0] == v[0];
      match Call(t, c, v[0], fuel)
      case None =>
      case Some(Abort) =>
      case Some(Next(c', _)) => FeedSplit(t, c', v[1..], w, fuel);
    }
  }

  lemma StartOk(g: Grammar, m: Machine)
    requires IsLR0(g, m)
    ensures ConfOk(g, m, Start(EMPTY))
  {
    assert Minors(Start(EMPTY).stack[1..]) == [];
  }

  lemma FeedRestarts(t: Tables, c: Conf, w: seq<nat>, fuel: nat)
    requires Shaped(t) && w != []
    ensures Feed(t, c, w, fuel) == Feed(t, Start(c), w, fuel)
  {
  }

  /**
    The driver is sound.  Feed it any tokens followed by the end marker.  No
    assertion of the driver fails.  If it accepts, it accepts once, and the tokens
    it shifted, those it did not drop as errors, are a sentence with the parse
    tree built by the reductions.  Without errors that is the whole input; and if
    there are errors, at least one of them is reported.
  */
  lemma DriverSound(g: Grammar, m: Machine, t: Tables, w: seq<nat>, fuel: nat)
    requires g.WellFormed() && IsLR0(g, m) && TablesFit(g, m, t)
    requires forall i :: 0 <= i < |w| ==> g.IsToken(w[i])
    ensures Feed(t, EMPTY, w + [0], fuel).Some? ==>
              var o := Feed(t, EMPTY, w + [0], fuel).value;
              && o.Next? && o.conf.stack == []
              && Kept(o.conf.shifted, w) && |o.conf.shifted| <= |w|
              && (o.conf.errors > 0 <==> o.conf.reported > 0) && o.conf.reported <= o.conf.errors
              && (if o.conf.accepted == [] then o.conf.errors > 0
                  else
                    && |o.conf.accepted| == 1 && AcceptOk(g, o.conf.accepted[0])
                    && o.conf.accepted[0].tokens == o.conf.shifted
                    && Sentence(g, o.conf.shifted)
                    && |o.conf.shifted| + o.conf.errors == |w|)
  {
    hide ConfOk, IsLR0, TablesFit, Loop, Feed, Derives;
    TablesFitShape(g, m, t);
    StartOk(g, m);
    var c := Start(EMPTY);
    FeedRestarts(t, EMPTY, w + [0], fuel);
    FeedSplit(t, c, w, [0], fuel);
    var xs := FeedTokens(g, m, t, c, w, fuel);
    KeptLength(xs, w);
    if Feed(t, c, w, fuel).Some? && Feed(t, c, w + [0], fuel).Some? {
      var c' := Feed(t, c, w, fuel).value.conf;
      assert c'.shifted == xs;
      FeedOne(t, c', 0, fuel);
      LoopKeeps(g, m, t, c', 0, fuel);
      var d := Loop(t, c', 0, fuel).value.conf;
      ConfReports(g, m, d);
      if d.accepted != [] { AcceptedSentence(g, m, d); }
    }
  }

  lemma ConfReports(g: Grammar, m: Machine, c: Conf)
    requires ConfOk(g, m, c)
    ensures ReportsOk(c)
  {
  }

  lemma FeedOne(t: Tables, c: Conf, a: nat, fuel: nat)
    requires Shaped(t) && c.stack != []
    ensures Feed(t, c, [a], fuel) == match Loop(t, c, a, fuel) case None => None case Some(Abort) => Some(Abort)
                                     case Some(Next(c', _)) => Some(Outcome.Next(c', None))
  {
  }

  lemma AcceptedSentence(g: Grammar, m: Machine, c: Conf)
    requires ConfOk(g, m, c) && c.accepted != []
    ensures AcceptOk(g, c.accepted[0]) && Sentence(g, c.accepted[0].tokens)
  {
    assert Derives(g, g.start, c.accepted[0].tokens);
  }

  lemma {:induction false} KeptLength(xs: seq<nat>, w: seq<nat>)
    requires Kept(xs, w)
    ensures |xs| <= |w| && (|xs| == |w| ==> xs == w)
  {
    if w != [] {
      if xs != [] && xs[0] == w[0] && Kept(xs[1..], w[1..]) {
        KeptLength(xs[1..], w[1..]);
      } else {
        KeptLength(xs, w[1..]);
      }
    }
  }

  /** Accepted without an error: the input is a sentence. */
  lemma AcceptedIsSentence(g: Grammar, m: Machine, t: Tables, w: seq<nat>, fuel: nat)
    requires g.WellFormed() && IsLR0(g, m) && TablesFit(g, m, t)
    requires forall i :: 0 <= i < |w| ==> g.IsToken(w[i])
    requires Feed(t, EMPTY, w + [0], fuel).Some? && Feed(t, EMPTY, w + [0], fuel).value.Next?
    requires Feed(t, EMPTY, w + [0], fuel).value.conf.errors == 0
    ensures Sentence(g, w)
  {
    hide IsLR0, TablesFit, Sentence, AcceptOk;
    TablesFitShape(g, m, t);
    DriverSound(g, m, t, w, fuel);
    KeptLength(Feed(t, EMPTY, w + [0], fuel).value.conf.shifted, w);
  }
}
