/**
  The LR(0) automaton of a grammar, specified without reference to how it is built.
*/
module Automata {
  import opened Grammars

  /** A configuration: a rule with a dot. */
  datatype Item = Item(rule: nat, dot: nat)

  predicate ValidItem(g: Grammar, it: Item) {
    it.rule < |g.rules| && it.dot <= |g.rules[it.rule].rhs|
  }

  predicate ValidItems(g: Grammar, items: set<Item>) {
    forall it :: it in items ==> ValidItem(g, it)
  }

  /** x stands right after the dot. */
  predicate Next(g: Grammar, it: Item, x: Symbol) {
    it.rule < |g.rules| && it.dot < |g.rules[it.rule].rhs| && g.rules[it.rule].rhs[it.dot] == x
  }

  function Advance(it: Item): Item {
    Item(it.rule, it.dot + 1)
  }

  /** `it` starts a rule of the nonterminal after the dot of p. */
  predicate Predicts(g: Grammar, p: Item, it: Item) {
    it.dot == 0 && it.rule < |g.rules| && Next(g, p, Nonterminal(g.rules[it.rule].lhs))
  }

  /** The items of `items` with x after the dot, advanced by one. */
  function Goto(g: Grammar, items: set<Item>, x: Symbol): set<Item> {
    set it | it in items && Next(g, it, x) :: Advance(it)
  }

  function StartItems(g: Grammar): set<Item> {
    set r | 0 <= r < |g.rules| && g.rules[r].lhs == g.start :: Item(r, 0)
  }

  // ----- closure --------------------------------------------------------------------

  ghost predicate Closed(g: Grammar, items: set<Item>) {
    forall p, it :: p in items && Predicts(g, p, it) ==> it in items
  }

  /** `items` is the least closed set above `kernel`. */
  ghost predicate IsClosure(g: Grammar, kernel: set<Item>, items: set<Item>) {
    && kernel <= items
    && Closed(g, items)
    && (forall c: set<Item> :: kernel <= c && Closed(g, c) ==> items <= c)
  }

  /** Every item of a closure is in the kernel or was predicted by another item. */
  lemma ClosureOrigin(g: Grammar, kernel: set<Item>, items: set<Item>, it: Item)
    requires IsClosure(g, kernel, items) && it in items && it !in kernel
    ensures it.dot == 0 && exists p :: p in items && Predicts(g, p, it)
  {
    if forall p :: p in items ==> !Predicts(g, p, it) {
      var smaller := items - {it};
      assert Closed(g, smaller);
    }
  }

  // ----- the automaton -----------------------------------------------------------------

  /** States by number: the kernel (basis) items, all items, and the lookaheads of each item. */
  datatype Machine = Machine(kernel: seq<set<Item>>, items: seq<set<Item>>, la: seq<map<Item, set<nat>>>)

  /** Every symbol after a dot in state s leads to a state. */
  ghost predicate HasSuccessors(g: Grammar, m: Machine, s: nat)
    requires s < |m.items|
  {
    forall it, x {:trigger Next(g, it, x)} :: it in m.items[s] && Next(g, it, x) ==>
      exists t :: 0 <= t < |m.kernel| && m.kernel[t] == Goto(g, m.items[s], x)
  }

  ghost predicate StateOk(g: Grammar, m: Machine, s: nat)
    requires s < |m.items| && s < |m.kernel|
  {
    && IsClosure(g, m.kernel[s], m.items[s])
    && ValidItems(g, m.items[s])
    && HasSuccessors(g, m, s)
    && (s > 0 ==> m.kernel[s] != {} && forall it :: it in m.kernel[s] ==> it.dot > 0)
  }

  /** m is the LR(0) automaton of g: state 0 is the start state, no kernel occurs twice. */
  ghost predicate IsLR0(g: Grammar, m: Machine) {
    && |m.kernel| == |m.items| > 0
    && m.kernel[0] == StartItems(g)
    && (forall s :: 0 <= s < |m.items| ==> StateOk(g, m, s))
    && (forall s, t :: 0 <= s < t < |m.kernel| ==> m.kernel[s] != m.kernel[t])
  }

  ghost predicate Parent(g: Grammar, m: Machine, p: nat, x: Symbol, s: nat) {
    p < |m.items| && s < |m.kernel| && m.kernel[s] == Goto(g, m.items[p], x) != {}
  }

  ghost predicate HasMaker(g: Grammar, m: Machine, s: nat) {
    exists p: nat, x :: p < s && Parent(g, m, p, x, s)
  }

  /** Every state but the first is entered from a state with a smaller number. */
  ghost predicate MadeInOrder(g: Grammar, m: Machine) {
    forall s: nat :: 0 < s < |m.kernel| ==> HasMaker(g, m, s)
  }

  /** The automaton moves from s to t on symbol code a. */
  ghost predicate Edge(g: Grammar, m: Machine, s: int, a: nat, t: int) {
    && 0 <= s < |m.items| && 0 <= t < |m.kernel|
    && exists x :: Matches(x, a) && m.kernel[t] == Goto(g, m.items[s], x) != {}
  }

  /** What an advanced item says about the state it came from. */
  lemma EdgeBack(g: Grammar, m: Machine, s: int, a: nat, t: int, it: Item)
    requires IsLR0(g, m) && Edge(g, m, s, a, t) && t < |m.items| && it in m.items[t] && it.dot > 0
    ensures var p := Item(it.rule, it.dot - 1);
            && p in m.items[s] && p.rule < |g.rules| && p.dot < |g.rules[p.rule].rhs|
            && Matches(g.rules[p.rule].rhs[p.dot], a)
  {
    assert StateOk(g, m, t);
    var x :| Matches(x, a) && m.kernel[t] == Goto(g, m.items[s], x) != {};
    if it !in m.kernel[t] { ClosureOrigin(g, m.kernel[t], m.items[t], it); }
  }

  /** A fresh item is a start item of state 0, or some item of its state has its nonterminal after the dot. */
  lemma FreshItem(g: Grammar, m: Machine, s: nat, it: Item)
    requires g.WellFormed() && IsLR0(g, m) && s < |m.items| && it in m.items[s] && it.dot == 0
    ensures it.rule < |g.rules|
    ensures g.rules[it.rule].lhs == g.start ==> s == 0
    ensures g.rules[it.rule].lhs != g.start ==>
              exists p :: p in m.items[s] && Next(g, p, Nonterminal(g.rules[it.rule].lhs))
  {
    assert StateOk(g, m, s);
    if it in m.kernel[s] {
      assert s == 0;
    } else {
      ClosureOrigin(g, m.kernel[s], m.items[s], it);
      var p :| p in m.items[s] && Predicts(g, p, it);
      assert g.ValidRule(g.rules[p.rule]);
    }
  }

  // ----- parser actions -----------------------------------------------------------------

  /** e_action, in the order in which the comparison of actions ranks the kinds. */
  datatype Kind =
    SHIFT | ACCEPT | REDUCE | ERROR | SSCONFLICT | SRCONFLICT | RRCONFLICT | SH_RESOLVED | RD_RESOLVED | NOT_USED

  /** An action on symbol code sp: `arg` is the new state of a shift, the rule of a reduction. */
  datatype Action = Action(sp: nat, kind: Kind, arg: nat)
}
