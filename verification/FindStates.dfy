/**
  FindStates, getstate and buildshifts: the depth-first construction of the
  automaton.

  A state is identified by its number.  It keeps its sorted basis, its sorted
  closure, the follow sets and forward links of the closure, the back links of its
  items, and its action list (newest first).
*/
module FindStates {
  import opened Grammars
  import opened Automata
  import opened FollowSets
  import opened Lists
  import opened Configlist
  import opened SortedItems

  datatype State = State(basis: seq<Item>, items: seq<Item>, fws: map<Item, set<nat>>,
                         fplp: map<Item, seq<Item>>, bplp: map<Item, seq<Cfg>>, ap: seq<Action>)

  // ----- what a single state is -----------------------------------------------------------

  function InitialFws(s: nat, basis: seq<Item>): map<Item, set<nat>> {
    map it | it in basis :: if s == 0 then {0} else {}
  }

  /** The state is complete in itself: a closure in sorted order with exact follow sets and links. */
  ghost predicate LocalOk(e: Env, s: nat, st: State) {
    && Ordered(st.basis) && Ordered(st.items)
    && IsClosure(e.g, ItemSet(st.basis), ItemSet(st.items)) && ValidItems(e.g, ItemSet(st.items))
    && FwsExact(e, st.items, InitialFws(s, st.basis), st.fws) && LinksExact(e, st.items, st.fplp)
    && st.bplp.Keys == ItemSet(st.items)
    && (if s == 0 then ItemSet(st.basis) == StartItems(e.g)
        else st.basis != [] && forall it :: it in st.basis ==> it.dot > 0)
  }

  // ----- how states hang together ------------------------------------------------------------

  /** State t is the successor of state p on symbol x. */
  ghost predicate Leads(e: Env, states: seq<State>, p: nat, x: Symbol, t: nat) {
    && p < |states| && t < |states|
    && ItemSet(states[t].basis) == Goto(e.g, ItemSet(states[p].items), x) != {}
  }

  /** A back link leads to a configuration that the item was shifted from. */
  ghost predicate BackLink(e: Env, states: seq<State>, s: nat, it: Item, c: Cfg) {
    && c.state < |states| && c.item in states[c.state].items && Advance(c.item) == it
    && exists x :: Next(e.g, c.item, x) && Leads(e, states, c.state, x, s)
  }

  ghost predicate BackOk(e: Env, states: seq<State>, s: nat)
    requires s < |states|
  {
    forall it, c :: it in states[s].bplp && c in states[s].bplp[it] ==> BackLink(e, states, s, it, c)
  }

  /** Every action is a shift to the successor on its symbol. */
  ghost predicate ShiftOk(e: Env, states: seq<State>, s: nat, act: Action) {
    act.kind == SHIFT && exists x :: Matches(x, act.sp) && Leads(e, states, s, x, act.arg)
  }

  ghost predicate ShiftsOk(e: Env, states: seq<State>, s: nat)
    requires s < |states|
  {
    forall act :: act in states[s].ap ==> ShiftOk(e, states, s, act)
  }

  /** Every state but the first was reached from an earlier one. */
  ghost predicate HasParent(e: Env, states: seq<State>, s: nat) {
    exists p: nat, x :: p < s && Leads(e, states, p, x, s)
  }

  ghost predicate DistinctBases(states: seq<State>) {
    forall s, t :: 0 <= s < t < |states| ==> states[s].basis != states[t].basis
  }

  ghost predicate StateInv(e: Env, states: seq<State>, s: nat)
    requires s < |states|
  {
    && LocalOk(e, s, states[s]) && BackOk(e, states, s) && ShiftsOk(e, states, s)
    && (s > 0 ==> HasParent(e, states, s))
  }

  ghost predicate Inv(e: Env, states: seq<State>) {
    && (forall s :: 0 <= s < |states| ==> StateInv(e, states, s))
    && DistinctBases(states)
  }

  // ----- growth --------------------------------------------------------------------------------

  /** The part of a state that never changes. */
  ghost predicate SameCore(a: State, b: State) {
    a.basis == b.basis && a.items == b.items && a.fws == b.fws && a.fplp == b.fplp && a.bplp.Keys == b.bplp.Keys
  }

  ghost predicate MoreLinks(a: State, b: State) {
    forall it, c :: it in a.bplp && it in b.bplp && c in a.bplp[it] ==> c in b.bplp[it]
  }

  /** States are only added; existing ones may gain back links, and state `busy` may gain actions. */
  ghost predicate Grows(a: seq<State>, b: seq<State>, busy: int) {
    && |a| <= |b|
    && forall s :: 0 <= s < |a| ==> GrowsAt(a[s], b[s], s == busy)
  }

  ghost predicate GrowsAt(a: State, b: State, busy: bool) {
    SameCore(a, b) && MoreLinks(a, b) && (if busy then forall act :: act in a.ap ==> act in b.ap else a.ap == b.ap)
  }

  lemma GrowsTransitive(a: seq<State>, b: seq<State>, c: seq<State>, busy: int, busy': int)
    requires Grows(a, b, busy) && Grows(b, c, busy')
    requires busy' == busy || busy' < 0 || busy' >= |a|
    ensures Grows(a, c, busy)
  {
    forall s | 0 <= s < |a| ensures GrowsAt(a[s], c[s], s == busy) {
      assert GrowsAt(a[s], b[s], s == busy) && GrowsAt(b[s], c[s], s == busy');
    }
  }

  lemma LeadsGrows(e: Env, a: seq<State>, b: seq<State>, busy: int, p: nat, x: Symbol, t: nat)
    requires Grows(a, b, busy) && Leads(e, a, p, x, t)
    ensures Leads(e, b, p, x, t)
  {
    assert GrowsAt(a[p], b[p], p == busy) && GrowsAt(a[t], b[t], t == busy);
  }

  // ----- finished states ----------------------------------------------------------------------

  /** Symbol x of state s has been dealt with: its successor exists, is the target of its actions and links back. */
  ghost predicate SymbolDoneTo(e: Env, states: seq<State>, s: nat, x: Symbol, t: nat) {
    && Leads(e, states, s, x, t)
    && (forall a :: Matches(x, a) ==> Action(a, SHIFT, t) in states[s].ap)
    && (forall it :: it in states[s].items && Next(e.g, it, x) ==>
          Advance(it) in states[t].bplp && Cfg(s, it) in states[t].bplp[Advance(it)])
  }

  ghost predicate SymbolDone(e: Env, states: seq<State>, s: nat, x: Symbol) {
    exists t: nat :: SymbolDoneTo(e, states, s, x, t)
  }

  /** The number of actions for a symbol. */
  function CodeCount(x: Symbol): nat {
    if x.Multi? then |x.subs| else 1
  }

  /** The number of actions that the symbols after the dots can lead to. */
  function Width(g: Grammar, items: seq<Item>): nat {
    if items == [] then 0
    else
      var it := items[|items| - 1];
      Width(g, items[..|items| - 1]) +
      if it.rule < |g.rules| && it.dot < |g.rules[it.rule].rhs| then CodeCount(g.rules[it.rule].rhs[it.dot]) else 0
  }

  /** All symbols after a dot have been dealt with. */
  ghost predicate Finished(e: Env, states: seq<State>, s: nat)
    requires s < |states|
  {
    && |states[s].ap| <= Width(e.g, states[s].items)
    && forall it, x {:trigger Next(e.g, it, x)} ::
         it in states[s].items && Next(e.g, it, x) ==> SymbolDone(e, states, s, x)
  }

  lemma SymbolDoneGrows(e: Env, a: seq<State>, b: seq<State>, busy: int, s: nat, x: Symbol)
    requires Grows(a, b, busy) && SymbolDone(e, a, s, x)
    ensures SymbolDone(e, b, s, x)
  {
    var t: nat :| SymbolDoneTo(e, a, s, x, t);
    LeadsGrows(e, a, b, busy, s, x, t);
    assert GrowsAt(a[s], b[s], s == busy) && GrowsAt(a[t], b[t], t == busy);
    assert SymbolDoneTo(e, b, s, x, t);
  }

  lemma FinishedGrows(e: Env, a: seq<State>, b: seq<State>, busy: int, s: nat)
    requires Grows(a, b, busy) && s < |a| && s != busy && Finished(e, a, s)
    ensures Finished(e, b, s)
  {
    assert GrowsAt(a[s], b[s], s == busy);
    forall it, x {:trigger Next(e.g, it, x)} | it in b[s].items && Next(e.g, it, x) ensures SymbolDone(e, b, s, x) {
      SymbolDoneGrows(e, a, b, busy, s, x);
    }
  }

  // ----- what the three kinds of change keep ---------------------------------------------------

  lemma BackLinkGrows(e: Env, a: seq<State>, b: seq<State>, busy: int, s: nat, it: Item, c: Cfg)
    requires Grows(a, b, busy) && BackLink(e, a, s, it, c)
    ensures BackLink(e, b, s, it, c)
  {
    assert GrowsAt(a[c.state], b[c.state], c.state == busy);
    var x :| Next(e.g, c.item, x) && Leads(e, a, c.state, x, s);
    LeadsGrows(e, a, b, busy, c.state, x, s);
  }

  lemma ShiftOkGrows(e: Env, a: seq<State>, b: seq<State>, busy: int, s: nat, act: Action)
    requires Grows(a, b, busy) && ShiftOk(e, a, s, act)
    ensures ShiftOk(e, b, s, act)
  {
    var x :| Matches(x, act.sp) && Leads(e, a, s, x, act.arg);
    LeadsGrows(e, a, b, busy, s, x, act.arg);
  }

  lemma HasParentGrows(e: Env, a: seq<State>, b: seq<State>, busy: int, s: nat)
    requires Grows(a, b, busy) && HasParent(e, a, s)
    ensures HasParent(e, b, s)
  {
    var p: nat, x :| p < s && Leads(e, a, p, x, s);
    LeadsGrows(e, a, b, busy, p, x, s);
  }

  /** A state keeps its invariant when new links and actions are sound. */
  lemma StateInvGrows(e: Env, a: seq<State>, b: seq<State>, busy: int, s: nat)
    requires Grows(a, b, busy) && s < |a| && StateInv(e, a, s)
    requires forall it, c :: it in b[s].bplp && c in b[s].bplp[it] && (it !in a[s].bplp || c !in a[s].bplp[it]) ==>
      BackLink(e, b, s, it, c)
    requires forall act :: act in b[s].ap && act !in a[s].ap ==> ShiftOk(e, b, s, act)
    ensures StateInv(e, b, s)
  {
    hide BackLink, ShiftOk, HasParent, Grows;
    assert GrowsAt(a[s], b[s], s == busy) by { GrowsHere(a, b, busy, s); }
    forall it, c | it in b[s].bplp && c in b[s].bplp[it] ensures BackLink(e, b, s, it, c) {
      if it in a[s].bplp && c in a[s].bplp[it] { BackLinkGrows(e, a, b, busy, s, it, c); }
    }
    forall act | act in b[s].ap ensures ShiftOk(e, b, s, act) {
      if act in a[s].ap { ShiftOkGrows(e, a, b, busy, s, act); }
    }
    if s > 0 { HasParentGrows(e, a, b, busy, s); }
    LocalSame(e, s, a[s], b[s]);
  }

  lemma GrowsHere(a: seq<State>, b: seq<State>, busy: int, s: nat)
    requires Grows(a, b, busy) && s < |a|
    ensures |a| <= |b| && GrowsAt(a[s], b[s], s == busy)
  {
  }

  lemma LocalSame(e: Env, s: nat, a: State, b: State)
    requires SameCore(a, b) && LocalOk(e, s, a)
    ensures LocalOk(e, s, b)
  {
  }

  lemma BasesGrow(a: seq<State>, b: seq<State>, busy: int)
    requires Grows(a, b, busy) && |a| == |b| && DistinctBases(a)
    ensures DistinctBases(b)
  {
    forall s, t | 0 <= s < t < |b| ensures b[s].basis != b[t].basis {
      assert GrowsAt(a[s], b[s], s == busy) && GrowsAt(a[t], b[t], t == busy);
    }
  }

  /** Changing one state by sound links and actions keeps the whole invariant. */
  lemma InvChange(e: Env, a: seq<State>, b: seq<State>, t: nat)
    requires Inv(e, a) && t < |a| == |b| && b == a[t := b[t]]
    requires GrowsAt(a[t], b[t], true)
    requires forall it, c :: it in b[t].bplp && c in b[t].bplp[it] && (it !in a[t].bplp || c !in a[t].bplp[it]) ==>
      BackLink(e, b, t, it, c)
    requires forall act :: act in b[t].ap && act !in a[t].ap ==> ShiftOk(e, b, t, act)
    ensures Inv(e, b) && Grows(a, b, t) && (b[t].ap == a[t].ap ==> Grows(a, b, -1))
  {
    hide StateInv, BackLink, ShiftOk, DistinctBases;
    assert Grows(a, b, t) by {
      forall s | 0 <= s < |a| ensures GrowsAt(a[s], b[s], s == t) { }
    }
    forall s | 0 <= s < |b| ensures StateInv(e, b, s) {
      StateInvGrows(e, a, b, t, s);
    }
    BasesGrow(a, b, t);
  }

  /** Appending a sound state with a new basis keeps the whole invariant. */
  lemma InvAppend(e: Env, a: seq<State>, st: State)
    requires Inv(e, a) && StateInv(e, a + [st], |a|)
    requires forall s :: 0 <= s < |a| ==> a[s].basis != st.basis
    ensures Inv(e, a + [st]) && Grows(a, a + [st], -1)
  {
    hide StateInv;
    var b := a + [st];
    assert Grows(a, b, -1) by {
      forall s | 0 <= s < |a| ensures GrowsAt(a[s], b[s], false) { }
    }
    forall s | 0 <= s < |b| ensures StateInv(e, b, s) {
      if s < |a| { StateInvGrows(e, a, b, -1, s); }
    }
  }

  // ----- a new state -------------------------------------------------------------------------------

  function Back(it: Item): Item {
    Item(it.rule, if it.dot > 0 then it.dot - 1 else 0)
  }

  /** The list holds what state p becomes after x, each item linked back to where it came from. */
  ghost predicate Shifted(e: Env, states: seq<State>, p: nat, x: Symbol, cl: Configs) {
    && p < |states| && ListOk(cl) && ItemSet(cl.current) == Goto(e.g, ItemSet(states[p].items), x) != {}
    && (forall it :: it in cl.fws ==> cl.fws[it] == {} && cl.fplp[it] == [] && cl.bplp[it] == [Cfg(p, Back(it))])
  }

  /** The list for the first state: the start items, followed by the end marker. */
  ghost predicate Starting(e: Env, cl: Configs) {
    && ListOk(cl) && ItemSet(cl.current) == StartItems(e.g)
    && (forall it :: it in cl.fws ==> cl.fws[it] == {0} && cl.fplp[it] == [] && cl.bplp[it] == [])
  }

  function NewState(bp: seq<Item>, items: seq<Item>, cl: Configs): State {
    State(bp, items, cl.fws, cl.fplp, cl.bplp, [])
  }

  /** The closure of a list, sorted, is a state in itself. */
  lemma NewStateLocal(e: Env, s: nat, cl0: Configs, cl: Configs, bp: seq<Item>, items: seq<Item>)
    requires ClosureDone(e, cl0, cl, |cl.current|)
    requires Ordered(bp) && ItemSet(bp) == ItemSet(cl0.current) && Ordered(items)
    requires ItemSet(items) == ItemSet(cl.current)
    requires cl0.fws == InitialFws(s, bp)
    requires if s == 0 then ItemSet(bp) == StartItems(e.g) else bp != [] && forall it :: it in bp ==> it.dot > 0
    ensures LocalOk(e, s, NewState(bp, items, cl))
  {
    hide Ordered, IsClosure, Given, PassesOn, Covers, Minimal, FwsDone, LinksDone, CoversDone, BackAsBefore, ValidItems;
    ClosureIsClosure(e, cl0, cl);
    ClosureTables(e, cl0, cl);
    assert forall it :: it in items <==> it in cl.current by {
      forall it ensures it in items <==> it in cl.current { assert it in items <==> it in ItemSet(items); }
    }
  }

  lemma ShiftedFacts(e: Env, states: seq<State>, p: nat, x: Symbol, cl: Configs, it: Item)
    requires Shifted(e, states, p, x, cl) && it in cl.current
    ensures it.dot > 0 && Back(it) in states[p].items && Next(e.g, Back(it), x) && Advance(Back(it)) == it
  {
    assert it in ItemSet(cl.current);
  }

  lemma ShiftedValid(e: Env, states: seq<State>, p: nat, x: Symbol, cl: Configs)
    requires Shifted(e, states, p, x, cl)
    ensures ValidItems(e.g, ItemSet(cl.current))
  {
    forall it | it in ItemSet(cl.current) ensures ValidItem(e.g, it) {
      ShiftedFacts(e, states, p, x, cl, it);
    }
  }

  lemma ShiftedInitial(e: Env, states: seq<State>, p: nat, x: Symbol, cl: Configs, bp: seq<Item>)
    requires Shifted(e, states, p, x, cl) && ItemSet(bp) == ItemSet(cl.current)
    ensures cl.fws == InitialFws(|states|, bp) && bp != [] && forall it :: it in bp ==> it.dot > 0
  {
    forall it | it in bp ensures it.dot > 0 && it in cl.current {
      assert it in ItemSet(bp);
      ShiftedFacts(e, states, p, x, cl, it);
    }
  }

  /** The new state for a shifted list meets the invariant. */
  lemma NewStateInv(e: Env, states: seq<State>, p: nat, x: Symbol, cl0: Configs, cl: Configs, bp: seq<Item>,
                    items: seq<Item>)
    requires Shifted(e, states, p, x, cl0) && ClosureDone(e, cl0, cl, |cl.current|)
    requires Ordered(bp) && ItemSet(bp) == ItemSet(cl0.current) && Ordered(items)
    requires ItemSet(items) == ItemSet(cl.current)
    ensures StateInv(e, states + [NewState(bp, items, cl)], |states|)
    ensures Leads(e, states + [NewState(bp, items, cl)], p, x, |states|)
  {
    hide LocalOk, Ordered, ClosureDone;
    var s, st := |states|, NewState(bp, items, cl);
    var b := states + [st];
    ShiftedInitial(e, states, p, x, cl0, bp);
    NewStateLocal(e, s, cl0, cl, bp, items);
    assert Leads(e, b, p, x, s);
    assert HasParent(e, b, s);
    forall it, c | it in st.bplp && c in st.bplp[it] ensures BackLink(e, b, s, it, c) {
      BackBefore(e, cl0, cl, it);
      assert it in cl0.bplp;
      ShiftedBackLink(e, states, p, x, cl0, b, s, it, c);
    }
  }

  /** The links of a shifted list are back links of the state it becomes. */
  lemma ShiftedBackLink(e: Env, a: seq<State>, p: nat, x: Symbol, cl: Configs, b: seq<State>, t: nat, it: Item, c: Cfg)
    requires Shifted(e, a, p, x, cl) && it in cl.bplp && c in cl.bplp[it]
    requires p < |b| && b[p].items == a[p].items && Leads(e, b, p, x, t)
    ensures BackLink(e, b, t, it, c) && c == Cfg(p, Back(it))
  {
    assert c == Cfg(p, Back(it));
    ShiftedFacts(e, a, p, x, cl, it);
  }

  lemma BackBefore(e: Env, cl0: Configs, cl: Configs, it: Item)
    requires ClosureDone(e, cl0, cl, |cl.current|) && it in cl.bplp
    ensures cl.bplp[it] == if it in cl0.bplp then cl0.bplp[it] else []
  {
  }

  /** The first state. */
  lemma FirstStateInv(e: Env, cl0: Configs, cl: Configs, bp: seq<Item>, items: seq<Item>)
    requires Starting(e, cl0) && ClosureDone(e, cl0, cl, |cl.current|)
    requires Ordered(bp) && ItemSet(bp) == ItemSet(cl0.current) && Ordered(items)
    requires ItemSet(items) == ItemSet(cl.current)
    ensures StateInv(e, [NewState(bp, items, cl)], 0)
  {
    hide LocalOk, Ordered, ClosureDone, StartItems;
    var st := NewState(bp, items, cl);
    assert forall it :: it in bp <==> it in ItemSet(bp);
    assert cl0.fws == InitialFws(0, bp);
    NewStateLocal(e, 0, cl0, cl, bp, items);
    forall it | it in st.bplp ensures st.bplp[it] == [] {
      BackBefore(e, cl0, cl, it);
    }
  }

  // ----- termination: finitely many bases ------------------------------------------------------

  ghost function AllKernels(g: Grammar): set<set<Item>> {
    set k | k <= AllItems(g)
  }

  ghost function Kernels(states: seq<State>): set<set<Item>> {
    set s | 0 <= s < |states| :: ItemSet(states[s].basis)
  }

  ghost function Remaining(e: Env, states: seq<State>): set<set<Item>> {
    AllKernels(e.g) - Kernels(states)
  }

  lemma RemainingShrinks(e: Env, a: seq<State>, b: seq<State>, busy: int)
    requires Grows(a, b, busy)
    ensures Remaining(e, b) <= Remaining(e, a)
  {
    forall k | k in Kernels(a) ensures k in Kernels(b) {
      var s :| 0 <= s < |a| && ItemSet(a[s].basis) == k;
      assert GrowsAt(a[s], b[s], s == busy);
    }
  }

  lemma NewBasisRemains(e: Env, states: seq<State>, st: State)
    requires Inv(e, states) && Ordered(st.basis) && ItemSet(st.basis) <= AllItems(e.g)
    requires forall s :: 0 <= s < |states| ==> states[s].basis != st.basis
    ensures Remaining(e, states + [st]) < Remaining(e, states)
  {
    var k := ItemSet(st.basis);
    if k in Kernels(states) {
      var s :| 0 <= s < |states| && ItemSet(states[s].basis) == k;
      assert StateInv(e, states, s);
      OrderedUnique(states[s].basis, st.basis);
    }
    var b := states + [st];
    forall j | j in Kernels(states) ensures j in Kernels(b) {
      var s :| 0 <= s < |states| && ItemSet(states[s].basis) == j;
      assert b[s] == states[s];
    }
    assert ItemSet(b[|states|].basis) in Kernels(b);
    assert k in Remaining(e, states) && k !in Remaining(e, b);
  }

  lemma ValidIsInAllItems(g: Grammar, items: set<Item>)
    requires ValidItems(g, items)
    ensures items <= AllItems(g)
  {
  }

  // ----- collecting a shifted basis ----------------------------------------------------------------

  /** The items with x after the dot among the first j, advanced. */
  ghost predicate CollectedItems(e: Env, items: seq<Item>, x: Symbol, j: nat, current: seq<Item>)
    requires j <= |items|
  {
    forall it :: it in current <==> it.dot > 0 && Back(it) in items[..j] && Next(e.g, Back(it), x)
  }

  ghost predicate LinkedBack(s: nat, cl: Configs)
    requires ListOk(cl)
  {
    forall it :: it in cl.fws ==> cl.fws[it] == {} && cl.fplp[it] == [] && cl.bplp[it] == [Cfg(s, Back(it))]
  }

  ghost predicate Collected(e: Env, items: seq<Item>, s: nat, x: Symbol, j: nat, cl: Configs)
    requires j <= |items|
  {
    ListOk(cl) && CollectedItems(e, items, x, j, cl.current) && LinkedBack(s, cl)
  }

  /** Configlist_addbasis followed by Plink_add. */
  function AddBasis(cl: Configs, s: nat, it: Item): Configs {
    var c := Add(cl, Advance(it));
    if Advance(it) in c.bplp then c.(bplp := c.bplp[Advance(it) := [Cfg(s, it)] + c.bplp[Advance(it)]]) else c
  }

  lemma AddBasisNew(cl: Configs, s: nat, it: Item)
    requires ListOk(cl) && Advance(it) !in cl.current && LinkedBack(s, cl)
    ensures var c := AddBasis(cl, s, it);
            ListOk(c) && LinkedBack(s, c) && c.current == cl.current + [Advance(it)]
  {
    hide ItemSet;
    var adv := Advance(it);
    assert adv !in cl.fws && Back(adv) == it by { InItemSet(cl, adv); }
    var d := Configs(cl.current + [adv], cl.fws[adv := {}], cl.fplp[adv := []], cl.bplp[adv := [Cfg(s, it)]]);
    var c := Add(cl, adv);
    assert [Cfg(s, it)] + c.bplp[adv] == [Cfg(s, it)];
    assert c.bplp[adv := [Cfg(s, it)]] == cl.bplp[adv := [Cfg(s, it)]];
    assert AddBasis(cl, s, it) == d;
    assert ItemSet(d.current) == ItemSet(cl.current) + {adv} by { SetSnoc(cl.current, adv); }
  }

  lemma InItemSet(cl: Configs, it: Item)
    requires ListOk(cl)
    ensures it in cl.current <==> it in cl.fws
  {
  }

  lemma SetSnoc(xs: seq<Item>, it: Item)
    ensures ItemSet(xs + [it]) == ItemSet(xs) + {it}
  {
  }

  lemma CollectItem(e: Env, items: seq<Item>, x: Symbol, j: nat, current: seq<Item>)
    requires j < |items| && Next(e.g, items[j], x) && CollectedItems(e, items, x, j, current)
    ensures CollectedItems(e, items, x, j + 1, current + [Advance(items[j])])
  {
    var it, adv := items[j], Advance(items[j]);
    assert items[..j + 1] == items[..j] + [it];
    forall b: Item ensures b in current + [adv] <==> b.dot > 0 && Back(b) in items[..j + 1] && Next(e.g, Back(b), x) {
      assert b.dot > 0 && Back(b) == it <==> b == adv;
    }
  }

  lemma CollectOne(e: Env, items: seq<Item>, s: nat, x: Symbol, j: nat, cl: Configs)
    requires Distinct(items) && j < |items| && Next(e.g, items[j], x) && Collected(e, items, s, x, j, cl)
    ensures Collected(e, items, s, x, j + 1, AddBasis(cl, s, items[j]))
  {
    assert Back(Advance(items[j])) == items[j] && items[j] !in items[..j];
    AddBasisNew(cl, s, items[j]);
    CollectItem(e, items, x, j, cl.current);
  }

  lemma CollectSkip(e: Env, items: seq<Item>, s: nat, x: Symbol, j: nat, cl: Configs)
    requires j < |items| && !Next(e.g, items[j], x) && Collected(e, items, s, x, j, cl)
    ensures Collected(e, items, s, x, j + 1, cl)
  {
    assert items[..j + 1] == items[..j] + [items[j]];
  }

  lemma CollectedAll(e: Env, states: seq<State>, s: nat, x: Symbol, it: Item, cl: Configs)
    requires s < |states| && Collected(e, states[s].items, s, x, |states[s].items|, cl)
    requires it in states[s].items && Next(e.g, it, x)
    ensures Shifted(e, states, s, x, cl)
  {
    var items := states[s].items;
    assert items[..|items|] == items;
    var k := Goto(e.g, ItemSet(items), x);
    forall b: Item ensures b in ItemSet(cl.current) <==> b in k {
      if b in cl.current { assert Back(b) in ItemSet(items) && Advance(Back(b)) == b; }
    }
    assert Advance(it) in k;
  }

  /** The marks: an item is complete iff its symbol has been dealt with. */
  ghost predicate MarksOk(e: Env, items: seq<Item>, marks: seq<bool>, dealt: set<Symbol>, i: nat) {
    && |marks| == |items|
    && (forall j, x {:trigger Next(e.g, items[j], x)} ::
          0 <= j < |items| && Next(e.g, items[j], x) ==> (marks[j] <==> x in dealt))
    && (forall j, x {:trigger Next(e.g, items[j], x)} ::
          0 <= j < i && j < |items| && Next(e.g, items[j], x) ==> x in dealt)
  }

  /** The inner loop of buildshifts: the basis for symbol x, which item i is the first to have after its dot. */
  method ShiftBasis(e: Env, items: seq<Item>, s: nat, i: nat, x: Symbol, marks0: seq<bool>, ghost dealt: set<Symbol>)
    returns (cl: Configs, marks: seq<bool>)
    requires Distinct(items) && i < |items| && Next(e.g, items[i], x) && x !in dealt
    requires ValidItems(e.g, ItemSet(items))
    requires MarksOk(e, items, marks0, dealt, i)
    ensures Collected(e, items, s, x, |items|, cl)
    ensures MarksOk(e, items, marks, dealt + {x}, i + 1)
  {
    cl, marks := NONE_YET, marks0;
    assert Collected(e, items, s, x, i, cl) by {
      forall it: Item ensures !(it.dot > 0 && Back(it) in items[..i] && Next(e.g, Back(it), x)) { }
    }
    for j := i to |items|
      invariant Collected(e, items, s, x, j, cl)
      invariant |marks| == |items|
      invariant forall k :: 0 <= k < |items| ==> (marks[k] <==> marks0[k] || (i <= k < j && Next(e.g, items[k], x)))
    {
      var it := items[j];
      if !marks[j] && it.rule < |e.g.rules| && it.dot < |e.g.rules[it.rule].rhs|
         && e.g.rules[it.rule].rhs[it.dot] == x {
        marks := marks[j := true];
        CollectOne(e, items, s, x, j, cl);
        cl := AddBasis(cl, s, it);
      } else {
        CollectSkip(e, items, s, x, j, cl);
      }
    }
  }

  // ----- the construction ---------------------------------------------------------------------------

  /** Item lists stay within what the list sort can hold. */
  ghost predicate Sortable(g: Grammar) {
    |AllItems(g)| < 0x4000_0000
  }

  ghost predicate NewFinished(e: Env, a: seq<State>, b: seq<State>) {
    forall s :: |a| <= s < |b| ==> Finished(e, b, s)
  }

  /** What construction from state p on symbol x achieves: a state t that links back. */
  ghost predicate Arrived(e: Env, states: seq<State>, p: nat, x: Symbol, t: nat) {
    && Leads(e, states, p, x, t)
    && forall it :: it in states[p].items && Next(e.g, it, x) ==>
         Advance(it) in states[t].bplp && Cfg(p, it) in states[t].bplp[Advance(it)]
  }

  class Lemon {
    const e: Env
    var states: seq<State>

    constructor (e: Env)
      ensures this.e == e && states == []
    {
      this.e := e;
      states := [];
    }

    /** State_find */
    method StateFind(bp: seq<Item>) returns (s: int)
      ensures -1 <= s < |states|
      ensures s >= 0 ==> states[s].basis == bp
      ensures s < 0 ==> forall t :: 0 <= t < |states| ==> states[t].basis != bp
    {
      s := 0;
      while s < |states|
        invariant 0 <= s <= |states|
        invariant forall t :: 0 <= t < s ==> states[t].basis != bp
      {
        if states[s].basis == bp { return; }
        s := s + 1;
      }
      s := -1;
    }

    /** Copy the links of the list under construction into a state that exists already. */
    method CopyLinks(t: nat, cl: Configs, ghost p: nat, ghost x: Symbol)
      requires Inv(e, states) && t < |states| && Shifted(e, states, p, x, cl)
      requires ItemSet(states[t].basis) == ItemSet(cl.current)
      modifies this
      ensures Inv(e, states) && Grows(old(states), states, -1)
      ensures |states| == |old(states)|
      ensures Arrived(e, states, p, x, t)
    {
      hide Inv, Shifted, Grows, BackLink, ShiftOk, Leads;
      ghost var before := states;
      var i := 0;
      GrowsRefl(states);
      assert Leads(e, states, p, x, t) by { ShiftedLeads(e, states, p, x, cl, t); }
      while i < |cl.current|
        invariant i <= |cl.current| && |states| == |before|
        invariant Inv(e, states) && Grows(before, states, -1)
        invariant Leads(e, states, p, x, t)
        invariant forall k :: 0 <= k < i ==> LinkedTo(states[t], p, cl.current[k])
      {
        var it := cl.current[i];
        ghost var a := states;
        CopyOneFacts(e, before, states, p, x, cl, t, it);
        states := states[t := states[t].(bplp := states[t].bplp[it := cl.bplp[it] + states[t].bplp[it]])];
        CopyOne(e, before, a, states, p, x, cl, t, it);
        i := i + 1;
      }
      ArrivedAll(e, before, states, p, x, cl, t);
    }

    /** The state with the basis in the list: an existing one, or a new one with all its successors. */
    method GetState(cl: Configs, ghost p: nat, ghost x: Symbol) returns (t: nat)
      requires EnvOk(e) && Sortable(e.g) && Inv(e, states) && Shifted(e, states, p, x, cl)
      modifies this
      ensures Inv(e, states) && Grows(old(states), states, -1) && NewFinished(e, old(states), states)
      ensures Arrived(e, states, p, x, t)
      decreases Remaining(e, states), 0
    {
      hide Inv, Grows, StateInv, Shifted, Finished, Ordered, ClosureDone, EnvOk, Leads, ListOk, AllItems, Remaining;
      ghost var before := states;
      ShiftedSize(e, states, p, x, cl);
      var bp := SortItems(cl.current);
      var f := StateFind(bp);
      if f >= 0 {
        CopyLinks(f, cl, p, x);
        t := f;
      } else {
        ShiftedValid(e, states, p, x, cl);
        ShiftedPlain(e, states, p, x, cl);
        var c := Closure(e, cl);
        ClosureSizes(e, cl, c);
        var items := SortItems(c.current);
        t := |states|;
        var st := NewState(bp, items, c);
        NewStateInv(e, states, p, x, cl, c, bp, items);
        InvAppend(e, states, st);
        NewBasisRemains(e, states, st);
        NewArrived(e, states, p, x, cl, c, bp, items);
        states := states + [st];
        ghost var mid := states;
        BuildShifts(t);
        AfterBuild(e, before, mid, states, p, x, t);
      }
    }

    /** Construct all successors of state s. */
    method BuildShifts(s: nat)
      requires EnvOk(e) && Sortable(e.g) && Inv(e, states) && s < |states| && states[s].ap == []
      modifies this
      ensures Inv(e, states) && Grows(old(states), states, s) && NewFinished(e, old(states), states)
      ensures s < |states| && Finished(e, states, s)
      decreases Remaining(e, states), 1
    {
      hide Inv, Grows, StateInv, Finished, EnvOk, Shifted, Collected, MarksOk, SymbolDone, Remaining;
      ghost var before := states;
      var items := states[s].items;
      ItemsFacts(e, states, s);
      GrowsSelf(states, s);
      var marks := seq(|items|, _ => false);
      ghost var dealt: set<Symbol> := {};
      assert MarksOk(e, items, marks, dealt, 0) by { MarksStart(e, items, marks); }
      for i := 0 to |items|
        invariant Inv(e, states) && Grows(before, states, s) && NewFinished(e, before, states)
        invariant s < |states| && states[s].items == items && |states[s].ap| <= Width(e.g, items[..i])
        invariant MarksOk(e, items, marks, dealt, i) && |marks| == |items|
        invariant forall y :: y in dealt ==> SymbolDone(e, states, s, y)
      {
        var it := items[i];
        ItemInRange(e, items, i);
        WidthStep(e.g, items, i);
        if marks[i] || it.dot >= |e.g.rules[it.rule].rhs| {
          MarksSkip(e, items, marks, dealt, i);
          continue;
        }
        var x := e.g.rules[it.rule].rhs[it.dot];
        assert x !in dealt by { Unmarked(e, items, marks, dealt, i, x); }
        var cl;
        cl, marks := ShiftBasis(e, items, s, i, x, marks, dealt);
        CollectedAll(e, states, s, x, it, cl);
        ghost var a := states;
        RemainingShrinks(e, before, states, s);
        var t := GetState(cl, s, x);
        ghost var b := states;
        GrowsItems(a, b, -1, s);
        AddShifts(s, x, t);
        AfterShift(e, before, a, b, states, s, dealt, x);
        dealt := dealt + {x};
        MarksSize(e, items, marks, dealt, i + 1);
      }
      assert items[..|items|] == items;
      AllDealt(e, states, s, marks, dealt);
    }

    /** Add the shift actions for symbol x: one, or one for each token of a multi-terminal. */
    method AddShifts(s: nat, x: Symbol, t: nat)
      requires Inv(e, states) && Arrived(e, states, s, x, t)
      modifies this
      ensures Inv(e, states) && Grows(old(states), states, s) && |states| == |old(states)|
      ensures s < |states| && s < |old(states)| && states[s].items == old(states)[s].items
      ensures SymbolDone(e, states, s, x)
      ensures |states[s].ap| == |old(states)[s].ap| + CodeCount(x)
    {
      hide Inv, Grows, StateInv;
      ghost var before := states;
      GrowsSelf(states, s);
      match x {
        case Multi(subs) =>
          var i := 0;
          while i < |subs|
            invariant i <= |subs| && |states| == |before|
            invariant Inv(e, states) && Grows(before, states, s) && Arrived(e, states, s, x, t)
            invariant states[s].items == before[s].items && |states[s].ap| == |before[s].ap| + i
            invariant forall k :: 0 <= k < i ==> Action(subs[k], SHIFT, t) in states[s].ap
          {
            assert Matches(x, subs[i]);
            ActionAdd(s, x, subs[i], t, before);
            i := i + 1;
          }
        case Terminal(a) => ActionAdd(s, x, a, t, before);
        case Nonterminal(a) => ActionAdd(s, x, a, t, before);
      }
      assert SymbolDoneTo(e, states, s, x, t);
    }

    /** Action_add */
    method ActionAdd(s: nat, x: Symbol, a: nat, t: nat, ghost before: seq<State>)
      requires Inv(e, states) && Arrived(e, states, s, x, t) && Matches(x, a) && Grows(before, states, s)
      requires s < |states|
      modifies this
      ensures Inv(e, states) && Grows(before, states, s) && Arrived(e, states, s, x, t)
      ensures |states| == |old(states)| && states[s].items == old(states)[s].items
      ensures states[s].ap == [Action(a, SHIFT, t)] + old(states)[s].ap
    {
      ghost var prev := states;
      states := states[s := states[s].(ap := [Action(a, SHIFT, t)] + states[s].ap)];
      ActionAddKeeps(e, before, prev, states, s, x, a, t);
    }

    /** Build the whole automaton from the start items. */
    method Build()
      requires EnvOk(e) && Sortable(e.g) && states == []
      modifies this
      ensures Inv(e, states) && states != [] && forall s :: 0 <= s < |states| ==> Finished(e, states, s)
    {
      hide Inv, Grows, StateInv, Finished, Ordered, ClosureDone, EnvOk, ListOk, AllItems, Starting;
      var cl := NONE_YET;
      StartNone(e);
      for r := |e.g.rules| downto 0
        invariant StartingFrom(e, cl, r)
      {
        if e.g.rules[r].lhs == e.g.start {
          StartOne(e, cl, r);
          cl := AddStart(cl, r);
        } else {
          StartSkip(e, cl, r);
        }
      }
      StartAll(e, cl);
      StartingFacts(e, cl);
      var bp := SortItems(cl.current);
      var c := Closure(e, cl);
      ClosureSizes(e, cl, c);
      var items := SortItems(c.current);
      FirstStateInv(e, cl, c, bp, items);
      states := [NewState(bp, items, c)];
      FirstInv(e, states);
      ghost var mid := states;
      BuildShifts(0);
      AllFinished(e, mid, states);
    }
  }

  ghost predicate LinkedTo(st: State, p: nat, it: Item) {
    it in st.bplp && Cfg(p, Back(it)) in st.bplp[it]
  }

  lemma GrowsRefl(a: seq<State>)
    ensures Grows(a, a, -1)
  {
    forall s | 0 <= s < |a| ensures GrowsAt(a[s], a[s], false) { }
  }

  lemma ShiftedLeads(e: Env, a: seq<State>, p: nat, x: Symbol, cl: Configs, t: nat)
    requires Shifted(e, a, p, x, cl) && t < |a| && ItemSet(a[t].basis) == ItemSet(cl.current)
    ensures Leads(e, a, p, x, t)
  {
  }

  lemma CopyOneFacts(e: Env, before: seq<State>, a: seq<State>, p: nat, x: Symbol, cl: Configs, t: nat, it: Item)
    requires Shifted(e, before, p, x, cl) && it in cl.current && Grows(before, a, -1) && Inv(e, a)
    requires t < |before| && ItemSet(before[t].basis) == ItemSet(cl.current)
    ensures t < |a| && it in cl.bplp && it in a[t].bplp && cl.bplp[it] == [Cfg(p, Back(it))]
  {
    assert GrowsAt(before[t], a[t], false);
    assert StateInv(e, a, t);
    assert it in ItemSet(a[t].basis);
  }

  lemma CopyOne(e: Env, before: seq<State>, a: seq<State>, b: seq<State>, p: nat, x: Symbol, cl: Configs, t: nat,
                it: Item)
    requires Shifted(e, before, p, x, cl) && it in cl.current && Grows(before, a, -1) && Inv(e, a)
    requires Leads(e, a, p, x, t)
    requires it in cl.bplp && it in a[t].bplp && cl.bplp[it] == [Cfg(p, Back(it))]
    requires b == a[t := a[t].(bplp := a[t].bplp[it := cl.bplp[it] + a[t].bplp[it]])]
    ensures Inv(e, b) && Grows(before, b, -1) && Leads(e, b, p, x, t) && LinkedTo(b[t], p, it)
    ensures forall i :: LinkedTo(a[t], p, i) ==> LinkedTo(b[t], p, i)
  {
    hide Inv, StateInv, Shifted;
    assert p < |before| && a[p].items == before[p].items by { ShiftedItems(e, before, a, p, x, cl); }
    assert Leads(e, b, p, x, t);
    forall i, c | i in b[t].bplp && c in b[t].bplp[i] && (i !in a[t].bplp || c !in a[t].bplp[i])
      ensures BackLink(e, b, t, i, c) {
      assert i == it && c == Cfg(p, Back(it));
      ShiftedBackLink(e, before, p, x, cl, b, t, it, c);
    }
    InvChange(e, a, b, t);
    GrowsTransitive(before, a, b, -1, -1);
  }

  lemma ShiftedItems(e: Env, before: seq<State>, a: seq<State>, p: nat, x: Symbol, cl: Configs)
    requires Shifted(e, before, p, x, cl) && Grows(before, a, -1)
    ensures p < |before| <= |a| && a[p].items == before[p].items
  {
    assert GrowsAt(before[p], a[p], false);
  }

  lemma ArrivedAll(e: Env, before: seq<State>, a: seq<State>, p: nat, x: Symbol, cl: Configs, t: nat)
    requires Shifted(e, before, p, x, cl) && Grows(before, a, -1) && Leads(e, a, p, x, t)
    requires forall k :: 0 <= k < |cl.current| ==> LinkedTo(a[t], p, cl.current[k])
    ensures Arrived(e, a, p, x, t)
  {
    ShiftedItems(e, before, a, p, x, cl);
    forall it | it in a[p].items && Next(e.g, it, x)
      ensures Advance(it) in a[t].bplp && Cfg(p, it) in a[t].bplp[Advance(it)] {
      assert Advance(it) in Goto(e.g, ItemSet(before[p].items), x);
      assert Advance(it) in ItemSet(cl.current);
      var k :| 0 <= k < |cl.current| && cl.current[k] == Advance(it);
      assert LinkedTo(a[t], p, cl.current[k]) && Back(Advance(it)) == it;
    }
  }

  // ----- steps of the construction ---------------------------------------------------------------

  lemma ActionAddKeeps(e: Env, before: seq<State>, a: seq<State>, b: seq<State>, s: nat, x: Symbol, code: nat, t: nat)
    requires Inv(e, a) && Arrived(e, a, s, x, t) && Matches(x, code) && Grows(before, a, s) && s < |a|
    requires b == a[s := a[s].(ap := [Action(code, SHIFT, t)] + a[s].ap)]
    ensures Inv(e, b) && Grows(before, b, s) && Arrived(e, b, s, x, t)
  {
    hide Inv, StateInv;
    assert Leads(e, b, s, x, t);
    assert ShiftOk(e, b, s, Action(code, SHIFT, t));
    InvChange(e, a, b, s);
    GrowsTransitive(before, a, b, s, s);
  }

  lemma GrowsSelf(a: seq<State>, busy: int)
    ensures Grows(a, a, busy)
  {
    forall s | 0 <= s < |a| ensures GrowsAt(a[s], a[s], s == busy) { }
  }

  lemma GrowsItems(a: seq<State>, b: seq<State>, busy: int, s: nat)
    requires Grows(a, b, busy) && s < |a|
    ensures s < |b| && b[s].items == a[s].items && (s != busy ==> b[s].ap == a[s].ap)
  {
    assert GrowsAt(a[s], b[s], s == busy);
  }

  lemma ShiftedSize(e: Env, a: seq<State>, p: nat, x: Symbol, cl: Configs)
    requires Shifted(e, a, p, x, cl)
    ensures Distinct(cl.current) && |cl.current| <= |AllItems(e.g)| && ItemSet(cl.current) <= AllItems(e.g)
  {
    ShiftedValid(e, a, p, x, cl);
    ValidIsInAllItems(e.g, ItemSet(cl.current));
    DistinctBound(cl.current, AllItems(e.g));
  }

  lemma ShiftedPlain(e: Env, a: seq<State>, p: nat, x: Symbol, cl: Configs)
    requires Shifted(e, a, p, x, cl)
    ensures ListOk(cl) && forall it :: it in cl.fplp ==> cl.fplp[it] == []
  {
  }

  lemma ClosureSizes(e: Env, cl0: Configs, cl: Configs)
    requires ClosureDone(e, cl0, cl, |cl.current|)
    ensures Distinct(cl.current) && |cl.current| <= |AllItems(e.g)|
  {
    SizeBound(e, cl);
  }

  /** The new state links back to where it was shifted from. */
  lemma NewArrived(e: Env, a: seq<State>, p: nat, x: Symbol, cl0: Configs, cl: Configs, bp: seq<Item>, items: seq<Item>)
    requires Shifted(e, a, p, x, cl0) && ClosureDone(e, cl0, cl, |cl.current|)
    requires Leads(e, a + [NewState(bp, items, cl)], p, x, |a|)
    ensures Arrived(e, a + [NewState(bp, items, cl)], p, x, |a|)
  {
    hide Shifted, ClosureDone, Leads;
    var st := NewState(bp, items, cl);
    var b := a + [st];
    assert p < |a| by { ShiftedRange(e, a, p, x, cl0); }
    assert b[p] == a[p] && b[|a|] == st;
    forall it | it in b[p].items && Next(e.g, it, x)
      ensures Advance(it) in st.bplp && Cfg(p, it) in st.bplp[Advance(it)] {
      NewLinksBack(e, a, p, x, cl0, cl, it);
    }
  }

  lemma ShiftedRange(e: Env, a: seq<State>, p: nat, x: Symbol, cl: Configs)
    requires Shifted(e, a, p, x, cl)
    ensures p < |a|
  {
  }

  lemma NewLinksBack(e: Env, a: seq<State>, p: nat, x: Symbol, cl0: Configs, cl: Configs, it: Item)
    requires Shifted(e, a, p, x, cl0) && ClosureDone(e, cl0, cl, |cl.current|)
    requires it in a[p].items && Next(e.g, it, x)
    ensures Advance(it) in cl.bplp && Cfg(p, it) in cl.bplp[Advance(it)]
  {
    hide ClosureDone;
    assert Advance(it) in Goto(e.g, ItemSet(a[p].items), x);
    assert Advance(it) in cl0.bplp;
    KeysKept(e, cl0, cl);
    BackBefore(e, cl0, cl, Advance(it));
    assert Back(Advance(it)) == it;
  }

  lemma KeysKept(e: Env, cl0: Configs, cl: Configs)
    requires ClosureDone(e, cl0, cl, |cl.current|)
    ensures cl0.bplp.Keys <= cl.bplp.Keys
  {
    KeysGrow(cl0, cl);
  }

  lemma ArrivedGrows(e: Env, a: seq<State>, b: seq<State>, busy: int, p: nat, x: Symbol, t: nat)
    requires Grows(a, b, busy) && Arrived(e, a, p, x, t)
    ensures Arrived(e, b, p, x, t)
  {
    LeadsGrows(e, a, b, busy, p, x, t);
    GrowsHere(a, b, busy, p);
    GrowsHere(a, b, busy, t);
  }

  lemma AfterBuild(e: Env, before: seq<State>, mid: seq<State>, after: seq<State>, p: nat, x: Symbol, t: nat)
    requires Grows(before, mid, -1) && |mid| == |before| + 1 && t == |before| && Grows(mid, after, t)
    requires Arrived(e, mid, p, x, t) && t < |after| && Finished(e, after, t) && NewFinished(e, mid, after)
    ensures Grows(before, after, -1) && Arrived(e, after, p, x, t) && NewFinished(e, before, after)
  {
    hide Grows, Finished;
    GrowsFlip(before, mid, -1, t);
    GrowsTransitive(before, mid, after, t, t);
    GrowsFlip(before, after, t, -1);
    ArrivedGrows(e, mid, after, t, p, x, t);
  }

  /** A busy state beyond the old ones makes no difference. */
  lemma GrowsFlip(a: seq<State>, b: seq<State>, busy: int, busy': int)
    requires Grows(a, b, busy) && (busy < 0 || busy >= |a|) && (busy' < 0 || busy' >= |a|)
    ensures Grows(a, b, busy')
  {
    forall s | 0 <= s < |a| ensures GrowsAt(a[s], b[s], s == busy') {
      assert GrowsAt(a[s], b[s], s == busy);
    }
  }

  lemma ItemsFacts(e: Env, states: seq<State>, s: nat)
    requires Inv(e, states) && s < |states|
    ensures Distinct(states[s].items) && ValidItems(e.g, ItemSet(states[s].items))
  {
    assert StateInv(e, states, s);
  }

  lemma ItemInRange(e: Env, items: seq<Item>, i: nat)
    requires ValidItems(e.g, ItemSet(items)) && i < |items|
    ensures items[i].rule < |e.g.rules| && items[i].dot <= |e.g.rules[items[i].rule].rhs|
  {
    assert items[i] in ItemSet(items);
  }

  lemma WidthStep(g: Grammar, items: seq<Item>, i: nat)
    requires i < |items|
    ensures var it := items[i];
            Width(g, items[..i + 1]) == Width(g, items[..i]) +
              if it.rule < |g.rules| && it.dot < |g.rules[it.rule].rhs| then CodeCount(g.rules[it.rule].rhs[it.dot])
              else 0
  {
    assert items[..i + 1][..i] == items[..i];
  }

  lemma MarksStart(e: Env, items: seq<Item>, marks: seq<bool>)
    requires marks == seq(|items|, _ => false)
    ensures MarksOk(e, items, marks, {}, 0)
  {
  }

  lemma MarksSkip(e: Env, items: seq<Item>, marks: seq<bool>, dealt: set<Symbol>, i: nat)
    requires MarksOk(e, items, marks, dealt, i) && i < |items| && |marks| == |items|
    requires marks[i] || (items[i].rule < |e.g.rules| && items[i].dot >= |e.g.rules[items[i].rule].rhs|)
    ensures MarksOk(e, items, marks, dealt, i + 1)
  {
  }

  lemma Unmarked(e: Env, items: seq<Item>, marks: seq<bool>, dealt: set<Symbol>, i: nat, x: Symbol)
    requires MarksOk(e, items, marks, dealt, i) && i < |items| && |marks| == |items| && !marks[i]
    requires Next(e.g, items[i], x)
    ensures x !in dealt
  {
  }

  lemma MarksSize(e: Env, items: seq<Item>, marks: seq<bool>, dealt: set<Symbol>, i: nat)
    requires MarksOk(e, items, marks, dealt, i)
    ensures |marks| == |items|
  {
  }

  lemma NewFinishedGrows(e: Env, before: seq<State>, a: seq<State>, b: seq<State>, busy: int)
    requires Grows(a, b, busy) && |before| <= |a| && busy < |before| && NewFinished(e, before, a)
    requires NewFinished(e, a, b)
    ensures NewFinished(e, before, b)
  {
    forall s | |before| <= s < |b| ensures Finished(e, b, s) {
      if s < |a| { FinishedGrows(e, a, b, busy, s); }
    }
  }

  lemma GrowsLength(a: seq<State>, b: seq<State>, busy: int)
    requires Grows(a, b, busy)
    ensures |a| <= |b|
  {
  }

  /** After symbol x has been dealt with, all that was done still stands. */
  lemma AfterShift(e: Env, before: seq<State>, a: seq<State>, b: seq<State>, c: seq<State>, s: nat, dealt: set<Symbol>,
                   x: Symbol)
    requires Grows(before, a, s) && Grows(a, b, -1) && Grows(b, c, s) && |c| == |b|
    requires s < |before| && NewFinished(e, before, a) && NewFinished(e, a, b) && SymbolDone(e, c, s, x)
    requires forall y :: y in dealt ==> SymbolDone(e, a, s, y)
    ensures Grows(before, c, s) && NewFinished(e, before, c)
    ensures forall y :: y in dealt + {x} ==> SymbolDone(e, c, s, y)
  {
    hide Grows, Finished, SymbolDone;
    GrowsTransitive(before, a, b, s, -1);
    GrowsTransitive(before, b, c, s, s);
    GrowsLength(before, a, s);
    GrowsLength(before, b, s);
    NewFinishedGrows(e, before, a, b, -1);
    NewFinishedGrows(e, before, b, c, s);
    forall y | y in dealt ensures SymbolDone(e, c, s, y) {
      SymbolDoneGrows(e, a, b, -1, s, y);
      SymbolDoneGrows(e, b, c, s, s, y);
    }
  }

  lemma AllDealt(e: Env, states: seq<State>, s: nat, marks: seq<bool>, dealt: set<Symbol>)
    requires s < |states| && MarksOk(e, states[s].items, marks, dealt, |states[s].items|)
    requires forall y :: y in dealt ==> SymbolDone(e, states, s, y)
    requires |states[s].ap| <= Width(e.g, states[s].items)
    ensures Finished(e, states, s)
  {
    hide SymbolDone;
    var items := states[s].items;
    forall it, x {:trigger Next(e.g, it, x)} | it in items && Next(e.g, it, x) ensures SymbolDone(e, states, s, x) {
      var j :| 0 <= j < |items| && items[j] == it;
      assert Next(e.g, items[j], x);
    }
  }

  // ----- the first state ------------------------------------------------------------------------------

  /** The list holds the start items of the rules from r on. */
  ghost predicate StartingFrom(e: Env, cl: Configs, r: nat) {
    && ListOk(cl)
    && (forall it :: it in cl.current <==>
          r <= it.rule < |e.g.rules| && it.dot == 0 && e.g.rules[it.rule].lhs == e.g.start)
    && (forall it :: it in cl.fws ==> cl.fws[it] == {0} && cl.fplp[it] == [] && cl.bplp[it] == [])
  }

  /** Configlist_addbasis followed by SetAdd(fws, 0). */
  function AddStart(cl: Configs, r: nat): Configs {
    var c := Add(cl, Item(r, 0));
    if Item(r, 0) in c.fws then c.(fws := c.fws[Item(r, 0) := c.fws[Item(r, 0)] + {0}]) else c
  }

  lemma StartOne(e: Env, cl: Configs, r: nat)
    requires StartingFrom(e, cl, r + 1) && r < |e.g.rules| && e.g.rules[r].lhs == e.g.start
    ensures StartingFrom(e, AddStart(cl, r), r)
  {
    hide ItemSet;
    var it := Item(r, 0);
    assert it !in cl.fws by { InItemSet(cl, it); }
    var c := Add(cl, it);
    assert c.fws[it] + {0} == {0};
    assert c.fws[it := {0}] == cl.fws[it := {0}];
    var d := Configs(cl.current + [it], cl.fws[it := {0}], cl.fplp[it := []], cl.bplp[it := []]);
    assert AddStart(cl, r) == d;
    assert ItemSet(d.current) == ItemSet(cl.current) + {it} by { SetSnoc(cl.current, it); }
    forall i: Item
      ensures i in d.current <==> r <= i.rule < |e.g.rules| && i.dot == 0 && e.g.rules[i.rule].lhs == e.g.start {
      assert i.rule == r && i.dot == 0 <==> i == it;
    }
  }

  lemma StartNone(e: Env)
    ensures StartingFrom(e, NONE_YET, |e.g.rules|)
  {
  }

  lemma StartSkip(e: Env, cl: Configs, r: nat)
    requires StartingFrom(e, cl, r + 1) && r < |e.g.rules| && e.g.rules[r].lhs != e.g.start
    ensures StartingFrom(e, cl, r)
  {
  }

  lemma StartAll(e: Env, cl: Configs)
    requires StartingFrom(e, cl, 0)
    ensures Starting(e, cl)
  {
  }

  lemma StartingFacts(e: Env, cl: Configs)
    requires Starting(e, cl)
    ensures ListOk(cl) && ValidItems(e.g, ItemSet(cl.current))
    ensures Distinct(cl.current) && |cl.current| <= |AllItems(e.g)|
    ensures forall it :: it in cl.fplp ==> cl.fplp[it] == []
  {
    ValidIsInAllItems(e.g, ItemSet(cl.current));
    DistinctBound(cl.current, AllItems(e.g));
  }

  lemma FirstInv(e: Env, states: seq<State>)
    requires |states| == 1 && StateInv(e, states, 0)
    ensures Inv(e, states)
  {
  }

  lemma AllFinished(e: Env, mid: seq<State>, states: seq<State>)
    requires |mid| == 1 && Grows(mid, states, 0) && NewFinished(e, mid, states) && states != []
    requires Finished(e, states, 0)
    ensures forall s :: 0 <= s < |states| ==> Finished(e, states, s)
  {
  }
}
