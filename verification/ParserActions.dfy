/**
  FindActions and CompressTables over all states: from follow sets to the final
  action lists.
*/
module ParserActions {
  import opened Grammars
  import opened Automata
  import opened FollowSets
  import opened Configlist
  import opened Lists
  import opened SortedItems
  import opened FindStates
  import opened Lookaheads
  import opened Actions
  import opened Soundness

  // ----- adding the actions --------------------------------------------------------------------

  ghost predicate ReducesOn(act: Action, rule: nat, la: set<nat>, bound: nat) {
    act.kind == REDUCE && act.arg == rule && act.sp < bound && act.sp in la
  }

  /** The reductions for one complete item. */
  method AddReduces(nterminal: nat, rule: nat, la: set<nat>, ap0: seq<Action>) returns (ap: seq<Action>)
    ensures forall act :: act in ap <==> act in ap0 || ReducesOn(act, rule, la, nterminal)
    ensures |ap| <= |ap0| + nterminal
  {
    ap := ap0;
    for j := 0 to nterminal
      invariant forall act :: act in ap <==> act in ap0 || ReducesOn(act, rule, la, j)
      invariant |ap| <= |ap0| + j
    {
      if j in la { ap := [Action(j, REDUCE, rule)] + ap; }
    }
  }

  /** The reduction belongs to one of the items. */
  ghost predicate ReducesIn(g: Grammar, s: nat, items: seq<Item>, fws: Sets, act: Action) {
    && act.kind == REDUCE && act.arg < |g.rules| && act.sp < g.nterminal
    && var it := Item(act.arg, |g.rules[act.arg].rhs|);
       it in items && Cfg(s, it) in fws && act.sp in fws[Cfg(s, it)]
  }

  /** The reductions for the complete items of a state. */
  method AddAllReduces(g: Grammar, s: nat, items: seq<Item>, fws: Sets, ap0: seq<Action>) returns (ap: seq<Action>)
    requires ValidItems(g, ItemSet(items)) && forall it :: it in items ==> Cfg(s, it) in fws
    ensures forall act :: act in ap <==> act in ap0 || ReducesIn(g, s, items, fws, act)
    ensures |ap| <= |ap0| + |items| * g.nterminal
  {
    hide ReducesIn;
    ap := ap0;
    NoItemReduces(g, s, items, fws);
    for i := 0 to |items|
      invariant forall act :: act in ap <==> act in ap0 || ReducesIn(g, s, items[..i], fws, act)
      invariant |ap| <= |ap0| + i * g.nterminal
    {
      var it := items[i];
      assert it in ItemSet(items);
      MoreItems(g, s, items, fws, i);
      if it.dot == |g.rules[it.rule].rhs| {
        ap := AddReduces(g.nterminal, it.rule, fws[Cfg(s, it)], ap);
      }
      assert (i + 1) * g.nterminal == i * g.nterminal + g.nterminal;
    }
    assert items[..|items|] == items;
  }

  lemma NoItemReduces(g: Grammar, s: nat, items: seq<Item>, fws: Sets)
    ensures forall act :: !ReducesIn(g, s, items[..0], fws, act)
  {
  }

  lemma MoreItems(g: Grammar, s: nat, items: seq<Item>, fws: Sets, i: nat)
    requires i < |items| && ValidItem(g, items[i]) && Cfg(s, items[i]) in fws
    ensures forall act :: ReducesIn(g, s, items[..i + 1], fws, act) <==>
              || ReducesIn(g, s, items[..i], fws, act)
              || (&& items[i].dot == |g.rules[items[i].rule].rhs|
                  && ReducesOn(act, items[i].rule, fws[Cfg(s, items[i])], g.nterminal))
  {
    assert items[..i + 1] == items[..i] + [items[i]];
    forall act ensures ReducesIn(g, s, items[..i + 1], fws, act) <==>
              || ReducesIn(g, s, items[..i], fws, act)
              || (&& items[i].dot == |g.rules[items[i].rule].rhs|
                  && ReducesOn(act, items[i].rule, fws[Cfg(s, items[i])], g.nterminal)) {
      if act.arg < |g.rules| {
        assert Item(act.arg, |g.rules[act.arg].rhs|) == items[i] <==>
               items[i].rule == act.arg && items[i].dot == |g.rules[act.arg].rhs|;
      }
    }
  }

  // ----- the lists stay within what the list sort can hold ----------------------------------------

  /** No symbol on a right-hand side stands for more than w codes. */
  ghost predicate Narrow(g: Grammar, w: nat) {
    w >= 1 && forall r, i :: 0 <= r < |g.rules| && 0 <= i < |g.rules[r].rhs| ==> CodeCount(g.rules[r].rhs[i]) <= w
  }

  /** Action lists and item lists are shorter than 2^30. */
  ghost predicate ActionsSortable(g: Grammar) {
    exists w: nat :: Narrow(g, w) && |AllItems(g)| * (w + g.nterminal) + 1 < 0x4000_0000
  }

  lemma {:induction false} WidthBound(g: Grammar, items: seq<Item>, w: nat)
    requires Narrow(g, w)
    ensures Width(g, items) <= |items| * w
  {
    if items != [] {
      WidthBound(g, items[..|items| - 1], w);
      assert (|items| - 1) * w + w == |items| * w;
    }
  }

  lemma ItemsSortable(g: Grammar)
    requires ActionsSortable(g)
    ensures Sortable(g)
  {
    hide AllItems;
    var w: nat :| Narrow(g, w) && |AllItems(g)| * (w + g.nterminal) + 1 < 0x4000_0000;
    AtLeast(|AllItems(g)|, w + g.nterminal);
  }

  lemma AtLeast(n: nat, k: nat)
    requires k >= 1
    ensures n <= n * k
  {
  }

  lemma MulMono(a: nat, b: nat, k: nat)
    requires a <= b
    ensures a * k <= b * k
  {
  }

  lemma StateSize(e: Env, states: seq<State>, s: nat)
    requires Built(e, states) && s < |states| && ActionsSortable(e.g)
    ensures |states[s].ap| + |states[s].items| * e.g.nterminal + 1 < 0x4000_0000
  {
    hide AllItems, Inv;
    assert Inv(e, states);
    var w: nat :| Narrow(e.g, w) && |AllItems(e.g)| * (w + e.g.nterminal) + 1 < 0x4000_0000;
    var items := states[s].items;
    ItemsFacts(e, states, s);
    ValidIsInAllItems(e.g, ItemSet(items));
    DistinctBound(items, AllItems(e.g));
    WidthBound(e.g, items, w);
    assert Finished(e, states, s);
    MulMono(|items|, |AllItems(e.g)|, w + e.g.nterminal);
    assert |items| * w + |items| * e.g.nterminal == |items| * (w + e.g.nterminal);
  }

  // ----- the raw list of a state ---------------------------------------------------------------------

  /** The list of state s before conflicts are resolved, without the accepting action. */
  ghost predicate ShiftsAndReduces(e: Env, states: seq<State>, fws: Sets, s: nat, ap: seq<Action>)
    requires s < |states|
  {
    && (forall act :: act in ap <==> act in states[s].ap || ReducesIn(e.g, s, states[s].items, fws, act))
    && (ActionsSortable(e.g) ==> |ap| + 1 < 0x4000_0000)
  }

  /** Shifts in a finished list are the edges of the automaton. */
  lemma ShiftIffEdge(e: Env, states: seq<State>, m: Machine, s: nat, act: Action)
    requires Built(e, states) && m.kernel == KernelOf(states) && m.items == ItemsOf(states) && s < |states|
    requires act.kind == SHIFT
    ensures act in states[s].ap <==> Edge(e.g, m, s, act.sp, act.arg)
  {
    hide Inv, LocalOk, BackOk, HasParent;
    BuiltState(e, states, s);
    if act in states[s].ap {
      assert ShiftOk(e, states, s, act);
      var x :| Matches(x, act.sp) && Leads(e, states, s, x, act.arg);
      assert m.kernel[act.arg] == Goto(e.g, m.items[s], x);
    }
    if Edge(e.g, m, s, act.sp, act.arg) {
      EdgeShift(e, states, m, s, act);
    }
  }

  lemma EdgeShift(e: Env, states: seq<State>, m: Machine, s: nat, act: Action)
    requires Built(e, states) && m.kernel == KernelOf(states) && m.items == ItemsOf(states) && s < |states|
    requires act.kind == SHIFT
    requires Edge(e.g, m, s, act.sp, act.arg)
    ensures act in states[s].ap
  {
    hide Built;
    var x :| Matches(x, act.sp) && m.kernel[act.arg] == Goto(e.g, m.items[s], x) != {};
    var adv :| adv in Goto(e.g, m.items[s], x);
    var it :| it in m.items[s] && Next(e.g, it, x) && Advance(it) == adv;
    var t := SuccessorOf(e, states, s, it, x);
    assert Leads(e, states, s, x, act.arg);
    LeadsUnique(e, states, s, x, t, act.arg);
    assert act == Action(act.sp, SHIFT, t);
  }

  lemma ReduceIffLookahead(e: Env, states: seq<State>, links: Links, fws0: Sets, fws: Sets, s: nat, act: Action)
    requires Followed(e, states, links, fws0, fws) && s < |states| && act.kind == REDUCE
    ensures |MachineOf(states, fws).items| == |MachineOf(states, fws).la| == |states|
    ensures ReducesIn(e.g, s, states[s].items, fws, act) <==> IsRaw(e.g, MachineOf(states, fws), s, act)
  {
    hide Followed, MachineOf;
    InState(e, states, links, fws0, fws, s, Item(0, 0));
    if act.arg < |e.g.rules| {
      InState(e, states, links, fws0, fws, s, Item(act.arg, |e.g.rules[act.arg].rhs|));
    }
  }

  /** No shift is on the start symbol or on the end marker. */
  lemma ShiftSymbol(e: Env, m: Machine, s: nat, act: Action)
    requires e.g.WellFormed() && IsLR0(e.g, m) && s < |m.items| && Edge(e.g, m, s, act.sp, act.arg)
    ensures 0 < act.sp < e.g.nsymbol && act.sp != e.g.start
  {
    hide IsLR0;
    var x :| Matches(x, act.sp) && m.kernel[act.arg] == Goto(e.g, m.items[s], x) != {};
    var adv :| adv in Goto(e.g, m.items[s], x);
    var it :| it in m.items[s] && Next(e.g, it, x) && Advance(it) == adv;
    assert e.g.ValidRule(e.g.rules[it.rule]);
    assert e.g.ValidSymbol(x) && x != Nonterminal(e.g.start);
  }

  ghost predicate MachineFor(e: Env, m: Machine) {
    e.g.WellFormed() && IsLR0(e.g, m) && |m.la| == |m.items|
  }

  lemma FollowedMachine(e: Env, states: seq<State>, links: Links, fws0: Sets, fws: Sets)
    requires e.g.WellFormed() && Followed(e, states, links, fws0, fws)
    ensures MachineFor(e, MachineOf(states, fws)) && |MachineOf(states, fws).items| == |states|
  {
    hide Followed, IsLR0, MachineOf;
    var m := MachineOf(states, fws);
    FollowedBuilt(e, states, links, fws0, fws);
    MachineShape(states, fws);
    BuiltIsLR0(e, states, m);
    InState(e, states, links, fws0, fws, 0, Item(0, 0));
  }

  lemma RawMembers(e: Env, states: seq<State>, links: Links, fws0: Sets, fws: Sets, s: nat, ap: seq<Action>,
                   act: Action)
    requires Followed(e, states, links, fws0, fws) && s < |states| && ShiftsAndReduces(e, states, fws, s, ap)
    ensures |MachineOf(states, fws).items| == |MachineOf(states, fws).la| == |states|
    ensures act in ap <==> IsRaw(e.g, MachineOf(states, fws), s, act) && act.kind != ACCEPT
  {
    hide Followed, MachineOf, IsRaw, Edge, ReducesIn;
    var m := MachineOf(states, fws);
    MachineShape(states, fws);
    FollowedBuilt(e, states, links, fws0, fws);
    assert act in states[s].ap ==> act.kind == SHIFT by { OnlyShifts(e, states, s, act); }
    ReduceIffLookahead(e, states, links, fws0, fws, s, act.(kind := REDUCE));
    if act.kind == SHIFT {
      ShiftIffEdge(e, states, m, s, act);
      assert IsRaw(e.g, m, s, act) <==> Edge(e.g, m, s, act.sp, act.arg) by { RawShift(e.g, m, s, act); }
      assert !ReducesIn(e.g, s, states[s].items, fws, act) by { OnlyReduces(e, states, fws, s, act); }
    } else if act.kind == REDUCE {
      assert act.(kind := REDUCE) == act;
    } else {
      assert !ReducesIn(e.g, s, states[s].items, fws, act) by { OnlyReduces(e, states, fws, s, act); }
      RawKinds(e.g, m, s, act);
    }
  }

  lemma RawShift(g: Grammar, m: Machine, s: nat, act: Action)
    requires s < |m.items| == |m.la| && act.kind == SHIFT
    ensures IsRaw(g, m, s, act) <==> Edge(g, m, s, act.sp, act.arg)
  {
  }

  lemma RawKinds(g: Grammar, m: Machine, s: nat, act: Action)
    requires s < |m.items| == |m.la|
    ensures IsRaw(g, m, s, act) ==> act.kind in {SHIFT, REDUCE, ACCEPT}
  {
  }

  lemma OnlyShifts(e: Env, states: seq<State>, s: nat, act: Action)
    requires Built(e, states) && s < |states|
    ensures act in states[s].ap ==> act.kind == SHIFT
  {
    BuiltState(e, states, s);
    assert act in states[s].ap ==> ShiftOk(e, states, s, act);
  }

  lemma OnlyReduces(e: Env, states: seq<State>, fws: Sets, s: nat, act: Action)
    requires s < |states| && act.kind != REDUCE
    ensures !ReducesIn(e.g, s, states[s].items, fws, act)
  {
  }

  /** The list of a state, with the accepting action in state 0. */
  function WithAccept(g: Grammar, s: nat, ap: seq<Action>): seq<Action> {
    if s == 0 then [Action(g.start, ACCEPT, 0)] + ap else ap
  }

  /** The list built for a state is its raw list. */
  lemma RawListBuilt(e: Env, states: seq<State>, links: Links, fws0: Sets, fws: Sets, s: nat, ap: seq<Action>)
    requires Followed(e, states, links, fws0, fws) && s < |states| && ShiftsAndReduces(e, states, fws, s, ap)
    ensures |MachineOf(states, fws).items| == |MachineOf(states, fws).la| == |states|
    ensures RawList(e.g, MachineOf(states, fws), s, WithAccept(e.g, s, ap))
  {
    hide Followed, MachineOf, ShiftsAndReduces, IsRaw;
    var m := MachineOf(states, fws);
    RawMembers(e, states, links, fws0, fws, s, ap, Action(0, ACCEPT, 0));
    forall act ensures act in WithAccept(e.g, s, ap) <==> IsRaw(e.g, m, s, act) {
      RawMembers(e, states, links, fws0, fws, s, ap, act);
      RawAccept(e.g, m, s, act);
    }
  }

  lemma RawAccept(g: Grammar, m: Machine, s: nat, act: Action)
    requires s < |m.items| == |m.la|
    ensures act.kind == ACCEPT ==> (IsRaw(g, m, s, act) <==> s == 0 && act == Action(g.start, ACCEPT, 0))
  {
  }

  /**
    Every raw action is on a proper symbol; nothing competes with acceptance; only
    acceptance is on the start symbol.
  */
  lemma RawSymbols(e: Env, m: Machine, s: nat, act: Action)
    requires MachineFor(e, m) && s < |m.items| && IsRaw(e.g, m, s, act)
    ensures act.sp < e.g.nsymbol && act.kind in {SHIFT, REDUCE, ACCEPT}
    ensures act.kind == ACCEPT <==> act.sp == e.g.start
    ensures act.kind == ACCEPT ==> act == Action(e.g.start, ACCEPT, 0)
    ensures act.kind == SHIFT ==> act.sp != 0
  {
    if act.kind == SHIFT { ShiftSymbol(e, m, s, act); }
  }

  lemma RawUnresolved(e: Env, m: Machine, s: nat, ap0: seq<Action>, ap: seq<Action>)
    requires MachineFor(e, m) && s < |m.items| && RawList(e.g, m, s, WithAccept(e.g, s, ap0))
    requires forall act :: act in ap0 ==> act.kind != ACCEPT
    requires multiset(ap) == multiset(WithAccept(e.g, s, ap0))
    ensures Unresolved(ap) && RawList(e.g, m, s, ap)
  {
    hide MachineFor, IsRaw;
    Permuted(ap, WithAccept(e.g, s, ap0));
    forall k | 0 <= k < |ap| ensures ap[k].kind in {SHIFT, ACCEPT, REDUCE} {
      assert ap[k] in ap;
      RawSymbols(e, m, s, ap[k]);
    }
    var acc := Action(e.g.start, ACCEPT, 0);
    assert multiset(ap)[acc] <= 1 by { AcceptOnce(e.g, s, ap0); }
    CountTwice(ap, acc);
    forall k, l | 0 <= k < |ap| && 0 <= l < |ap| && k != l && ap[k].kind == ACCEPT ensures ap[l].sp != ap[k].sp {
      assert ap[k] in ap && ap[l] in ap;
      RawSymbols(e, m, s, ap[k]);
      RawSymbols(e, m, s, ap[l]);
    }
  }

  lemma AcceptOnce(g: Grammar, s: nat, ap0: seq<Action>)
    requires forall act :: act in ap0 ==> act.kind != ACCEPT
    ensures multiset(WithAccept(g, s, ap0))[Action(g.start, ACCEPT, 0)] <= 1
  {
    var acc := Action(g.start, ACCEPT, 0);
    assert acc !in ap0 && acc !in multiset(ap0);
    assert multiset([acc] + ap0) == multiset{acc} + multiset(ap0);
  }

  // ----- FindActions ------------------------------------------------------------------------------------

  /** raw is what the automaton calls for in state s; ap is raw with its conflicts resolved. */
  ghost predicate Resolved(g: Grammar, m: Machine, s: nat, raw: seq<Action>, ap: seq<Action>)
    requires s < |m.items| == |m.la|
  {
    && RawList(g, m, s, raw) && Unresolved(raw) && SortedActions(raw)
    && Marked(raw, ap) && Justified(g, raw, ap) && PreferredLeft(g, raw, ap) && SomeActive(ap) && OneActive(ap)
    && |ap| < 0x4000_0000
  }

  ghost predicate AllResolved(g: Grammar, m: Machine, raws: seq<seq<Action>>, aps: seq<seq<Action>>) {
    && |m.items| == |m.la| == |raws| == |aps|
    && forall s :: 0 <= s < |aps| ==> Resolved(g, m, s, raws[s], aps[s])
  }

  /** The conflicts reported over all states. */
  function TotalReported(aps: seq<seq<Action>>): nat {
    if aps == [] then 0 else TotalReported(aps[..|aps| - 1]) + CountReported(aps[|aps| - 1])
  }

  /** The list of state s before conflicts are resolved. */
  ghost predicate CollectedFor(e: Env, states: seq<State>, fws: Sets, s: nat, ap: seq<Action>)
    requires s < |states|
  {
    exists plain :: ShiftsAndReduces(e, states, fws, s, plain) && ap == WithAccept(e.g, s, plain)
  }

  /** The first half of FindActions: all reductions, and the accepting action. */
  method CollectActions(e: Env, states: seq<State>, ghost links: Links, ghost fws0: Sets, fws: Sets)
    returns (lists: seq<seq<Action>>)
    requires Followed(e, states, links, fws0, fws)
    ensures |lists| == |states|
    ensures forall s :: 0 <= s < |states| ==> CollectedFor(e, states, fws, s, lists[s])
  {
    hide Followed, ReducesIn, ActionsSortable, ShiftsAndReduces;
    FollowedBuilt(e, states, links, fws0, fws);
    lists := [];
    for s := 0 to |states|
      invariant |lists| == s && forall t :: 0 <= t < s ==> ShiftsAndReduces(e, states, fws, t, lists[t])
    {
      if ActionsSortable(e.g) { StateSize(e, states, s); }
      StateItems(e, states, links, fws0, fws, s);
      var ap := AddAllReduces(e.g, s, states[s].items, fws, states[s].ap);
      assert ShiftsAndReduces(e, states, fws, s, ap) by { ShiftsAndReducesSaid(e, states, fws, s, ap); }
      lists := lists + [ap];
    }
    ghost var plain := lists;
    lists := lists[0 := [Action(e.g.start, ACCEPT, 0)] + lists[0]];
    forall s | 0 <= s < |states| ensures CollectedFor(e, states, fws, s, lists[s]) {
      assert lists[s] == WithAccept(e.g, s, plain[s]);
    }
  }

  lemma ShiftsAndReducesSaid(e: Env, states: seq<State>, fws: Sets, s: nat, ap: seq<Action>)
    requires s < |states| && (ActionsSortable(e.g) ==> |ap| + 1 < 0x4000_0000)
    requires forall act :: act in ap <==> act in states[s].ap || ReducesIn(e.g, s, states[s].items, fws, act)
    ensures ShiftsAndReduces(e, states, fws, s, ap)
  {
    hide ReducesIn, ActionsSortable;
  }

  lemma StateItems(e: Env, states: seq<State>, links: Links, fws0: Sets, fws: Sets, s: nat)
    requires Followed(e, states, links, fws0, fws) && s < |states|
    ensures ValidItems(e.g, ItemSet(states[s].items)) && forall it :: it in states[s].items ==> Cfg(s, it) in fws
  {
    hide Followed;
    FollowedBuilt(e, states, links, fws0, fws);
    assert Inv(e, states);
    ItemsFacts(e, states, s);
    forall it | it in states[s].items ensures Cfg(s, it) in fws { InState(e, states, links, fws0, fws, s, it); }
  }

  /** The sorted list of state s is its raw list. */
  lemma SortedRaw(e: Env, states: seq<State>, links: Links, fws0: Sets, fws: Sets, s: nat, plain: seq<Action>,
                  raw: seq<Action>)
    requires e.g.WellFormed() && Followed(e, states, links, fws0, fws) && s < |states|
    requires ShiftsAndReduces(e, states, fws, s, plain)
    requires multiset(raw) == multiset(WithAccept(e.g, s, plain))
    ensures |MachineOf(states, fws).items| == |MachineOf(states, fws).la| == |states|
    ensures Unresolved(raw) && RawList(e.g, MachineOf(states, fws), s, raw)
  {
    hide Followed, MachineOf, MachineFor, RawList, Unresolved, ShiftsAndReduces;
    FollowedMachine(e, states, links, fws0, fws);
    RawListBuilt(e, states, links, fws0, fws, s, plain);
    forall act | act in plain ensures act.kind != ACCEPT {
      RawMembers(e, states, links, fws0, fws, s, plain, act);
    }
    RawUnresolved(e, MachineOf(states, fws), s, plain, raw);
  }

  /** FindActions: the action lists with all conflicts resolved, and the number of conflicts. */
  method FindActions(e: Env, states: seq<State>, ghost links: Links, ghost fws0: Sets, fws: Sets)
    returns (aps: seq<seq<Action>>, nconflict: nat, ghost raws: seq<seq<Action>>)
    requires e.g.WellFormed() && Followed(e, states, links, fws0, fws) && ActionsSortable(e.g)
    ensures AllResolved(e.g, MachineOf(states, fws), raws, aps)
    ensures nconflict == TotalReported(aps)
  {
    hide Followed, MachineOf, ShiftsAndReduces, ActionsSortable, RawList, Unresolved, SortedActions;
    hide Marked, Justified, PreferredLeft, SomeActive, OneActive, CountReported;
    var lists := CollectActions(e, states, links, fws0, fws);
    ghost var m := MachineOf(states, fws);
    InStateSizes(e, states, links, fws0, fws);
    aps, raws, nconflict := [], [], 0;
    for s := 0 to |states|
      invariant |aps| == |raws| == s && nconflict == TotalReported(aps)
      invariant forall t :: 0 <= t < s ==> Resolved(e.g, m, t, raws[t], aps[t])
    {
      ghost var plain :| ShiftsAndReduces(e, states, fws, s, plain) && lists[s] == WithAccept(e.g, s, plain);
      ShortList(e, states, fws, s, plain);
      var raw := ActionSort(lists[s]);
      SortedRaw(e, states, links, fws0, fws, s, plain, raw);
      Permuted(raw, lists[s]);
      var ap, n := ResolveConflicts(e.g, raw);
      MarkedLength(raw, ap);
      assert Resolved(e.g, m, s, raw, ap);
      assert (aps + [ap])[..|aps|] == aps;
      aps, raws, nconflict := aps + [ap], raws + [raw], nconflict + n;
    }
  }

  lemma InStateSizes(e: Env, states: seq<State>, links: Links, fws0: Sets, fws: Sets)
    requires Followed(e, states, links, fws0, fws)
    ensures |MachineOf(states, fws).items| == |MachineOf(states, fws).la| == |states|
  {
  }

  lemma ShortList(e: Env, states: seq<State>, fws: Sets, s: nat, ap: seq<Action>)
    requires s < |states| && ShiftsAndReduces(e, states, fws, s, ap) && ActionsSortable(e.g)
    ensures |WithAccept(e.g, s, ap)| < 0x4000_0000
  {
  }

  lemma MarkedLength(raw: seq<Action>, ap: seq<Action>)
    requires Marked(raw, ap)
    ensures |raw| == |ap|
  {
  }

  // ----- CompressTables ---------------------------------------------------------------------------------

  /** fin is the final list of a state: compressed from ap. */
  ghost predicate CompressedTo(g: Grammar, ap: seq<Action>, fin: seq<Action>, best: Option<nat>) {
    Compressed(g, ap, fin, best) && OneActive(fin)
  }

  ghost predicate AllCompressed(g: Grammar, aps: seq<seq<Action>>, finals: seq<seq<Action>>, bests: seq<Option<nat>>) {
    && |aps| == |finals| == |bests|
    && forall s :: 0 <= s < |aps| ==> CompressedTo(g, aps[s], finals[s], bests[s])
  }

  /** Every list is compressed, with some choice of default rules. */
  ghost predicate TablesCompressed(g: Grammar, aps: seq<seq<Action>>, finals: seq<seq<Action>>) {
    exists bests :: AllCompressed(g, aps, finals, bests)
  }

  lemma ResolvedSymbols(e: Env, m: Machine, s: nat, raw: seq<Action>, ap: seq<Action>)
    requires MachineFor(e, m) && s < |m.items| && Resolved(e.g, m, s, raw, ap)
    ensures |ap| < 0x4000_0000 && OneActive(ap) && forall k :: 0 <= k < |ap| ==> ap[k].sp < e.g.nsymbol
  {
    hide MachineFor, IsRaw, Justified, PreferredLeft, SomeActive, OneActive, SortedActions, Unresolved;
    forall k | 0 <= k < |ap| ensures ap[k].sp < e.g.nsymbol {
      assert raw[k] in raw && ap[k].sp == raw[k].sp;
      RawSymbols(e, m, s, raw[k]);
    }
  }

  lemma ResolvedAt(g: Grammar, m: Machine, raws: seq<seq<Action>>, aps: seq<seq<Action>>, s: nat)
    requires AllResolved(g, m, raws, aps) && s < |aps|
    ensures s < |m.items| == |m.la| == |raws| == |aps| && Resolved(g, m, s, raws[s], aps[s])
  {
  }

  /** CompressTables */
  method CompressTables(e: Env, ghost m: Machine, ghost raws: seq<seq<Action>>, aps: seq<seq<Action>>)
    returns (finals: seq<seq<Action>>)
    requires MachineFor(e, m) && AllResolved(e.g, m, raws, aps)
    ensures |finals| == |aps| && TablesCompressed(e.g, aps, finals)
  {
    hide MachineFor, AllResolved, Resolved, Compressed, OneActive;
    finals := [];
    ghost var bests: seq<Option<nat>> := [];
    for s := 0 to |aps|
      invariant |finals| == |bests| == s && forall t :: 0 <= t < s ==> CompressedTo(e.g, aps[t], finals[t], bests[t])
    {
      ResolvedAt(e.g, m, raws, aps, s);
      ResolvedSymbols(e, m, s, raws[s], aps[s]);
      var fin, best := Compress(e.g, aps[s]);
      finals, bests := finals + [fin], bests + [best];
    }
    assert AllCompressed(e.g, aps, finals, bests);
  }

  // ----- what the final lists hold --------------------------------------------------------------------------

  /** Items of start rules have no lookahead but the end marker. */
  ghost predicate StartOnlyAtEnd(g: Grammar, m: Machine) {
    forall s, it {:trigger m.la[s][it]} ::
      0 <= s < |m.la| && it in m.la[s] && StartRule(g, it.rule) ==> m.la[s][it] <= {0}
  }

  lemma {:induction false} StartAhead(e: Env, d: Deriv)
    requires e.g.WellFormed() && Derivation(e.g, d) && StartRule(e.g, What(d).rule)
    ensures Ahead(e, d) == {0}
  {
    match d
    case Begin(_) =>
    case Over(p) => StartAhead(e, p);
    case Predict(p, r) => StartNotPredicted(e.g, What(p), r);
  }

  lemma StartNotPredicted(g: Grammar, p: Item, r: nat)
    requires g.WellFormed() && Predicts(g, p, Item(r, 0))
    ensures !StartRule(g, r)
  {
    assert g.ValidRule(g.rules[p.rule]);
  }

  /** A start rule is only ever reduced under the end marker. */
  lemma StartReducesAtEnd(e: Env, m: Machine)
    requires e.g.WellFormed() && LaExact(e, m)
    ensures StartOnlyAtEnd(e.g, m)
  {
    forall s, it {:trigger m.la[s][it]} | 0 <= s < |m.la| && it in m.la[s] && StartRule(e.g, it.rule)
      ensures m.la[s][it] <= {0} {
      forall a | a in m.la[s][it] ensures a == 0 {
        assert Foreseen(e, m, Cfg(s, it), a);
        var d :| DerivedAt(e.g, m, s, it, d) && a in Ahead(e, d);
        StartAhead(e, d);
      }
    }
  }

  /** What an active action of a final list says about its state. */
  ghost predicate ActionFits(g: Grammar, m: Machine, s: nat, act: Action)
    requires s < |m.items|
  {
    match act.kind
    case SHIFT => 0 < act.sp < g.nsymbol && act.sp != g.start && Edge(g, m, s, act.sp, act.arg)
    case ACCEPT => s == 0 && act.sp == g.start
    case REDUCE =>
      && act.arg < |g.rules| && Item(act.arg, |g.rules[act.arg].rhs|) in m.items[s]
      && (act.sp < g.nterminal || act.sp == g.nsymbol)
      && (StartRule(g, act.arg) ==> act.sp == 0)
    case _ => false
  }

  ghost predicate HoldsFor(ap: seq<Action>, sp: nat) {
    exists act :: Holds(ap, act) && act.sp == sp
  }

  /** A final list: one action a symbol, all of them actions of the automaton, and every move after a reduction. */
  ghost predicate ListFits(g: Grammar, m: Machine, s: nat, ap: seq<Action>)
    requires s < |m.items|
  {
    && OneActive(ap)
    && (forall act :: Holds(ap, act) ==> ActionFits(g, m, s, act))
    && (forall b: nat :: GotoNeeded(g, m, s, b) ==> HoldsFor(ap, b))
  }

  lemma RawFits(e: Env, m: Machine, s: nat, act: Action)
    requires MachineFor(e, m) && StartOnlyAtEnd(e.g, m) && s < |m.items| && IsRaw(e.g, m, s, act)
    ensures ActionFits(e.g, m, s, act)
  {
    hide IsLR0, Edge;
    RawSymbols(e, m, s, act);
    if act.kind == REDUCE {
      var it := Item(act.arg, |e.g.rules[act.arg].rhs|);
      assert act.sp in m.la[s][it];
    }
  }

  /** The active actions of a resolved list are raw. */
  lemma ActiveIsRaw(g: Grammar, m: Machine, s: nat, raw: seq<Action>, ap: seq<Action>, act: Action)
    requires s < |m.items| == |m.la| && Resolved(g, m, s, raw, ap) && Holds(ap, act)
    ensures IsRaw(g, m, s, act)
  {
    hide IsRaw, Justified, PreferredLeft, SomeActive, OneActive, SortedActions, Unresolved;
    var k :| 0 <= k < |ap| && ap[k] == act;
    assert raw[k] == ap[k];
    assert raw[k] in raw;
  }

  /**
    Where the automaton has one shift on a token, the shift is kept if and only if no
    reduction that the automaton calls for on the token overrules it.
  */
  lemma ShiftKeptIff(g: Grammar, m: Machine, s: nat, raw: seq<Action>, ap: seq<Action>, act: Action)
    requires s < |m.items| == |m.la| && Resolved(g, m, s, raw, ap) && IsRaw(g, m, s, act) && act.kind == SHIFT
    requires forall y :: IsRaw(g, m, s, y) && y.kind == SHIFT && y.sp == act.sp ==> y == act
    ensures Holds(ap, act) <==>
            forall y :: IsRaw(g, m, s, y) && y.kind == REDUCE && y.sp == act.sp ==> !Overrules(g, y, act)
  {
    hide IsRaw, Justified, SomeActive, OneActive, SortedActions, Unresolved, Overrules, Marked, PreferredLeft, Active;
    var k :| 0 <= k < |raw| && raw[k] == act;
    forall l | 0 <= l < |raw| && raw[l].kind == SHIFT && raw[l].sp == act.sp ensures raw[l] == act {
      assert raw[l] in raw;
    }
    MarkedLength(raw, ap);
    ShiftLeftIff(g, raw, ap, k);
    if y :| IsRaw(g, m, s, y) && y.kind == REDUCE && y.sp == act.sp && Overrules(g, y, act) {
      assert y in raw;
      var l :| 0 <= l < |raw| && raw[l] == y;
    }
    if Overruled(g, raw, |raw|, k) {
      var l :| 0 <= l < |raw| && raw[l].sp == act.sp && raw[l].kind == REDUCE && Overrules(g, raw[l], act);
      assert raw[l] in raw;
    }
  }

  /** Every symbol with a raw action keeps one. */
  lemma RawIsHeld(g: Grammar, m: Machine, s: nat, raw: seq<Action>, ap: seq<Action>, act: Action)
    requires s < |m.items| == |m.la| && Resolved(g, m, s, raw, ap) && IsRaw(g, m, s, act)
    ensures HoldsFor(ap, act.sp)
  {
    hide IsRaw, Justified, PreferredLeft, OneActive, SortedActions, Unresolved;
    var k :| 0 <= k < |raw| && raw[k] == act;
    assert ap[k].sp == act.sp;
    assert HasActive(ap, ap[k].sp);
    var w: nat :| ActiveOn(ap, w, act.sp);
    assert ap[w] in ap && Holds(ap, ap[w]);
  }

  /** A move after a reduction is a raw action. */
  lemma GotoIsRaw(e: Env, m: Machine, s: nat, b: nat) returns (act: Action)
    requires MachineFor(e, m) && s < |m.items| && GotoNeeded(e.g, m, s, b)
    ensures IsRaw(e.g, m, s, act) && act.sp == b && e.g.nterminal <= b < e.g.nsymbol
  {
    hide IsLR0;
    if s == 0 && b == e.g.start {
      act := Action(b, ACCEPT, 0);
    } else {
      var p :| p in m.items[s] && Automata.Next(e.g, p, Nonterminal(b));
      assert e.g.ValidRule(e.g.rules[p.rule]) && e.g.ValidSymbol(Nonterminal(b));
      var t := SuccessorState(e.g, m, s, p, Nonterminal(b));
      assert Matches(Nonterminal(b), b);
      act := Action(b, SHIFT, t);
    }
  }

  /** The compressed list of a state fits the automaton. */
  lemma FinalFits(e: Env, m: Machine, s: nat, raw: seq<Action>, ap: seq<Action>, fin: seq<Action>, best: Option<nat>)
    requires MachineFor(e, m) && StartOnlyAtEnd(e.g, m) && s < |m.items| == |m.la|
    requires Resolved(e.g, m, s, raw, ap) && CompressedTo(e.g, ap, fin, best)
    ensures ListFits(e.g, m, s, fin)
  {
    hide MachineFor, StartOnlyAtEnd, Resolved, IsRaw, OneActive, MostFrequent, NothingToDefault, GotoNeeded, ActionFits;
    forall act | Holds(fin, act) ensures ActionFits(e.g, m, s, act) {
      FinalActionFits(e, m, s, raw, ap, fin, best, act);
    }
    forall b: nat | GotoNeeded(e.g, m, s, b) ensures HoldsFor(fin, b) {
      FinalGoto(e, m, s, raw, ap, fin, best, b);
    }
  }

  lemma FinalActionFits(e: Env, m: Machine, s: nat, raw: seq<Action>, ap: seq<Action>, fin: seq<Action>,
                        best: Option<nat>, act: Action)
    requires MachineFor(e, m) && StartOnlyAtEnd(e.g, m) && s < |m.items| == |m.la|
    requires Resolved(e.g, m, s, raw, ap) && CompressedTo(e.g, ap, fin, best) && Holds(fin, act)
    ensures ActionFits(e.g, m, s, act)
  {
    hide MachineFor, StartOnlyAtEnd, Resolved, IsRaw, OneActive, MostFrequent, NothingToDefault;
    if Holds(ap, act) {
      ActiveIsRaw(e.g, m, s, raw, ap, act);
      RawFits(e, m, s, act);
    } else {
      assert best.Some? && act == DefaultAction(e.g, best.value);
      var one :| one in ap && ByRule(one, best.value);
      ActiveIsRaw(e.g, m, s, raw, ap, one);
      RawFits(e, m, s, one);
    }
  }

  lemma FinalGoto(e: Env, m: Machine, s: nat, raw: seq<Action>, ap: seq<Action>, fin: seq<Action>, best: Option<nat>,
                  b: nat)
    requires MachineFor(e, m) && StartOnlyAtEnd(e.g, m) && s < |m.items| == |m.la|
    requires Resolved(e.g, m, s, raw, ap) && CompressedTo(e.g, ap, fin, best) && GotoNeeded(e.g, m, s, b)
    ensures HoldsFor(fin, b)
  {
    hide MachineFor, StartOnlyAtEnd, Resolved, IsRaw, OneActive, MostFrequent, NothingToDefault, GotoNeeded;
    var want := GotoIsRaw(e, m, s, b);
    RawIsHeld(e.g, m, s, raw, ap, want);
    var act :| Holds(ap, act) && act.sp == b;
    ActiveIsRaw(e.g, m, s, raw, ap, act);
    RawFits(e, m, s, act);
    assert !ByRule(act, 0) && act.kind != REDUCE by { NotReduced(e, m, s, act); }
    assert Holds(fin, act);
  }

  lemma NotReduced(e: Env, m: Machine, s: nat, act: Action)
    requires MachineFor(e, m) && s < |m.items| && IsRaw(e.g, m, s, act) && act.sp >= e.g.nterminal
    ensures act.kind != REDUCE
  {
  }

  /** In a conflict-free automaton no action is lost: each is taken, explicitly or as the default. */
  lemma ConflictFreeTakes(e: Env, m: Machine, s: nat, raw: seq<Action>, ap: seq<Action>, fin: seq<Action>,
                          best: Option<nat>, act: Action)
    requires MachineFor(e, m) && ConflictFree(e.g, m) && s < |m.items| == |m.la|
    requires Resolved(e.g, m, s, raw, ap) && CompressedTo(e.g, ap, fin, best) && IsRaw(e.g, m, s, act)
    ensures Takes(e.g, fin, act.sp, act)
  {
    hide MachineFor, Resolved, IsRaw, OneActive, Compressed, Takes;
    RawIsHeld(e.g, m, s, raw, ap, act);
    var held :| Holds(ap, held) && held.sp == act.sp;
    ActiveIsRaw(e.g, m, s, raw, ap, held);
    assert held == act;
    ResolvedSymbols(e, m, s, raw, ap);
    RawSymbols(e, m, s, act);
    CompressionKeeps(e.g, ap, fin, best, act.sp, act);
  }

  /**
    What a final list takes on a symbol is an action the automaton calls for there;
    only where it calls for none may it be the default, the most frequent reduction
    that is not to the start symbol.
  */
  lemma TakenIsRawOrDefault(e: Env, m: Machine, s: nat, raw: seq<Action>, ap: seq<Action>, fin: seq<Action>,
                            best: Option<nat>, act: Action)
    requires MachineFor(e, m) && s < |m.items| == |m.la| && act.sp < e.g.nsymbol
    requires Resolved(e.g, m, s, raw, ap) && CompressedTo(e.g, ap, fin, best) && Takes(e.g, fin, act.sp, act)
    ensures || IsRaw(e.g, m, s, act)
            || (&& act.kind == REDUCE && best == Some(act.arg) && !StartRule(e.g, act.arg)
                && forall x :: IsRaw(e.g, m, s, x) ==> x.sp != act.sp)
  {
    hide MachineFor, Resolved, IsRaw, OneActive, Compressed, Takes;
    ResolvedSymbols(e, m, s, raw, ap);
    CompressionKeeps(e.g, ap, fin, best, act.sp, act);
    if Holds(ap, act) {
      ActiveIsRaw(e.g, m, s, raw, ap, act);
    } else {
      forall x | IsRaw(e.g, m, s, x) ensures x.sp != act.sp {
        RawIsHeld(e.g, m, s, raw, ap, x);
      }
    }
  }
}
