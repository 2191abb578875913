/**
  FindLinks, and what the follow sets are: exactly what the lambda flags and the first
  sets foresee along the derivations of items.

  A `Deriv` is a derivation of an LR(1) item: it starts with a start rule, moves the
  dot over a symbol, or predicts a rule of the nonterminal after the dot.  It
  determines a viable prefix (`Where`), an item (`What`) and the tokens that are
  foreseen behind it (`Ahead`), without mentioning states or propagation.
*/
module Lookaheads {
  import opened Grammars
  import opened Automata
  import opened FirstSets
  import opened FollowSets
  import opened Configlist
  import opened SortedItems
  import opened FindStates

  // ----- derivations of LR(1) items -------------------------------------------------------

  datatype Deriv = Begin(rule: nat) | Over(d: Deriv) | Predict(d: Deriv, rule: nat)

  function What(d: Deriv): Item {
    match d
    case Begin(r) => Item(r, 0)
    case Over(p) => Advance(What(p))
    case Predict(_, r) => Item(r, 0)
  }

  ghost predicate Derivation(g: Grammar, d: Deriv) {
    match d
    case Begin(r) => r < |g.rules| && g.rules[r].lhs == g.start
    case Over(p) => Derivation(g, p) && What(p).rule < |g.rules| && What(p).dot < |g.rules[What(p).rule].rhs|
    case Predict(p, r) => Derivation(g, p) && Predicts(g, What(p), Item(r, 0))
  }

  function After(g: Grammar, it: Item): Symbol
    requires it.rule < |g.rules| && it.dot < |g.rules[it.rule].rhs|
  {
    g.rules[it.rule].rhs[it.dot]
  }

  ghost function Where(g: Grammar, d: Deriv): seq<Symbol>
    requires Derivation(g, d)
  {
    match d
    case Begin(_) => []
    case Over(p) => Where(g, p) + [After(g, What(p))]
    case Predict(p, _) => Where(g, p)
  }

  /** The tokens that the flags and first sets put behind the rule of a derived item. */
  ghost function Ahead(e: Env, d: Deriv): set<nat>
    requires Derivation(e.g, d)
  {
    match d
    case Begin(_) => {0}
    case Over(p) => Ahead(e, p)
    case Predict(p, r) =>
      SuffixFirst(e.lambda, e.first, Behind(e.g, What(p))) +
      if AllLambda(e.lambda, Behind(e.g, What(p))) then Ahead(e, p) else {}
  }

  /** The symbols w lead from state 0 to state s. */
  ghost predicate Walk(g: Grammar, m: Machine, w: seq<Symbol>, s: nat) {
    if w == [] then s == 0
    else exists p: nat :: Walk(g, m, w[..|w| - 1], p) && p < |m.items| && s < |m.kernel| &&
                          m.kernel[s] == Goto(g, m.items[p], w[|w| - 1]) != {}
  }

  /** The derivation is about item `it` in state s. */
  ghost predicate DerivedAt(g: Grammar, m: Machine, s: nat, it: Item, d: Deriv) {
    Derivation(g, d) && What(d) == it && Walk(g, m, Where(g, d), s)
  }

  /** Some derivation of the item that leads to the state has the token ahead. */
  ghost predicate Foreseen(e: Env, m: Machine, c: Cfg, a: nat) {
    exists d :: DerivedAt(e.g, m, c.state, c.item, d) && a in Ahead(e, d)
  }

  /** Every item of every state has lookaheads. */
  ghost predicate LaShaped(m: Machine) {
    && |m.la| == |m.items| == |m.kernel|
    && forall s :: 0 <= s < |m.la| ==> m.la[s].Keys == m.items[s]
  }

  /** Predicted items have the first tokens behind the predicting ones. */
  ghost predicate GivenStays(e: Env, m: Machine) {
    forall s, p, it {:trigger m.la[s], Given(e, p, it)} ::
      0 <= s < |m.la| && p in m.la[s] && it in m.la[s] ==> Given(e, p, it) <= m.la[s][it]
  }

  /** Where nothing but lambda is behind the predicting item, its lookaheads are handed on. */
  ghost predicate PassedOn(e: Env, m: Machine) {
    forall s, p, it {:trigger m.la[s], PassesOn(e, p, it)} ::
      0 <= s < |m.la| && p in m.la[s] && it in m.la[s] && PassesOn(e, p, it) ==> m.la[s][p] <= m.la[s][it]
  }

  /** Moving the dot keeps the lookaheads. */
  ghost predicate ShiftedOn(e: Env, m: Machine)
    requires LaShaped(m)
  {
    forall s: nat, t: nat, p, x {:trigger Goto(e.g, m.items[s], x), m.la[t], Next(e.g, p, x)} ::
      s < |m.la| && t < |m.la| && p in m.la[s] && Next(e.g, p, x)
      && m.kernel[t] == Goto(e.g, m.items[s], x) && Advance(p) in m.la[t] ==>
        m.la[s][p] <= m.la[t][Advance(p)]
  }

  /** The lookaheads of the machine satisfy the four rules of propagation. */
  ghost predicate LaClosed(e: Env, m: Machine) {
    && LaShaped(m)
    && (|m.la| > 0 ==> forall it :: it in m.kernel[0] && it in m.la[0] ==> 0 in m.la[0][it])
    && GivenStays(e, m) && PassedOn(e, m) && ShiftedOn(e, m)
  }

  /** The lookaheads are exact: those of all derivations of the item that lead to the state. */
  ghost predicate LaExact(e: Env, m: Machine) {
    && |m.la| == |m.items| && (forall s :: 0 <= s < |m.la| ==> m.la[s].Keys == m.items[s])
    && forall s: nat, it, a :: s < |m.la| && it in m.la[s] ==>
         (a in m.la[s][it] <==> Foreseen(e, m, Cfg(s, it), a))
  }

  // ----- the machine that the states are --------------------------------------------------------

  function KernelOf(states: seq<State>): seq<set<Item>> {
    seq(|states|, s requires 0 <= s < |states| => ItemSet(states[s].basis))
  }

  function ItemsOf(states: seq<State>): seq<set<Item>> {
    seq(|states|, s requires 0 <= s < |states| => ItemSet(states[s].items))
  }

  /** All states are built. */
  ghost predicate Built(e: Env, states: seq<State>) {
    Inv(e, states) && states != [] && forall s :: 0 <= s < |states| ==> Finished(e, states, s)
  }

  lemma SuccessorOf(e: Env, states: seq<State>, s: nat, it: Item, x: Symbol) returns (t: nat)
    requires Built(e, states) && s < |states| && it in states[s].items && Next(e.g, it, x)
    ensures Leads(e, states, s, x, t) && SymbolDoneTo(e, states, s, x, t)
  {
    assert Finished(e, states, s);
    assert SymbolDone(e, states, s, x);
    t :| SymbolDoneTo(e, states, s, x, t);
  }

  lemma BuiltStateOk(e: Env, states: seq<State>, m: Machine, s: nat)
    requires Built(e, states) && m.kernel == KernelOf(states) && m.items == ItemsOf(states) && s < |states|
    ensures StateOk(e.g, m, s)
  {
    hide SymbolDone, Finished;
    assert StateInv(e, states, s) && LocalOk(e, s, states[s]);
    forall it, x {:trigger Next(e.g, it, x)} | it in m.items[s] && Next(e.g, it, x)
      ensures exists t :: 0 <= t < |m.kernel| && m.kernel[t] == Goto(e.g, m.items[s], x) {
      var t := SuccessorOf(e, states, s, it, x);
      assert m.kernel[t] == Goto(e.g, m.items[s], x);
    }
    if s > 0 {
      assert states[s].basis[0] in m.kernel[s];
    }
  }

  /** The finished states are the LR(0) automaton of the grammar. */
  lemma BuiltIsLR0(e: Env, states: seq<State>, m: Machine)
    requires Built(e, states) && m.kernel == KernelOf(states) && m.items == ItemsOf(states)
    ensures IsLR0(e.g, m)
  {
    hide StateOk, Finished, StartItems;
    forall s | 0 <= s < |m.items| ensures StateOk(e.g, m, s) { BuiltStateOk(e, states, m, s); }
    forall s, t | 0 <= s < t < |m.kernel| ensures m.kernel[s] != m.kernel[t] {
      BasesDiffer(e, states, s, t);
    }
    assert StateInv(e, states, 0);
  }

  /** The states are numbered as they are made, from their predecessors. */
  lemma BuiltInOrder(e: Env, states: seq<State>, m: Machine)
    requires Built(e, states) && m.kernel == KernelOf(states) && m.items == ItemsOf(states)
    ensures MadeInOrder(e.g, m)
  {
    hide Finished, LocalOk, BackOk, ShiftsOk;
    forall s: nat | 0 < s < |m.kernel| ensures HasMaker(e.g, m, s) {
      assert StateInv(e, states, s) && HasParent(e, states, s);
      var p: nat, x :| p < s && Leads(e, states, p, x, s);
      assert Parent(e.g, m, p, x, s);
    }
  }

  lemma BasesDiffer(e: Env, states: seq<State>, s: nat, t: nat)
    requires Inv(e, states) && s < t < |states|
    ensures ItemSet(states[s].basis) != ItemSet(states[t].basis)
  {
    assert StateInv(e, states, s) && StateInv(e, states, t);
    if ItemSet(states[s].basis) == ItemSet(states[t].basis) {
      OrderedUnique(states[s].basis, states[t].basis);
    }
  }

  // ----- FindLinks -----------------------------------------------------------------------------------

  predicate IsCfg(states: seq<State>, c: Cfg) {
    c.state < |states| && c.item in states[c.state].items
  }

  /** The tables of all states are defined on their items. */
  ghost predicate TablesDefined(states: seq<State>) {
    && (forall s, it :: 0 <= s < |states| && it in states[s].items ==>
          it in states[s].fws && it in states[s].fplp && it in states[s].bplp)
    && (forall s, it, q ::
          0 <= s < |states| && it in states[s].fplp && q in states[s].fplp[it] ==> q in states[s].items)
    && (forall s, it, c :: 0 <= s < |states| && it in states[s].bplp && c in states[s].bplp[it] ==> IsCfg(states, c))
  }

  ghost predicate ForwardLink(states: seq<State>, c: Cfg, d: Cfg) {
    IsCfg(states, c) && c.item in states[c.state].fplp && d.state == c.state && d.item in states[c.state].fplp[c.item]
  }

  ghost predicate BackwardLink(states: seq<State>, c: Cfg, d: Cfg) {
    IsCfg(states, d) && d.item in states[d.state].bplp && c in states[d.state].bplp[d.item]
  }

  /** v is the follow set that the state keeps for the configuration. */
  ghost predicate OwnFws(states: seq<State>, c: Cfg, v: set<nat>) {
    IsCfg(states, c) && c.item in states[c.state].fws && v == states[c.state].fws[c.item]
  }

  /** All configurations, state by state. */
  method AllCfgs(states: seq<State>) returns (order: seq<Cfg>)
    ensures forall c :: c in order <==> IsCfg(states, c)
  {
    order := [];
    for s := 0 to |states|
      invariant forall c :: c in order <==> c.state < s && IsCfg(states, c)
    {
      var items := states[s].items;
      for i := 0 to |items|
        invariant forall c :: c in order <==>
          (c.state < s && IsCfg(states, c)) || (c.state == s && c.item in items[..i])
      {
        order := order + [Cfg(s, items[i])];
      }
      assert items[..|items|] == items;
    }
  }

  /** The links inside each state, and the follow sets found so far. */
  method LocalLinks(states: seq<State>, order: seq<Cfg>) returns (links: Links, fws: Sets)
    requires TablesDefined(states) && forall c :: c in order <==> IsCfg(states, c)
    ensures links.Keys == fws.Keys == set c | c in order
    ensures forall c, d :: c in links ==> (d in links[c] <==> ForwardLink(states, c, d))
    ensures forall c :: c in fws ==> OwnFws(states, c, fws[c])
  {
    links, fws := map[], map[];
    for k := 0 to |order|
      invariant links.Keys == fws.Keys == set c | c in order[..k]
      invariant forall c, d :: c in links ==> (d in links[c] <==> ForwardLink(states, c, d))
      invariant forall c :: c in fws ==> OwnFws(states, c, fws[c])
    {
      var c := order[k];
      assert IsCfg(states, c);
      var targets := states[c.state].fplp[c.item];
      var ds := seq(|targets|, i requires 0 <= i < |targets| => Cfg(c.state, targets[i]));
      forall d ensures d in ds <==> ForwardLink(states, c, d) {
        if ForwardLink(states, c, d) {
          var i :| 0 <= i < |targets| && targets[i] == d.item;
          assert ds[i] == d;
        }
      }
      links := links[c := ds];
      fws := fws[c := states[c.state].fws[c.item]];
      assert order[..k + 1] == order[..k] + [c];
    }
    assert order[..|order|] == order;
  }

  lemma BackwardLinks(states: seq<State>, c: Cfg)
    requires IsCfg(states, c) && c.item in states[c.state].bplp
    ensures forall b :: BackwardLink(states, b, c) <==> b in states[c.state].bplp[c.item]
  {
  }

  /** Convert the back links of one configuration into forward links. */
  method TurnAround(states: seq<State>, links0: Links, c: Cfg) returns (links: Links)
    requires TablesDefined(states) && IsCfg(states, c) && forall b :: IsCfg(states, b) <==> b in links0
    ensures links.Keys == links0.Keys
    ensures forall b, d :: b in links ==> (d in links[b] <==> d in links0[b] || (d == c && BackwardLink(states, b, c)))
  {
    hide BackwardLink;
    links := links0;
    var others := states[c.state].bplp[c.item];
    assert forall b :: BackwardLink(states, b, c) <==> b in others by { BackwardLinks(states, c); }
    for i := 0 to |others|
      invariant links.Keys == links0.Keys
      invariant forall b, d :: b in links ==> (d in links[b] <==> d in links0[b] || (d == c && b in others[..i]))
    {
      var other := others[i];
      assert IsCfg(states, other);
      links := links[other := links[other] + [c]];
      assert others[..i + 1] == others[..i] + [other];
    }
    assert others[..|others|] == others;
  }

  /** FindLinks: the forward links of all configurations. */
  method FindLinks(states: seq<State>) returns (links: Links, order: seq<Cfg>, fws: Sets)
    requires TablesDefined(states)
    ensures forall c :: c in order <==> IsCfg(states, c)
    ensures links.Keys == fws.Keys == set c | c in order
    ensures forall c, d :: c in links ==> (d in links[c] <==> ForwardLink(states, c, d) || BackwardLink(states, c, d))
    ensures forall c :: c in fws ==> OwnFws(states, c, fws[c])
  {
    hide TablesDefined, ForwardLink, IsCfg;
    order := AllCfgs(states);
    links, fws := LocalLinks(states, order);
    ghost var local := links;
    for k := 0 to |order|
      invariant links.Keys == local.Keys
      invariant forall c, d :: c in links ==>
        (d in links[c] <==> d in local[c] || (d in order[..k] && BackwardLink(states, c, d)))
    {
      links := TurnAround(states, links, order[k]);
      assert order[..k + 1] == order[..k] + [order[k]];
    }
    assert order[..|order|] == order;
    forall c, d | c in links ensures d in links[c] <==> ForwardLink(states, c, d) || BackwardLink(states, c, d) {
      assert BackwardLink(states, c, d) ==> IsCfg(states, d);
      assert d in order <==> IsCfg(states, d);
    }
  }

  // ----- what the links mean --------------------------------------------------------------------------

  /** d is c with the dot moved over a symbol, in the successor state. */
  ghost predicate ShiftsTo(e: Env, states: seq<State>, c: Cfg, d: Cfg) {
    && IsCfg(states, c) && IsCfg(states, d) && d.item == Advance(c.item)
    && exists x :: Next(e.g, c.item, x) && Leads(e, states, c.state, x, d.state)
  }

  lemma BuiltState(e: Env, states: seq<State>, s: nat)
    requires Built(e, states) && s < |states|
    ensures LocalOk(e, s, states[s]) && BackOk(e, states, s) && ShiftsOk(e, states, s) && Finished(e, states, s)
    ensures s > 0 ==> HasParent(e, states, s)
  {
    assert StateInv(e, states, s);
  }

  lemma BuiltTables(e: Env, states: seq<State>)
    requires Built(e, states)
    ensures TablesDefined(states)
  {
    forall s, it | 0 <= s < |states| && it in states[s].items
      ensures it in states[s].fws && it in states[s].fplp && it in states[s].bplp {
      BuiltState(e, states, s);
      assert it in ItemSet(states[s].items);
    }
    forall s, it, q | 0 <= s < |states| && it in states[s].fplp && q in states[s].fplp[it]
      ensures q in states[s].items {
      ForwardTarget(e, states, s, it, q);
    }
    forall s, it, c | 0 <= s < |states| && it in states[s].bplp && c in states[s].bplp[it] ensures IsCfg(states, c) {
      BuiltState(e, states, s);
      assert BackLink(e, states, s, it, c);
    }
  }

  lemma ForwardTarget(e: Env, states: seq<State>, s: nat, it: Item, q: Item)
    requires Built(e, states) && s < |states| && it in states[s].fplp && q in states[s].fplp[it]
    ensures it in states[s].items && q in states[s].items && PassesOn(e, it, q)
  {
    hide Built, Finished, BackOk, ShiftsOk, Ordered, FwsExact, AllLambda;
    BuiltState(e, states, s);
    assert it in ItemSet(states[s].items) && PassesOn(e, it, q);
    assert q in ItemSet(states[s].items);
  }

  lemma ForwardMeans(e: Env, states: seq<State>, c: Cfg, d: Cfg)
    requires Built(e, states)
    ensures ForwardLink(states, c, d) <==>
      IsCfg(states, c) && IsCfg(states, d) && c.state == d.state && PassesOn(e, c.item, d.item)
  {
    if IsCfg(states, c) {
      BuiltState(e, states, c.state);
      assert c.item in ItemSet(states[c.state].items);
      if ForwardLink(states, c, d) { ForwardTarget(e, states, c.state, c.item, d.item); }
    }
  }

  lemma BackwardMeans(e: Env, states: seq<State>, c: Cfg, d: Cfg)
    requires Built(e, states)
    ensures BackwardLink(states, c, d) <==> ShiftsTo(e, states, c, d)
  {
    hide Built, Finished, ShiftsOk, LocalOk;
    if BackwardLink(states, c, d) {
      BuiltState(e, states, d.state);
      assert BackLink(e, states, d.state, d.item, c);
    }
    if ShiftsTo(e, states, c, d) {
      var x :| Next(e.g, c.item, x) && Leads(e, states, c.state, x, d.state);
      var t := SuccessorOf(e, states, c.state, c.item, x);
      LeadsUnique(e, states, c.state, x, t, d.state);
    }
  }

  lemma LeadsUnique(e: Env, states: seq<State>, s: nat, x: Symbol, t: nat, u: nat)
    requires Built(e, states) && Leads(e, states, s, x, t) && Leads(e, states, s, x, u)
    ensures t == u
  {
    if t < u { BasesDiffer(e, states, t, u); }
    if u < t { BasesDiffer(e, states, u, t); }
  }

  // ----- the lookaheads are propagated --------------------------------------------------------------

  /** The outcome of FindLinks and FindFollowSets. */
  ghost predicate Followed(e: Env, states: seq<State>, links: Links, fws0: Sets, fws: Sets) {
    && Built(e, states)
    && (forall c :: c in links <==> IsCfg(states, c)) && (forall c :: c in fws0 <==> IsCfg(states, c))
    && fws.Keys == fws0.Keys
    && (forall c, d :: c in links ==> (d in links[c] <==> ForwardLink(states, c, d) || BackwardLink(states, c, d)))
    && (forall c :: c in fws0 ==> OwnFws(states, c, fws0[c]))
    && (forall d, a :: d in fws ==> (a in fws[d] <==> Arrives(links, fws0, d, a)))
  }

  /** The machine with the final lookaheads. */
  function MachineOf(states: seq<State>, fws: Sets): Machine {
    Machine(KernelOf(states), ItemsOf(states),
            seq(|states|, s requires 0 <= s < |states| =>
              map it | it in ItemSet(states[s].items) && Cfg(s, it) in fws :: fws[Cfg(s, it)]))
  }

  lemma LaAt(e: Env, states: seq<State>, links: Links, fws0: Sets, fws: Sets, s: nat, it: Item)
    requires Followed(e, states, links, fws0, fws) && s < |states|
    ensures MachineOf(states, fws).la[s].Keys == ItemSet(states[s].items)
    ensures it in states[s].items ==> Cfg(s, it) in fws && MachineOf(states, fws).la[s][it] == fws[Cfg(s, it)]
  {
    forall i | i in ItemSet(states[s].items) ensures Cfg(s, i) in fws {
      assert IsCfg(states, Cfg(s, i));
    }
  }

  lemma LinkCarries(e: Env, states: seq<State>, links: Links, fws0: Sets, fws: Sets, c: Cfg, d: Cfg)
    requires Followed(e, states, links, fws0, fws) && IsCfg(states, c) && IsCfg(states, d)
    requires (c.state == d.state && PassesOn(e, c.item, d.item)) || ShiftsTo(e, states, c, d)
    ensures c in fws && d in fws && fws[c] <= fws[d]
  {
    hide Built, PassesOn, IsCfg, ShiftsTo, ForwardLink, BackwardLink;
    ForwardMeans(e, states, c, d);
    BackwardMeans(e, states, c, d);
    assert c in links && d in links[c];
    forall a | a in fws[c] ensures a in fws[d] {
      ArrivesFurther(links, fws0, c, d, a);
    }
  }

  lemma InitialStays(e: Env, states: seq<State>, links: Links, fws0: Sets, fws: Sets, c: Cfg)
    requires Followed(e, states, links, fws0, fws) && IsCfg(states, c)
    ensures c in fws && c in fws0 && fws0[c] <= fws[c]
  {
    forall a | a in fws0[c] ensures a in fws[c] {
      assert Path(links, [c]) && [c][0] == c;
    }
  }

  /** What a configuration has initially. */
  lemma InitialMeans(e: Env, states: seq<State>, links: Links, fws0: Sets, fws: Sets, s: nat, it: Item, a: nat)
    requires Followed(e, states, links, fws0, fws) && s < |states| && it in states[s].items
    ensures Cfg(s, it) in fws0
    ensures a in fws0[Cfg(s, it)] <==>
      (s == 0 && it in states[0].basis && a == 0) || exists p :: p in states[s].items && a in Given(e, p, it)
  {
    hide Given, Built, Ordered, IsClosure, LinksExact, ForwardLink, BackwardLink, Arrives, BackOk, ShiftsOk, HasParent;
    assert IsCfg(states, Cfg(s, it));
    assert OwnFws(states, Cfg(s, it), fws0[Cfg(s, it)]);
    BuiltState(e, states, s);
  }

  /** The final lookaheads are closed under the rules of propagation. */
  lemma LookaheadsClosed(e: Env, states: seq<State>, links: Links, fws0: Sets, fws: Sets)
    requires Followed(e, states, links, fws0, fws)
    ensures LaClosed(e, MachineOf(states, fws))
  {
    hide Followed, Given, PassesOn, Goto;
    var m := MachineOf(states, fws);
    assert Built(e, states) && |states| > 0 by { FollowedBuilt(e, states, links, fws0, fws); }
    forall s | 0 <= s < |m.la| ensures m.la[s].Keys == m.items[s] {
      LaAt(e, states, links, fws0, fws, s, Item(0, 0));
    }
    forall it | it in m.kernel[0] && it in m.la[0] ensures 0 in m.la[0][it] {
      ClosedAtStart(e, states, links, fws0, fws, it);
    }
    forall s, p, it {:trigger m.la[s], Given(e, p, it)} | 0 <= s < |m.la| && p in m.la[s] && it in m.la[s]
      ensures Given(e, p, it) <= m.la[s][it] {
      ClosedUnderGiven(e, states, links, fws0, fws, s, p, it);
    }
    forall s, p, it {:trigger m.la[s], PassesOn(e, p, it)} |
      0 <= s < |m.la| && p in m.la[s] && it in m.la[s] && PassesOn(e, p, it)
      ensures m.la[s][p] <= m.la[s][it] {
      ClosedUnderLinks(e, states, links, fws0, fws, s, p, s, it);
    }
    forall s: nat, t: nat, p, x {:trigger Goto(e.g, m.items[s], x), m.la[t], Next(e.g, p, x)} |
      s < |m.la| && t < |m.la| && p in m.la[s] && Next(e.g, p, x)
      && m.kernel[t] == Goto(e.g, m.items[s], x) && Advance(p) in m.la[t]
      ensures m.la[s][p] <= m.la[t][Advance(p)] {
      ClosedUnderShift(e, states, links, fws0, fws, s, p, t, x);
    }
  }

  lemma FollowedBuilt(e: Env, states: seq<State>, links: Links, fws0: Sets, fws: Sets)
    requires Followed(e, states, links, fws0, fws)
    ensures Built(e, states) && |states| > 0
  {
  }

  lemma ClosedAtStart(e: Env, states: seq<State>, links: Links, fws0: Sets, fws: Sets, it: Item)
    requires Followed(e, states, links, fws0, fws) && |states| > 0 && it in ItemSet(states[0].basis)
    requires it in states[0].items
    ensures it in MachineOf(states, fws).la[0] && 0 in MachineOf(states, fws).la[0][it]
  {
    hide Followed;
    LaAt(e, states, links, fws0, fws, 0, it);
    InitialMeans(e, states, links, fws0, fws, 0, it, 0);
    InitialStays(e, states, links, fws0, fws, Cfg(0, it));
  }

  lemma ClosedUnderGiven(e: Env, states: seq<State>, links: Links, fws0: Sets, fws: Sets, s: nat, p: Item, it: Item)
    requires Followed(e, states, links, fws0, fws) && s < |states|
    requires p in MachineOf(states, fws).la[s] && it in MachineOf(states, fws).la[s]
    ensures Given(e, p, it) <= MachineOf(states, fws).la[s][it]
  {
    hide Followed, Given, MachineOf;
    InState(e, states, links, fws0, fws, s, p);
    InState(e, states, links, fws0, fws, s, it);
    forall a | a in Given(e, p, it) ensures a in MachineOf(states, fws).la[s][it] {
      InitialMeans(e, states, links, fws0, fws, s, it, a);
      InitialStays(e, states, links, fws0, fws, Cfg(s, it));
    }
  }

  lemma InState(e: Env, states: seq<State>, links: Links, fws0: Sets, fws: Sets, s: nat, it: Item)
    requires Followed(e, states, links, fws0, fws) && s < |states|
    ensures |MachineOf(states, fws).la| == |MachineOf(states, fws).items| == |MachineOf(states, fws).kernel| == |states|
    ensures MachineOf(states, fws).items[s] == ItemSet(states[s].items)
    ensures MachineOf(states, fws).kernel[s] == ItemSet(states[s].basis)
    ensures MachineOf(states, fws).la[s].Keys == MachineOf(states, fws).items[s]
    ensures it in MachineOf(states, fws).la[s] <==> it in states[s].items
    ensures it in states[s].items ==> Cfg(s, it) in fws && MachineOf(states, fws).la[s][it] == fws[Cfg(s, it)]
  {
    LaAt(e, states, links, fws0, fws, s, it);
    assert it in ItemSet(states[s].items) <==> it in states[s].items;
  }

  lemma ClosedUnderLinks(e: Env, states: seq<State>, links: Links, fws0: Sets, fws: Sets, s: nat, p: Item, t: nat,
                         it: Item)
    requires Followed(e, states, links, fws0, fws) && s < |states| && t < |states|
    requires p in MachineOf(states, fws).la[s] && it in MachineOf(states, fws).la[t]
    requires (s == t && PassesOn(e, p, it)) || ShiftsTo(e, states, Cfg(s, p), Cfg(t, it))
    ensures MachineOf(states, fws).la[s][p] <= MachineOf(states, fws).la[t][it]
  {
    hide Followed, PassesOn, MachineOf, ShiftsTo;
    InState(e, states, links, fws0, fws, s, p);
    InState(e, states, links, fws0, fws, t, it);
    LinkCarries(e, states, links, fws0, fws, Cfg(s, p), Cfg(t, it));
  }

  lemma ClosedUnderShift(e: Env, states: seq<State>, links: Links, fws0: Sets, fws: Sets, s: nat, p: Item, t: nat,
                         x: Symbol)
    requires Followed(e, states, links, fws0, fws) && s < |states| && t < |states|
    requires p in MachineOf(states, fws).la[s] && Next(e.g, p, x) && Advance(p) in MachineOf(states, fws).la[t]
    requires MachineOf(states, fws).kernel[t] == Goto(e.g, MachineOf(states, fws).items[s], x)
    ensures MachineOf(states, fws).la[s][p] <= MachineOf(states, fws).la[t][Advance(p)]
  {
    hide Followed, MachineOf;
    InState(e, states, links, fws0, fws, s, p);
    InState(e, states, links, fws0, fws, t, Advance(p));
    assert Advance(p) in Goto(e.g, ItemSet(states[s].items), x);
    assert Leads(e, states, s, x, t);
    ClosedUnderLinks(e, states, links, fws0, fws, s, p, t, Advance(p));
  }

  // ----- the lookaheads are exact ----------------------------------------------------------------------

  /** A walk leads to one state only. */
  lemma {:induction false} WalkUnique(g: Grammar, m: Machine, w: seq<Symbol>, s: nat, t: nat)
    requires IsLR0(g, m) && Walk(g, m, w, s) && Walk(g, m, w, t)
    ensures s == t
    decreases |w|
  {
    if w != [] {
      var v, x := w[..|w| - 1], w[|w| - 1];
      var p: nat :| Walk(g, m, v, p) && p < |m.items| && s < |m.kernel| && m.kernel[s] == Goto(g, m.items[p], x) != {};
      var q: nat :| Walk(g, m, v, q) && q < |m.items| && t < |m.kernel| && m.kernel[t] == Goto(g, m.items[q], x) != {};
      WalkUnique(g, m, v, p, q);
    }
  }

  lemma WalkOn(g: Grammar, m: Machine, w: seq<Symbol>, s: nat, x: Symbol, t: nat)
    requires Walk(g, m, w, s) && s < |m.items| && t < |m.kernel| && m.kernel[t] == Goto(g, m.items[s], x) != {}
    ensures Walk(g, m, w + [x], t)
  {
    assert (w + [x])[..|w|] == w;
  }

  /** Soundness of lookaheads: a derived item is in the state its prefix leads to, with all its tokens. */
  lemma {:induction false} DerivedIsThere(e: Env, m: Machine, d: Deriv) returns (s: nat)
    requires IsLR0(e.g, m) && LaClosed(e, m) && Derivation(e.g, d)
    ensures s < |m.la| && Walk(e.g, m, Where(e.g, d), s) && What(d) in m.items[s] && What(d) in m.la[s]
    ensures Ahead(e, d) <= m.la[s][What(d)]
  {
    hide Walk, LaClosed, StateOk;
    assert |m.la| == |m.items| == |m.kernel| && forall k :: 0 <= k < |m.la| ==> m.la[k].Keys == m.items[k] by {
      LaClosedShape(e, m);
    }
    match d
    case Begin(r) =>
      s := 0;
      assert Walk(e.g, m, [], 0) by { WalkNil(e.g, m); }
      assert StateOk(e.g, m, 0);
      KernelInItems(e.g, m, 0, What(d));
      LaClosedStart(e, m, What(d));
    case Over(p) =>
      var q := DerivedIsThere(e, m, p);
      var x := After(e.g, What(p));
      s := SuccessorState(e.g, m, q, What(p), x);
      WalkOn(e.g, m, Where(e.g, p), q, x, s);
      assert StateOk(e.g, m, s);
      KernelInItems(e.g, m, s, What(d));
      LaClosedShift(e, m, q, What(p), x, s);
    case Predict(p, r) =>
      s := DerivedIsThere(e, m, p);
      assert StateOk(e.g, m, s);
      PredictedInItems(e.g, m, s, What(p), What(d));
      LaClosedPredict(e, m, s, What(p), What(d));
  }

  lemma WalkNil(g: Grammar, m: Machine)
    ensures Walk(g, m, [], 0)
  {
  }

  lemma KernelInItems(g: Grammar, m: Machine, s: nat, it: Item)
    requires s < |m.kernel| == |m.items| && StateOk(g, m, s) && it in m.kernel[s]
    ensures it in m.items[s]
  {
  }

  lemma PredictedInItems(g: Grammar, m: Machine, s: nat, p: Item, it: Item)
    requires s < |m.kernel| == |m.items| && StateOk(g, m, s) && p in m.items[s] && Predicts(g, p, it)
    ensures it in m.items[s]
  {
  }

  lemma SuccessorState(g: Grammar, m: Machine, s: nat, it: Item, x: Symbol) returns (t: nat)
    requires IsLR0(g, m) && s < |m.items| && it in m.items[s] && Next(g, it, x)
    ensures t < |m.kernel| && m.kernel[t] == Goto(g, m.items[s], x) != {} && Advance(it) in m.kernel[t]
  {
    assert StateOk(g, m, s);
    var u :| 0 <= u < |m.kernel| && m.kernel[u] == Goto(g, m.items[s], x);
    t := u;
    assert Advance(it) in Goto(g, m.items[s], x);
  }

  lemma LaClosedShape(e: Env, m: Machine)
    requires LaClosed(e, m)
    ensures |m.la| == |m.items| == |m.kernel| && forall k :: 0 <= k < |m.la| ==> m.la[k].Keys == m.items[k]
  {
  }

  lemma LaClosedStart(e: Env, m: Machine, it: Item)
    requires LaClosed(e, m) && |m.la| > 0 && it in m.kernel[0] && it in m.la[0]
    ensures 0 in m.la[0][it]
  {
  }

  lemma LaClosedShift(e: Env, m: Machine, s: nat, p: Item, x: Symbol, t: nat)
    requires LaClosed(e, m) && s < |m.la| && t < |m.la| && p in m.la[s] && Next(e.g, p, x)
    requires m.kernel[t] == Goto(e.g, m.items[s], x) && Advance(p) in m.la[t]
    ensures m.la[s][p] <= m.la[t][Advance(p)]
  {
  }

  lemma LaClosedPredict(e: Env, m: Machine, s: nat, p: Item, it: Item)
    requires LaClosed(e, m) && s < |m.la| && p in m.la[s] && it in m.la[s] && Predicts(e.g, p, it)
    ensures SuffixFirst(e.lambda, e.first, Behind(e.g, p)) <= m.la[s][it]
    ensures AllLambda(e.lambda, Behind(e.g, p)) ==> m.la[s][p] <= m.la[s][it]
  {
    assert Given(e, p, it) == SuffixFirst(e.lambda, e.first, Behind(e.g, p));
    if AllLambda(e.lambda, Behind(e.g, p)) { assert PassesOn(e, p, it); }
  }

  // ----- every lookahead comes from a derivation ---------------------------------------------------------

  ghost predicate Derivable(g: Grammar, m: Machine, s: nat, it: Item) {
    exists d :: DerivedAt(g, m, s, it, d)
  }

  lemma DerivableOver(e: Env, m: Machine, p: nat, q: Item, x: Symbol, s: nat)
    requires Derivable(e.g, m, p, q) && p < |m.items| && s < |m.kernel| && Next(e.g, q, x)
    requires m.kernel[s] == Goto(e.g, m.items[p], x) != {}
    ensures Derivable(e.g, m, s, Advance(q))
  {
    hide Walk, Goto;
    var d :| DerivedAt(e.g, m, p, q, d);
    WalkOn(e.g, m, Where(e.g, d), p, x, s);
    assert DerivedAt(e.g, m, s, Advance(q), Over(d));
  }

  lemma DerivablePredict(e: Env, m: Machine, s: nat, p: Item, it: Item)
    requires Derivable(e.g, m, s, p) && Predicts(e.g, p, it)
    ensures Derivable(e.g, m, s, it)
  {
    var d :| DerivedAt(e.g, m, s, p, d);
    assert DerivedAt(e.g, m, s, it, Predict(d, it.rule));
  }

  /** Every item of every state has a derivation that leads there. */
  lemma {:induction false} AllDerivable(e: Env, states: seq<State>, m: Machine, s: nat)
    requires Built(e, states) && m.kernel == KernelOf(states) && m.items == ItemsOf(states) && s < |states|
    ensures forall it :: it in m.items[s] ==> Derivable(e.g, m, s, it)
    decreases s
  {
    hide Derivable, Finished, BackOk, ShiftsOk, Ordered, FwsExact, LinksExact;
    BuiltState(e, states, s);
    forall it | it in m.kernel[s] ensures Derivable(e.g, m, s, it) {
      if s == 0 {
        StartDerivable(e, m, it);
      } else {
        KernelDerivable(e, states, m, s, it);
      }
    }
    var derived := set it | it in m.items[s] && Derivable(e.g, m, s, it);
    assert Closed(e.g, derived) by {
      forall p, it | p in derived && Predicts(e.g, p, it) ensures it in derived {
        DerivablePredict(e, m, s, p, it);
      }
    }
    assert m.items[s] <= derived;
  }

  lemma StartDerivable(e: Env, m: Machine, it: Item)
    requires it in StartItems(e.g)
    ensures Derivable(e.g, m, 0, it)
  {
    WalkNil(e.g, m);
    assert DerivedAt(e.g, m, 0, it, Begin(it.rule));
  }

  lemma {:induction false} KernelDerivable(e: Env, states: seq<State>, m: Machine, s: nat, it: Item)
    requires Built(e, states) && m.kernel == KernelOf(states) && m.items == ItemsOf(states) && 0 < s < |states|
    requires it in m.kernel[s]
    ensures Derivable(e.g, m, s, it)
    decreases s, 0
  {
    hide Derivable, Finished;
    BuiltState(e, states, s);
    var p: nat, x :| p < s && Leads(e, states, p, x, s);
    AllDerivable(e, states, m, p);
    assert it in Goto(e.g, m.items[p], x);
    var q :| q in m.items[p] && Next(e.g, q, x) && Advance(q) == it;
    DerivableOver(e, m, p, q, x, s);
  }

  lemma ForeseenInitially(e: Env, states: seq<State>, links: Links, fws0: Sets, fws: Sets, c: Cfg, a: nat)
    requires Followed(e, states, links, fws0, fws) && IsCfg(states, c) && c in fws0 && a in fws0[c]
    ensures Foreseen(e, MachineOf(states, fws), c, a)
  {
    hide Followed, Derivable, Built, Given;
    var m := MachineOf(states, fws);
    FollowedBuilt(e, states, links, fws0, fws);
    InitialMeans(e, states, links, fws0, fws, c.state, c.item, a);
    if p :| p in states[c.state].items && a in Given(e, p, c.item) {
      AllDerivable(e, states, m, c.state);
      assert p in m.items[c.state];
      ForeseenGiven(e, m, c.state, p, c.item, a);
    } else {
      FirstBasis(e, states, c.item);
      WalkNil(e.g, m);
      assert DerivedAt(e.g, m, 0, c.item, Begin(c.item.rule));
    }
  }

  lemma FirstBasis(e: Env, states: seq<State>, it: Item)
    requires Built(e, states) && it in states[0].basis
    ensures it in StartItems(e.g)
  {
    BuiltState(e, states, 0);
    assert it in ItemSet(states[0].basis);
  }

  lemma ForeseenGiven(e: Env, m: Machine, s: nat, p: Item, it: Item, a: nat)
    requires Derivable(e.g, m, s, p) && a in Given(e, p, it)
    ensures Foreseen(e, m, Cfg(s, it), a)
  {
    var d :| DerivedAt(e.g, m, s, p, d);
    assert DerivedAt(e.g, m, s, it, Predict(d, it.rule));
    assert a in Ahead(e, Predict(d, it.rule));
  }

  lemma ForeseenShift(e: Env, m: Machine, c: Cfg, x: Symbol, t: nat, a: nat)
    requires Foreseen(e, m, c, a) && Next(e.g, c.item, x) && c.state < |m.items| && t < |m.kernel|
    requires m.kernel[t] == Goto(e.g, m.items[c.state], x) != {}
    ensures Foreseen(e, m, Cfg(t, Advance(c.item)), a)
  {
    hide Walk, Goto;
    var k :| DerivedAt(e.g, m, c.state, c.item, k) && a in Ahead(e, k);
    WalkOn(e.g, m, Where(e.g, k), c.state, x, t);
    assert DerivedAt(e.g, m, t, Advance(c.item), Over(k));
    assert a in Ahead(e, Over(k));
  }

  lemma ForeseenPredict(e: Env, m: Machine, c: Cfg, it: Item, a: nat)
    requires Foreseen(e, m, c, a) && PassesOn(e, c.item, it)
    ensures Foreseen(e, m, Cfg(c.state, it), a)
  {
    var k :| DerivedAt(e.g, m, c.state, c.item, k) && a in Ahead(e, k);
    assert DerivedAt(e.g, m, c.state, it, Predict(k, it.rule));
    assert a in Ahead(e, Predict(k, it.rule));
  }

  lemma ForeseenLink(e: Env, states: seq<State>, m: Machine, c: Cfg, d: Cfg, a: nat)
    requires Built(e, states) && m.kernel == KernelOf(states) && m.items == ItemsOf(states)
    requires Foreseen(e, m, c, a) && (ForwardLink(states, c, d) || BackwardLink(states, c, d))
    ensures Foreseen(e, m, d, a)
  {
    hide Built, Foreseen, ForwardLink, BackwardLink, PassesOn;
    ForwardMeans(e, states, c, d);
    BackwardMeans(e, states, c, d);
    if ShiftsTo(e, states, c, d) {
      var x :| Next(e.g, c.item, x) && Leads(e, states, c.state, x, d.state);
      ForeseenShift(e, m, c, x, d.state, a);
      assert d == Cfg(d.state, Advance(c.item));
    } else {
      ForeseenPredict(e, m, c, d.item, a);
      assert d == Cfg(c.state, d.item);
    }
  }

  lemma {:induction false} ForeseenPath(e: Env, states: seq<State>, links: Links, fws0: Sets, fws: Sets, p: seq<Cfg>,
                                        a: nat)
    requires Followed(e, states, links, fws0, fws) && Path(links, p) && p[0] in fws0 && a in fws0[p[0]]
    ensures Foreseen(e, MachineOf(states, fws), p[|p| - 1], a)
    decreases |p|
  {
    hide Foreseen, Built, ForwardLink, BackwardLink, IsCfg, OwnFws;
    FollowedBuilt(e, states, links, fws0, fws);
    if |p| == 1 {
      ForeseenInitially(e, states, links, fws0, fws, p[0], a);
    } else {
      var q := p[..|p| - 1];
      ForeseenPath(e, states, links, fws0, fws, q, a);
      assert q[|q| - 1] in links && p[|q| - 1 + 1] in links[p[|q| - 1]];
      ForeseenLink(e, states, MachineOf(states, fws), q[|q| - 1], p[|p| - 1], a);
    }
  }

  /**
    The follow sets are exact: a token is in the set of an item of a state if and only
    if some derivation of the item over a prefix that leads to the state has the token
    ahead, as the flags and first sets foresee it.
  */
  lemma LookaheadsExact(e: Env, states: seq<State>, links: Links, fws0: Sets, fws: Sets)
    requires Followed(e, states, links, fws0, fws)
    ensures LaExact(e, MachineOf(states, fws))
  {
    hide Followed, MachineOf, Walk;
    var m := MachineOf(states, fws);
    FollowedBuilt(e, states, links, fws0, fws);
    InState(e, states, links, fws0, fws, 0, Item(0, 0));
    forall s | 0 <= s < |m.la| ensures m.la[s].Keys == m.items[s] {
      InState(e, states, links, fws0, fws, s, Item(0, 0));
    }
    forall s: nat, it, a | s < |m.la| && it in m.la[s]
      ensures a in m.la[s][it] <==> Foreseen(e, m, Cfg(s, it), a) {
      InState(e, states, links, fws0, fws, s, it);
      if a in m.la[s][it] { LookaheadDerived(e, states, links, fws0, fws, s, it, a); }
      if Foreseen(e, m, Cfg(s, it), a) {
        var d :| DerivedAt(e.g, m, s, it, d) && a in Ahead(e, d);
        DerivedLookahead(e, states, links, fws0, fws, s, it, d);
      }
    }
  }

  lemma LookaheadDerived(e: Env, states: seq<State>, links: Links, fws0: Sets, fws: Sets, s: nat, it: Item, a: nat)
    requires Followed(e, states, links, fws0, fws) && Cfg(s, it) in fws && a in fws[Cfg(s, it)]
    ensures Foreseen(e, MachineOf(states, fws), Cfg(s, it), a)
  {
    hide Foreseen;
    assert Arrives(links, fws0, Cfg(s, it), a);
    var p :| Path(links, p) && p[|p| - 1] == Cfg(s, it) && p[0] in fws0 && a in fws0[p[0]];
    ForeseenPath(e, states, links, fws0, fws, p, a);
  }

  lemma DerivedLookahead(e: Env, states: seq<State>, links: Links, fws0: Sets, fws: Sets, s: nat, it: Item, d: Deriv)
    requires Followed(e, states, links, fws0, fws) && DerivedAt(e.g, MachineOf(states, fws), s, it, d)
    ensures s < |MachineOf(states, fws).la| && it in MachineOf(states, fws).la[s]
    ensures Ahead(e, d) <= MachineOf(states, fws).la[s][it]
  {
    hide Followed, LaClosed, Walk, MachineOf, IsLR0;
    var m := MachineOf(states, fws);
    FollowedBuilt(e, states, links, fws0, fws);
    assert IsLR0(e.g, m) by {
      MachineShape(states, fws);
      BuiltIsLR0(e, states, m);
    }
    LookaheadsClosed(e, states, links, fws0, fws);
    var t := DerivedIsThere(e, m, d);
    WalkUnique(e.g, m, Where(e.g, d), s, t);
  }

  lemma MachineShape(states: seq<State>, fws: Sets)
    ensures MachineOf(states, fws).kernel == KernelOf(states) && MachineOf(states, fws).items == ItemsOf(states)
  {
  }
}
