/**
  The configuration list under construction, and its closure.

  A list holds the items of one state; beside each item it keeps the follow set
  found so far, the propagation links to other items of the state, and the
  back links to the configurations of other states it was shifted from.
*/
module Configlist {
  import opened Grammars
  import opened Automata
  import opened FirstSets
  import opened FollowSets
  import opened Lists

  datatype Configs = Configs(current: seq<Item>, fws: map<Item, set<nat>>, fplp: map<Item, seq<Item>>,
                             bplp: map<Item, seq<Cfg>>)

  const NONE_YET := Configs([], map[], map[], map[])

  function ItemSet(xs: seq<Item>): set<Item> {
    set it | it in xs
  }

  /** The list and its tables agree. */
  ghost predicate ListOk(cl: Configs) {
    && Distinct(cl.current)
    && cl.fws.Keys == cl.fplp.Keys == cl.bplp.Keys == ItemSet(cl.current)
  }

  /** The right-hand side behind the symbol after the dot. */
  function Behind(g: Grammar, p: Item): seq<Symbol>
    requires p.rule < |g.rules| && p.dot < |g.rules[p.rule].rhs|
  {
    g.rules[p.rule].rhs[p.dot + 1..]
  }

  /** Configlist_add and Configlist_addbasis: append the item unless it is there. */
  function Add(cl: Configs, it: Item): (r: Configs)
  {
    if it in cl.fws then cl
    else Configs(cl.current + [it], cl.fws[it := {}], cl.fplp[it := []], cl.bplp[it := []])
  }

  lemma AddOk(cl: Configs, it: Item)
    requires ListOk(cl)
    ensures ListOk(Add(cl, it)) && ItemSet(Add(cl, it).current) == ItemSet(cl.current) + {it}
    ensures cl.current <= Add(cl, it).current
  {
  }

  // ----- what a prediction contributes -----------------------------------------------------

  /** Tables of one computation: the lambda flags and first sets. */
  datatype Env = Env(g: Grammar, lambda: seq<bool>, first: seq<set<nat>>)

  /** Tokens that p contributes to the follow set of `it` without propagation. */
  function Given(e: Env, p: Item, it: Item): set<nat> {
    if Predicts(e.g, p, it) then SuffixFirst(e.lambda, e.first, Behind(e.g, p)) else {}
  }

  /** p hands its own follow set on to `it`. */
  predicate PassesOn(e: Env, p: Item, it: Item) {
    Predicts(e.g, p, it) && AllLambda(e.lambda, Behind(e.g, p))
  }

  /** The contributions of a list of items. */
  function GivenBy(e: Env, ps: seq<Item>, it: Item): set<nat> {
    if ps == [] then {} else GivenBy(e, ps[..|ps| - 1], it) + Given(e, ps[|ps| - 1], it)
  }

  lemma {:induction false} InGivenBy(e: Env, ps: seq<Item>, it: Item, a: nat)
    ensures a in GivenBy(e, ps, it) <==> exists p :: p in ps && a in Given(e, p, it)
  {
    if ps != [] {
      var front, last := ps[..|ps| - 1], ps[|ps| - 1];
      InGivenBy(e, front, it, a);
      assert last in ps;
      if a in GivenBy(e, front, it) {
        var p :| p in front && a in Given(e, p, it);
        assert p in ps;
      }
      if exists p :: p in ps && a in Given(e, p, it) {
        var p :| p in ps && a in Given(e, p, it);
        assert p in front || p == last;
      }
    }
  }

  // ----- the loops -----------------------------------------------------------------------------

  /** Collect the first tokens of xs into a follow set; `atEnd` when the scan passes all of xs. */
  method ScanSuffix(e: Env, fws0: set<nat>, xs: seq<Symbol>) returns (fws: set<nat>, atEnd: bool)
    requires |e.lambda| == |e.first|
    requires forall i :: 0 <= i < |xs| ==> xs[i].Nonterminal? ==> xs[i].id < |e.lambda|
    ensures fws == fws0 + SuffixFirst(e.lambda, e.first, xs)
    ensures atEnd <==> AllLambda(e.lambda, xs)
  {
    fws := fws0;
    assert xs[0..] == xs;
    var i := 0;
    while i < |xs|
      invariant i <= |xs| && AllLambda(e.lambda, xs[..i])
      invariant fws + SuffixFirst(e.lambda, e.first, xs[i..]) == fws0 + SuffixFirst(e.lambda, e.first, xs)
      decreases |xs| - i
    {
      var x := xs[i];
      assert xs[i..][1..] == xs[i + 1..];
      match x {
        case Nonterminal(b) =>
          fws := fws + e.first[b];
          if !e.lambda[b] { return fws, false; }
        case _ =>
          fws := fws + Tokens(x);
          return fws, false;
      }
      i := i + 1;
    }
    assert xs[..i] == xs;
    return fws, true;
  }

  /** One prediction: add the item, extend its follow set, link it when the suffix is lambda. */
  function Predicted(e: Env, cl: Configs, p: Item, it: Item): Configs
    requires p in cl.fplp
  {
    var c := Add(cl, it);
    if it in c.fws && p in c.fplp then
      c.(fws := c.fws[it := c.fws[it] + Given(e, p, it)],
         fplp := if PassesOn(e, p, it) then c.fplp[p := c.fplp[p] + [it]] else c.fplp)
    else c
  }

  // ----- the closure, step by step -----------------------------------------------------------

  /** The closure so far: the first n items are processed, and item p up to the rules from r on. */
  ghost predicate Covers(e: Env, cl: Configs, n: nat, p: Item, r: nat)
    requires n <= |cl.current|
  {
    && (forall k, it :: 0 <= k < n && Predicts(e.g, cl.current[k], it) ==> it in ItemSet(cl.current))
    && (forall it :: Predicts(e.g, p, it) && it.rule >= r ==> it in ItemSet(cl.current))
  }

  ghost predicate Minimal(e: Env, basis: set<Item>, cl: Configs) {
    forall c: set<Item> :: basis <= c && Closed(e.g, c) ==> ItemSet(cl.current) <= c
  }

  function Initial(cl0: Configs, it: Item): set<nat> {
    if it in cl0.fws then cl0.fws[it] else {}
  }

  ghost predicate FwsSoFar(e: Env, cl0: Configs, cl: Configs, done: seq<Item>, p: Item, r: nat) {
    forall it :: it in cl.fws ==>
      cl.fws[it] == Initial(cl0, it) + GivenBy(e, done, it) + if it.rule >= r then Given(e, p, it) else {}
  }

  ghost predicate LinksSoFar(e: Env, cl: Configs, done: seq<Item>, p: Item, r: nat) {
    forall x, q :: x in cl.fplp ==>
      (q in cl.fplp[x] <==> PassesOn(e, x, q) && (x in done || (x == p && q.rule >= r)))
  }

  ghost predicate BackAsBefore(cl0: Configs, cl: Configs) {
    forall it :: it in cl.bplp ==> cl.bplp[it] == if it in cl0.bplp then cl0.bplp[it] else []
  }

  ghost predicate EnvOk(e: Env) {
    && e.g.WellFormed() && LambdaFor(e.g, e.lambda) && LeastSolution(e.g, e.lambda, e.first) && TokenSets(e.g, e.first)
  }

  /** The loop state: n items processed, item p = current[n] predicted for the rules from r on. */
  ghost predicate ClosureState(e: Env, cl0: Configs, cl: Configs, n: nat, p: Item, r: nat) {
    && ListOk(cl0) && ListOk(cl) && cl0.current <= cl.current && n < |cl.current| && p == cl.current[n]
    && ValidItems(e.g, ItemSet(cl.current))
    && Covers(e, cl, n, p, r) && Minimal(e, ItemSet(cl0.current), cl)
    && FwsSoFar(e, cl0, cl, cl.current[..n], p, r) && LinksSoFar(e, cl, cl.current[..n], p, r)
    && BackAsBefore(cl0, cl)
  }

  lemma PredictedList(e: Env, cl: Configs, p: Item, it: Item)
    requires ListOk(cl) && p in cl.fplp
    ensures var c := Predicted(e, cl, p, it);
            ListOk(c) && cl.current <= c.current && ItemSet(c.current) == ItemSet(cl.current) + {it}
  {
    AddOk(cl, it);
    var c := Add(cl, it);
    assert p in c.fplp;
    assert Predicted(e, cl, p, it).current == c.current;
  }

  /** What a prediction leaves in the tables. */
  ghost predicate PredictedTables(e: Env, cl: Configs, c: Configs, p: Item, it: Item) {
    && c.fws.Keys == cl.fws.Keys + {it} && c.fplp.Keys == cl.fplp.Keys + {it} && c.bplp.Keys == cl.bplp.Keys + {it}
    && (forall x :: x in c.bplp ==> c.bplp[x] == if x in cl.bplp then cl.bplp[x] else [])
    && (forall x :: x in c.fws ==>
          c.fws[x] == (if x in cl.fws then cl.fws[x] else {}) + if x == it then Given(e, p, it) else {})
    && (forall x :: x in c.fplp ==>
          c.fplp[x] ==
            (if x in cl.fplp then cl.fplp[x] else []) + if x == p && PassesOn(e, p, it) then [it] else [])
  }

  lemma AddTables(cl: Configs, it: Item)
    requires cl.fws.Keys == cl.fplp.Keys == cl.bplp.Keys
    ensures var a := Add(cl, it);
            && a.fws.Keys == cl.fws.Keys + {it} && a.fplp.Keys == cl.fplp.Keys + {it}
            && a.bplp.Keys == cl.bplp.Keys + {it}
            && (forall x :: x in a.fws ==> a.fws[x] == if x in cl.fws then cl.fws[x] else {})
            && (forall x :: x in a.fplp ==> a.fplp[x] == if x in cl.fplp then cl.fplp[x] else [])
            && (forall x :: x in a.bplp ==> a.bplp[x] == if x in cl.bplp then cl.bplp[x] else [])
  {
  }

  lemma PredictedTablesOk(e: Env, cl: Configs, p: Item, it: Item)
    requires cl.fws.Keys == cl.fplp.Keys == cl.bplp.Keys && p in cl.fplp
    ensures PredictedTables(e, cl, Predicted(e, cl, p, it), p, it)
  {
    hide Given, PassesOn, Add;
    var a := Add(cl, it);
    AddTables(cl, it);
  }

  lemma PredictedCovers(e: Env, cl: Configs, c: Configs, n: nat, p: Item, r: nat)
    requires n <= |cl.current| && cl.current <= c.current && Covers(e, cl, n, p, r + 1)
    requires ItemSet(c.current) == ItemSet(cl.current) + {Item(r, 0)}
    ensures Covers(e, c, n, p, r)
  {
  }

  lemma PredictedMinimal(e: Env, basis: set<Item>, cl: Configs, c: Configs, p: Item, it: Item)
    requires Minimal(e, basis, cl) && p in ItemSet(cl.current) && Predicts(e.g, p, it)
    requires ItemSet(c.current) == ItemSet(cl.current) + {it}
    ensures Minimal(e, basis, c)
  {
  }

  /** Nothing that is not in the list yet has received a contribution. */
  lemma {:induction false} NotGiven(e: Env, done: seq<Item>, it: Item)
    requires forall k :: 0 <= k < |done| ==> !Predicts(e.g, done[k], it)
    ensures GivenBy(e, done, it) == {}
  {
    if done != [] { NotGiven(e, done[..|done| - 1], it); }
  }

  lemma PredictedFws(e: Env, cl0: Configs, cl: Configs, c: Configs, n: nat, p: Item, r: nat)
    requires ListOk(cl) && n < |cl.current| && cl0.fws.Keys <= cl.fws.Keys && Covers(e, cl, n, p, r + 1)
    requires FwsSoFar(e, cl0, cl, cl.current[..n], p, r + 1) && PredictedTables(e, cl, c, p, Item(r, 0))
    ensures FwsSoFar(e, cl0, c, cl.current[..n], p, r)
  {
    hide Given, GivenBy;
    var done := cl.current[..n];
    forall x | x in c.fws
      ensures c.fws[x] == Initial(cl0, x) + GivenBy(e, done, x) + if x.rule >= r then Given(e, p, x) else {} {
      PredictedFwsAt(e, cl0, cl, c, n, p, r, x);
    }
  }

  lemma PredictedFwsAt(e: Env, cl0: Configs, cl: Configs, c: Configs, n: nat, p: Item, r: nat, x: Item)
    requires ListOk(cl) && n < |cl.current| && cl0.fws.Keys <= cl.fws.Keys && Covers(e, cl, n, p, r + 1)
    requires x in cl.fws ==>
      cl.fws[x] == Initial(cl0, x) + GivenBy(e, cl.current[..n], x) + if x.rule >= r + 1 then Given(e, p, x) else {}
    requires x in c.fws && PredictedTables(e, cl, c, p, Item(r, 0))
    ensures c.fws[x] == Initial(cl0, x) + GivenBy(e, cl.current[..n], x) + if x.rule >= r then Given(e, p, x) else {}
  {
    hide PredictedTables, GivenBy;
    assert x in cl.fws || x == Item(r, 0) by {
      assert PredictedTables(e, cl, c, p, Item(r, 0));
      PredictedKeys(e, cl, c, p, Item(r, 0), x);
    }
    assert c.fws[x] == (if x in cl.fws then cl.fws[x] else {}) + if x == Item(r, 0) then Given(e, p, x) else {} by {
      PredictedKeys(e, cl, c, p, Item(r, 0), x);
    }
    if x !in cl.fws {
      NotGiven(e, cl.current[..n], x);
    }
  }

  lemma PredictedKeys(e: Env, cl: Configs, c: Configs, p: Item, it: Item, x: Item)
    requires PredictedTables(e, cl, c, p, it) && x in c.fws
    ensures x in cl.fws || x == it
    ensures c.fws[x] == (if x in cl.fws then cl.fws[x] else {}) + if x == it then Given(e, p, x) else {}
  {
  }

  lemma PredictedFplp(e: Env, cl: Configs, c: Configs, p: Item, it: Item, x: Item)
    requires PredictedTables(e, cl, c, p, it) && x in c.fplp
    ensures x in cl.fplp || x == it
    ensures c.fplp[x] == (if x in cl.fplp then cl.fplp[x] else []) + if x == p && PassesOn(e, p, it) then [it] else []
  {
  }

  lemma PredictedLinks(e: Env, cl: Configs, c: Configs, n: nat, p: Item, r: nat)
    requires ListOk(cl) && n < |cl.current| && p == cl.current[n]
    requires LinksSoFar(e, cl, cl.current[..n], p, r + 1) && PredictedTables(e, cl, c, p, Item(r, 0))
    ensures LinksSoFar(e, c, cl.current[..n], p, r)
  {
    hide PredictedTables;
    var done, it := cl.current[..n], Item(r, 0);
    assert p in cl.fplp;
    forall x, q | x in c.fplp
      ensures q in c.fplp[x] <==> PassesOn(e, x, q) && (x in done || (x == p && q.rule >= r)) {
      PredictedFplp(e, cl, c, p, it, x);
      if x !in cl.fplp {
        assert x !in done && x != p;
      } else {
        assert q in c.fplp[x] <==> q in cl.fplp[x] || (x == p && PassesOn(e, p, it) && q == it);
      }
    }
  }

  /** One prediction keeps the loop state. */
  lemma PredictionKeeps(e: Env, cl0: Configs, cl: Configs, n: nat, p: Item, r: nat)
    requires ClosureState(e, cl0, cl, n, p, r + 1)
    requires r < |e.g.rules| && Next(e.g, p, Nonterminal(e.g.rules[r].lhs))
    ensures p in cl.fplp && cl.fws.Keys == cl.fplp.Keys == cl.bplp.Keys
    ensures ClosureState(e, cl0, Predicted(e, cl, p, Item(r, 0)), n, p, r)
  {
    hide ListOk, Covers, Minimal, FwsSoFar, LinksSoFar, BackAsBefore, PredictedTables, Predicted;
    var it := Item(r, 0);
    ListFacts(cl, n);
    KeysGrow(cl0, cl);
    var c := Predicted(e, cl, p, it);
    PredictedList(e, cl, p, it);
    PredictedTablesOk(e, cl, p, it);
    PredictedCovers(e, cl, c, n, p, r);
    PredictedMinimal(e, ItemSet(cl0.current), cl, c, p, it);
    PredictedFws(e, cl0, cl, c, n, p, r);
    PredictedLinks(e, cl, c, n, p, r);
    PredictedBack(e, cl0, cl, c, p, it);
    assert c.current[..n] == cl.current[..n] && c.current[n] == p;
  }

  lemma KeysGrow(cl0: Configs, cl: Configs)
    requires ListOk(cl0) && ListOk(cl) && cl0.current <= cl.current
    ensures cl0.fws.Keys <= cl.fws.Keys && cl0.bplp.Keys <= cl.bplp.Keys
  {
    assert forall it :: it in cl0.current ==> it in cl.current;
  }

  lemma ListFacts(cl: Configs, n: nat)
    requires ListOk(cl) && n < |cl.current|
    ensures cl.current[n] in cl.fplp && cl.current[n] in ItemSet(cl.current)
    ensures cl.fws.Keys == cl.fplp.Keys == cl.bplp.Keys
  {
  }

  lemma PredictedBack(e: Env, cl0: Configs, cl: Configs, c: Configs, p: Item, it: Item)
    requires PredictedTables(e, cl, c, p, it) && BackAsBefore(cl0, cl)
    requires cl0.bplp.Keys <= cl.bplp.Keys
    ensures BackAsBefore(cl0, c)
  {
  }

  /** A rule of another nonterminal is not predicted. */
  lemma OtherRuleKeeps(e: Env, cl0: Configs, cl: Configs, n: nat, p: Item, r: nat)
    requires ClosureState(e, cl0, cl, n, p, r + 1)
    requires r < |e.g.rules| && !Next(e.g, p, Nonterminal(e.g.rules[r].lhs))
    ensures ClosureState(e, cl0, cl, n, p, r)
  {
    hide ListOk, Minimal, BackAsBefore, GivenBy, SuffixFirst, AllLambda, ValidItems;
    assert forall it: Item :: it.rule == r ==> !Predicts(e.g, p, it);
  }

  // ----- the closure loop --------------------------------------------------------------------

  ghost predicate FwsDone(e: Env, cl0: Configs, cl: Configs, done: seq<Item>) {
    forall it :: it in cl.fws ==> cl.fws[it] == Initial(cl0, it) + GivenBy(e, done, it)
  }

  ghost predicate LinksDone(e: Env, cl: Configs, done: seq<Item>) {
    forall x, q :: x in cl.fplp ==> (q in cl.fplp[x] <==> PassesOn(e, x, q) && x in done)
  }

  ghost predicate CoversDone(e: Env, cl: Configs, n: nat)
    requires n <= |cl.current|
  {
    forall k, it :: 0 <= k < n && Predicts(e.g, cl.current[k], it) ==> it in ItemSet(cl.current)
  }

  /** The closure with the first n items processed. */
  ghost predicate ClosureDone(e: Env, cl0: Configs, cl: Configs, n: nat) {
    && ListOk(cl0) && ListOk(cl) && cl0.current <= cl.current && n <= |cl.current|
    && ValidItems(e.g, ItemSet(cl.current))
    && CoversDone(e, cl, n) && Minimal(e, ItemSet(cl0.current), cl)
    && FwsDone(e, cl0, cl, cl.current[..n]) && LinksDone(e, cl, cl.current[..n])
    && BackAsBefore(cl0, cl)
  }

  lemma EnterItem(e: Env, cl0: Configs, cl: Configs, n: nat)
    requires ClosureDone(e, cl0, cl, n) && n < |cl.current|
    ensures ClosureState(e, cl0, cl, n, cl.current[n], |e.g.rules|)
  {
    hide Minimal, BackAsBefore, GivenBy, SuffixFirst, AllLambda;
  }

  lemma LeaveItem(e: Env, cl0: Configs, cl: Configs, n: nat, p: Item)
    requires ClosureState(e, cl0, cl, n, p, 0)
    ensures ClosureDone(e, cl0, cl, n + 1)
  {
    hide Minimal, BackAsBefore, SuffixFirst, AllLambda, GivenBy, ListOk;
    hide ValidItems, FwsSoFar, LinksSoFar, FwsDone, LinksDone;
    assert cl.current[..n + 1] == cl.current[..n] + [p];
    LeaveFws(e, cl0, cl, cl.current[..n], p);
    LeaveLinks(e, cl, cl.current[..n], p);
  }

  lemma LeaveFws(e: Env, cl0: Configs, cl: Configs, done: seq<Item>, p: Item)
    requires FwsSoFar(e, cl0, cl, done, p, 0)
    ensures FwsDone(e, cl0, cl, done + [p])
  {
    assert (done + [p])[..|done|] == done;
  }

  lemma LeaveLinks(e: Env, cl: Configs, done: seq<Item>, p: Item)
    requires LinksSoFar(e, cl, done, p, 0)
    ensures LinksDone(e, cl, done + [p])
  {
    hide PassesOn;
    forall x, q | x in cl.fplp ensures q in cl.fplp[x] <==> PassesOn(e, x, q) && x in done + [p] {
      InSnoc(done, p, x);
    }
  }

  lemma InSnoc(done: seq<Item>, p: Item, x: Item)
    ensures x in done + [p] <==> x in done || x == p
  {
  }

  /** An item without a nonterminal after the dot predicts nothing. */
  lemma PassItem(e: Env, cl0: Configs, cl: Configs, n: nat, p: Item)
    requires ClosureState(e, cl0, cl, n, p, |e.g.rules|)
    requires forall r :: 0 <= r < |e.g.rules| ==> !Next(e.g, p, Nonterminal(e.g.rules[r].lhs))
    ensures ClosureState(e, cl0, cl, n, p, 0)
  {
    hide ListOk, Minimal, BackAsBefore, GivenBy, SuffixFirst, AllLambda, ValidItems;
    assert forall it: Item :: !Predicts(e.g, p, it);
  }

  function AllItems(g: Grammar): set<Item> {
    set r, d | 0 <= r < |g.rules| && 0 <= d <= |g.rules[r].rhs| :: Item(r, d)
  }

  lemma {:induction false} DistinctBound(xs: seq<Item>, all: set<Item>)
    requires Distinct(xs) && ItemSet(xs) <= all
    ensures |xs| <= |all|
  {
    if xs != [] {
      var front, last := xs[..|xs| - 1], xs[|xs| - 1];
      assert last in ItemSet(xs) && last !in front;
      forall it | it in front ensures it in all - {last} { assert it in ItemSet(xs); }
      DistinctBound(front, all - {last});
    }
  }

  lemma SizeBound(e: Env, cl: Configs)
    requires ListOk(cl) && ValidItems(e.g, ItemSet(cl.current))
    ensures |cl.current| <= |AllItems(e.g)|
  {
    assert ItemSet(cl.current) <= AllItems(e.g);
    DistinctBound(cl.current, AllItems(e.g));
  }

  /** Predict every rule of the nonterminal b after the dot of item n. */
  method PredictAll(e: Env, ghost cl0: Configs, cl: Configs, n: nat, p: Item, b: nat) returns (c: Configs)
    requires EnvOk(e) && ClosureState(e, cl0, cl, n, p, |e.g.rules|) && Next(e.g, p, Nonterminal(b))
    ensures ClosureState(e, cl0, c, n, p, 0) && |c.current| >= |cl.current|
  {
    hide ClosureState, EnvOk;
    c := cl;
    for r := |e.g.rules| downto 0
      invariant ClosureState(e, cl0, c, n, p, r) && |c.current| >= |cl.current|
    {
      if e.g.rules[r].lhs == b {
        PredictionKeeps(e, cl0, c, n, p, r);
        PredictionGrows(e, c, p, Item(r, 0));
        c := PredictRule(e, c, p, Item(r, 0));
      } else {
        OtherRuleKeeps(e, cl0, c, n, p, r);
      }
    }
  }

  lemma PredictionGrows(e: Env, cl: Configs, p: Item, it: Item)
    requires p in cl.fplp
    ensures |Predicted(e, cl, p, it).current| >= |cl.current|
  {
  }

  /** Predict one rule. */
  method PredictRule(e: Env, cl: Configs, p: Item, it: Item) returns (c: Configs)
    requires EnvOk(e) && p in cl.fplp && Predicts(e.g, p, it)
    requires cl.fws.Keys == cl.fplp.Keys == cl.bplp.Keys
    ensures c == Predicted(e, cl, p, it)
  {
    c := Add(cl, it);
    BehindInRange(e, p);
    var fs, atEnd := ScanSuffix(e, c.fws[it], Behind(e.g, p));
    c := c.(fws := c.fws[it := fs]);
    if atEnd {
      c := c.(fplp := c.fplp[p := c.fplp[p] + [it]]);
    }
  }

  lemma BehindInRange(e: Env, p: Item)
    requires EnvOk(e) && p.rule < |e.g.rules| && p.dot < |e.g.rules[p.rule].rhs|
    ensures |e.lambda| == |e.first|
    ensures forall i :: 0 <= i < |Behind(e.g, p)| ==> Behind(e.g, p)[i].Nonterminal? ==>
      Behind(e.g, p)[i].id < |e.lambda|
  {
    assert e.g.ValidRule(e.g.rules[p.rule]);
    forall i | 0 <= i < |Behind(e.g, p)| && Behind(e.g, p)[i].Nonterminal? ensures Behind(e.g, p)[i].id < |e.lambda| {
      assert e.g.ValidSymbol(e.g.rules[p.rule].rhs[p.dot + 1 + i]);
    }
  }

  /** Configlist_closure. */
  method Closure(e: Env, cl0: Configs) returns (cl: Configs)
    requires EnvOk(e) && ListOk(cl0) && ValidItems(e.g, ItemSet(cl0.current))
    requires forall it :: it in cl0.fplp ==> cl0.fplp[it] == []
    ensures ClosureDone(e, cl0, cl, |cl.current|)
  {
    hide EnvOk, ClosureDone, ClosureState;
    cl := cl0;
    assert ClosureDone(e, cl0, cl, 0) by { ClosureStarts(e, cl0); }
    ClosureSize(e, cl0, cl, 0);
    var n := 0;
    while n < |cl.current|
      invariant n <= |cl.current| && ClosureDone(e, cl0, cl, n)
      invariant |cl.current| <= |AllItems(e.g)|
      decreases |AllItems(e.g)| - n
    {
      EnterItem(e, cl0, cl, n);
      var p := cl.current[n];
      if p.rule < |e.g.rules| && p.dot < |e.g.rules[p.rule].rhs| && e.g.rules[p.rule].rhs[p.dot].Nonterminal? {
        cl := PredictAll(e, cl0, cl, n, p, e.g.rules[p.rule].rhs[p.dot].id);
      } else {
        PassItem(e, cl0, cl, n, p);
      }
      LeaveItem(e, cl0, cl, n, p);
      n := n + 1;
      ClosureSize(e, cl0, cl, n);
    }
  }

  lemma ClosureSize(e: Env, cl0: Configs, cl: Configs, n: nat)
    requires ClosureDone(e, cl0, cl, n)
    ensures n <= |cl.current| <= |AllItems(e.g)|
  {
    SizeBound(e, cl);
  }

  lemma ClosureStarts(e: Env, cl0: Configs)
    requires ListOk(cl0) && ValidItems(e.g, ItemSet(cl0.current))
    requires forall it :: it in cl0.fplp ==> cl0.fplp[it] == []
    ensures ClosureDone(e, cl0, cl0, 0)
  {
  }

  // ----- what the closure means ------------------------------------------------------------------

  lemma ClosureIsClosure(e: Env, cl0: Configs, cl: Configs)
    requires ClosureDone(e, cl0, cl, |cl.current|)
    ensures IsClosure(e.g, ItemSet(cl0.current), ItemSet(cl.current))
  {
    forall p, it | p in ItemSet(cl.current) && Predicts(e.g, p, it) ensures it in ItemSet(cl.current) {
      var k :| 0 <= k < |cl.current| && cl.current[k] == p;
    }
    assert forall it :: it in cl0.current ==> it in cl.current;
  }

  /** The follow set of an item holds its initial tokens and the first tokens behind each of its predictors. */
  ghost predicate FwsExact(e: Env, items: seq<Item>, initial: map<Item, set<nat>>, fws: map<Item, set<nat>>) {
    && fws.Keys == ItemSet(items)
    && forall it, a :: it in fws ==>
         (a in fws[it] <==> (it in initial && a in initial[it]) || exists p :: p in items && a in Given(e, p, it))
  }

  /** A link leads from p to exactly the items it predicts with nothing but lambda behind. */
  ghost predicate LinksExact(e: Env, items: seq<Item>, fplp: map<Item, seq<Item>>) {
    && fplp.Keys == ItemSet(items)
    && forall p, q :: p in fplp ==> (q in fplp[p] <==> PassesOn(e, p, q))
  }

  lemma ClosureTables(e: Env, cl0: Configs, cl: Configs)
    requires ClosureDone(e, cl0, cl, |cl.current|)
    ensures FwsExact(e, cl.current, cl0.fws, cl.fws) && LinksExact(e, cl.current, cl.fplp)
  {
    hide Given, PassesOn, GivenBy;
    assert cl.current[..|cl.current|] == cl.current;
    forall it, a | it in cl.fws
      ensures a in cl.fws[it] <==>
        (it in cl0.fws && a in cl0.fws[it]) || exists p :: p in cl.current && a in Given(e, p, it) {
      InGivenBy(e, cl.current, it, a);
    }
  }
}
