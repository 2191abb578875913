/**
  FindFollowSets: propagating follow sets along the forward links.

  A configuration is re-examined only while it is marked incomplete.  The result is
  exact: a token reaches a configuration if and only if a path of links leads there
  from a configuration that had it initially.
*/
module FollowSets {
  import opened Automata

  /** A configuration of the automaton: an item in a state. */
  datatype Cfg = Cfg(state: nat, item: Item)

  type Links = map<Cfg, seq<Cfg>>
  type Sets = map<Cfg, set<nat>>

  ghost predicate LinksOk(links: Links, fws: Sets) {
    && links.Keys == fws.Keys
    && forall c, d :: c in links && d in links[c] ==> d in fws
  }

  /** A path of forward links. */
  ghost predicate Path(links: Links, p: seq<Cfg>) {
    && p != [] && (forall i :: 0 <= i < |p| ==> p[i] in links)
    && forall i :: 0 <= i < |p| - 1 ==> p[i + 1] in links[p[i]]
  }

  /** The token a starts at the head of some path to d. */
  ghost predicate Arrives(links: Links, fws0: Sets, d: Cfg, a: nat) {
    exists p :: Path(links, p) && p[|p| - 1] == d && p[0] in fws0 && a in fws0[p[0]]
  }

  ghost predicate Propagated(links: Links, fws: Sets, c: Cfg)
    requires LinksOk(links, fws) && c in fws
  {
    forall d :: d in links[c] ==> fws[c] <= fws[d]
  }

  /** Every token in a set has arrived there. */
  ghost predicate AllArrive(links: Links, fws0: Sets, fws: Sets) {
    forall d, a :: d in fws && a in fws[d] ==> Arrives(links, fws0, d, a)
  }

  ghost predicate Above(fws0: Sets, fws: Sets) {
    fws0.Keys == fws.Keys && forall c :: c in fws0 ==> fws0[c] <= fws[c]
  }

  /** All configurations in `done` have propagated their current sets. */
  ghost predicate AllPropagated(links: Links, fws: Sets, done: set<Cfg>)
    requires LinksOk(links, fws)
  {
    done <= fws.Keys && forall c :: c in done ==> Propagated(links, fws, c)
  }

  /** The effect of propagating from c to the targets ds. */
  ghost function Pushed(fws: Sets, c: Cfg, ds: seq<Cfg>): Sets
    requires c in fws
  {
    map d | d in fws :: if d in ds then fws[d] + fws[c] else fws[d]
  }

  // ----- facts about one propagation ---------------------------------------------------------

  lemma ArrivesFurther(links: Links, fws0: Sets, c: Cfg, d: Cfg, a: nat)
    requires Arrives(links, fws0, c, a) && c in links && d in links[c] && d in links
    ensures Arrives(links, fws0, d, a)
  {
    var p :| Path(links, p) && p[|p| - 1] == c && p[0] in fws0 && a in fws0[p[0]];
    var q := p + [d];
    assert Path(links, q) && q[|q| - 1] == d && q[0] == p[0];
  }

  lemma PushedStep(fws: Sets, c: Cfg, ds: seq<Cfg>, i: nat)
    requires c in fws && i < |ds| && ds[i] in fws
    ensures var before := Pushed(fws, c, ds[..i]);
            Pushed(fws, c, ds[..i + 1]) == before[ds[i] := before[ds[i]] + fws[c]]
  {
    assert ds[..i + 1] == ds[..i] + [ds[i]];
  }

  lemma PushedArrive(links: Links, fws0: Sets, fws: Sets, c: Cfg)
    requires LinksOk(links, fws) && c in fws && AllArrive(links, fws0, fws)
    ensures AllArrive(links, fws0, Pushed(fws, c, links[c]))
  {
    var fws' := Pushed(fws, c, links[c]);
    forall d, a | d in fws' && a in fws'[d] ensures Arrives(links, fws0, d, a) {
      if a !in fws[d] { ArrivesFurther(links, fws0, c, d, a); }
    }
  }

  /** Marking the changed targets incomplete keeps every complete configuration propagated. */
  lemma PushedPropagates(links: Links, fws: Sets, c: Cfg, done: set<Cfg>, done': set<Cfg>)
    requires LinksOk(links, fws) && c in fws && AllPropagated(links, fws, done)
    requires var fws' := Pushed(fws, c, links[c]);
             done' <= done + {c} && forall d :: d in done' ==> fws'[d] == fws[d]
    ensures AllPropagated(links, Pushed(fws, c, links[c]), done')
  {
    var fws' := Pushed(fws, c, links[c]);
    forall b | b in done' ensures Propagated(links, fws', b) {
      forall d | d in links[b] ensures fws'[b] <= fws'[d] {
        if b != c { assert Propagated(links, fws, b); }
      }
    }
  }

  /** When all configurations are complete, tokens have gone wherever paths lead. */
  lemma {:induction false} CompleteReaches(links: Links, fws0: Sets, fws: Sets, p: seq<Cfg>, a: nat)
    requires LinksOk(links, fws) && Above(fws0, fws) && AllPropagated(links, fws, fws.Keys)
    requires Path(links, p) && a in fws0[p[0]]
    ensures a in fws[p[|p| - 1]]
    decreases |p|
  {
    if |p| > 1 {
      var q := p[..|p| - 1];
      CompleteReaches(links, fws0, fws, q, a);
      assert Propagated(links, fws, q[|q| - 1]);
      assert p[|q| - 1 + 1] in links[p[|q| - 1]];
    }
  }

  /** The fixpoint is exactly what paths bring. */
  lemma CompleteExact(links: Links, fws0: Sets, fws: Sets)
    requires LinksOk(links, fws) && Above(fws0, fws) && AllPropagated(links, fws, fws.Keys)
    requires AllArrive(links, fws0, fws)
    ensures forall d, a :: d in fws ==> (a in fws[d] <==> Arrives(links, fws0, d, a))
  {
    forall d, a | d in fws && Arrives(links, fws0, d, a) ensures a in fws[d] {
      var p :| Path(links, p) && p[|p| - 1] == d && p[0] in fws0 && a in fws0[p[0]];
      CompleteReaches(links, fws0, fws, p, a);
    }
  }

  /** The fixpoint is the least solution: it is below every propagated family above the initial sets. */
  lemma CompleteLeast(links: Links, fws0: Sets, fws: Sets, other: Sets)
    requires LinksOk(links, fws0) && LinksOk(links, other) && Above(fws0, other)
    requires AllPropagated(links, other, other.Keys)
    requires fws.Keys == fws0.Keys && AllArrive(links, fws0, fws)
    ensures Above(fws, other)
  {
    forall c, a | c in fws && a in fws[c] ensures a in other[c] {
      assert Arrives(links, fws0, c, a);
      var p :| Path(links, p) && p[|p| - 1] == c && p[0] in fws0 && a in fws0[p[0]];
      CompleteReaches(links, fws0, other, p, a);
    }
  }

  // ----- the computation --------------------------------------------------------------------------

  /** Send the set of c along its links; a target that changes becomes incomplete. */
  method Propagate(links: Links, fws0: Sets, done0: set<Cfg>, c: Cfg)
    returns (fws: Sets, done: set<Cfg>, change: bool)
    requires LinksOk(links, fws0) && c in fws0
    ensures fws == Pushed(fws0, c, links[c])
    ensures done == set d | d in done0 && fws[d] == fws0[d]
    ensures change <==> fws != fws0
    requires done0 <= fws0.Keys
  {
    fws, done, change := fws0, done0, false;
    var ds := links[c];
    for i := 0 to |ds|
      invariant fws == Pushed(fws0, c, ds[..i])
      invariant done == set d | d in done0 && fws[d] == fws0[d]
      invariant change <==> fws != fws0
    {
      var d := ds[i];
      assert d in links[c] && fws[c] == fws0[c];
      if !(fws[c] <= fws[d]) {
        fws := fws[d := fws[d] + fws[c]];
        done := done - {d};
        change := true;
      }
      else {
        assert fws[d] + fws0[c] == fws[d] && fws[d := fws[d]] == fws;
      }
      PushedStep(fws0, c, ds, i);
    }
    assert ds[..|ds|] == ds;
  }

  ghost function Missing(fws: Sets, universe: set<nat>): set<(Cfg, nat)> {
    set c, a | c in fws && a in universe && a !in fws[c] :: (c, a)
  }

  ghost predicate Within(fws: Sets, universe: set<nat>) {
    forall c :: c in fws ==> fws[c] <= universe
  }

  lemma PushedGrows(links: Links, fws: Sets, c: Cfg, universe: set<nat>)
    requires LinksOk(links, fws) && c in fws && Within(fws, universe)
    ensures var fws' := Pushed(fws, c, links[c]);
            && LinksOk(links, fws') && Within(fws', universe) && Above(fws, fws')
            && Missing(fws', universe) <= Missing(fws, universe)
            && (fws' != fws ==> Missing(fws', universe) != Missing(fws, universe))
  {
    var fws' := Pushed(fws, c, links[c]);
    if fws' != fws {
      var d :| d in fws && fws'[d] != fws[d];
      var a :| a in fws'[d] && a !in fws[d];
      assert (d, a) in Missing(fws, universe) && (d, a) !in Missing(fws', universe);
    }
  }

  /** The invariant of the whole computation. */
  ghost predicate Valid(links: Links, fws0: Sets, fws: Sets, done: set<Cfg>, universe: set<nat>) {
    && LinksOk(links, fws) && Above(fws0, fws) && Within(fws, universe)
    && AllPropagated(links, fws, done) && AllArrive(links, fws0, fws)
  }

  lemma PropagateKeeps(links: Links, fws0: Sets, fws: Sets, done: set<Cfg>, universe: set<nat>, c: Cfg, done': set<Cfg>)
    requires Valid(links, fws0, fws, done, universe) && c in fws
    requires done' == (set d | d in done && Pushed(fws, c, links[c])[d] == fws[d]) + {c}
    ensures Valid(links, fws0, Pushed(fws, c, links[c]), done', universe)
  {
    PushedGrows(links, fws, c, universe);
    PushedArrive(links, fws0, fws, c);
    PushedPropagates(links, fws, c, done, done');
  }

  /** One pass over all configurations in the given order. */
  method Pass(links: Links, order: seq<Cfg>, ghost fws0: Sets, f: Sets, done0: set<Cfg>, ghost universe: set<nat>)
    returns (fws: Sets, done: set<Cfg>, progress: bool)
    requires Valid(links, fws0, f, done0, universe)
    requires forall i :: 0 <= i < |order| ==> order[i] in f
    ensures Valid(links, fws0, fws, done, universe)
    ensures Missing(fws, universe) <= Missing(f, universe)
    ensures if progress then Missing(fws, universe) != Missing(f, universe)
            else fws == f && forall i :: 0 <= i < |order| ==> order[i] in done
  {
    hide Valid, Missing, Pushed;
    fws, done, progress := f, done0, false;
    for i := 0 to |order|
      invariant Valid(links, fws0, fws, done, universe) && fws.Keys == f.Keys
      invariant Missing(fws, universe) <= Missing(f, universe)
      invariant if progress then Missing(fws, universe) != Missing(f, universe)
                else fws == f && forall k :: 0 <= k < i ==> order[k] in done
    {
      var c := order[i];
      if c in done { continue; }
      assert LinksOk(links, fws) && Within(fws, universe) && done <= fws.Keys by {
        ValidParts(links, fws0, fws, done, universe);
      }
      var change;
      ghost var before, doneBefore := fws, done;
      PushedGrows(links, fws, c, universe);
      fws, done, change := Propagate(links, fws, done, c);
      done := done + {c};
      PropagateKeeps(links, fws0, before, doneBefore, universe, c, done);
      if change { progress := true; }
    }
  }

  lemma ValidParts(links: Links, fws0: Sets, fws: Sets, done: set<Cfg>, universe: set<nat>)
    requires Valid(links, fws0, fws, done, universe)
    ensures LinksOk(links, fws) && Within(fws, universe) && done <= fws.Keys
  {
  }

  /** Compute all follow sets. */
  method FindFollowSets(links: Links, order: seq<Cfg>, fws0: Sets, ghost universe: set<nat>) returns (fws: Sets)
    requires LinksOk(links, fws0) && Within(fws0, universe)
    requires forall c :: c in order <==> c in fws0
    ensures fws.Keys == fws0.Keys
    ensures forall d, a :: d in fws ==> (a in fws[d] <==> Arrives(links, fws0, d, a))
  {
    fws := fws0;
    var done: set<Cfg> := {};
    forall d, a | d in fws0 && a in fws0[d] ensures Arrives(links, fws0, d, a) {
      assert Path(links, [d]) && [d][0] == d;
    }
    var progress := true;
    while progress
      invariant Valid(links, fws0, fws, done, universe)
      invariant !progress ==> forall i :: 0 <= i < |order| ==> order[i] in done
      decreases Missing(fws, universe), progress
    {
      fws, done, progress := Pass(links, order, fws0, fws, done, universe);
    }
    assert done == fws.Keys;
    CompleteExact(links, fws0, fws);
  }
}
