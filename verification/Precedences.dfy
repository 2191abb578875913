/**
  Which actions are left in a state, by the precedences and the numbers of the rules
  alone, and what the marks of the others say.
*/
module Precedences {
  import opened Grammars
  import opened Automata
  import opened Configlist
  import opened Actions
  import opened ParserActions

  // ----- which reduction is kept -----------------------------------------------------------------

  /** A reduction of the automaton on token a. */
  ghost predicate ReducesOn(g: Grammar, m: Machine, s: nat, a: nat, y: Action)
    requires s < |m.items| == |m.la|
  {
    IsRaw(g, m, s, y) && y.kind == REDUCE && y.sp == a
  }

  ghost predicate Shiftable(g: Grammar, m: Machine, s: nat, a: nat)
    requires s < |m.items| == |m.la|
  {
    exists x :: IsRaw(g, m, s, x) && x.kind == SHIFT && x.sp == a
  }

  /** Of the reductions on its token, y is by the rule with the smallest number. */
  ghost predicate LeastRule(g: Grammar, m: Machine, s: nat, y: Action)
    requires s < |m.items| == |m.la|
  {
    ReducesOn(g, m, s, y.sp, y) && forall z :: ReducesOn(g, m, s, y.sp, z) ==> y.arg <= z.arg
  }

  /** It has the highest precedence, and the smallest number among those that have it. */
  ghost predicate HighestRule(g: Grammar, m: Machine, s: nat, y: Action)
    requires s < |m.items| == |m.la|
  {
    && ReducesOn(g, m, s, y.sp, y)
    && forall z :: ReducesOn(g, m, s, y.sp, z) ==>
         RedPrec(g, z) < RedPrec(g, y) || (RedPrec(g, z) == RedPrec(g, y) && y.arg <= z.arg)
  }

  /** Some reduction on the token overrules a shift of it. */
  ghost predicate ShiftOverruled(g: Grammar, m: Machine, s: nat, a: nat)
    requires s < |m.items| == |m.la|
  {
    exists z :: ReducesOn(g, m, s, a, z) && Overrules(g, z, Action(a, SHIFT, 0))
  }

  ghost predicate LeastHasNone(g: Grammar, m: Machine, s: nat, a: nat)
    requires s < |m.items| == |m.la|
  {
    exists x :: LeastRule(g, m, s, x) && x.sp == a && RedPrec(g, x) < 0
  }

  lemma FirstOfStretch(ap: seq<Action>, k: nat, l: nat)
    requires SortedActions(ap) && k < |ap| && l < |ap| && ap[l].sp == ap[k].sp
    ensures Head(ap, k) == Head(ap, l) <= l
    ensures Head(ap, k) == l || ActionLe(ap[Head(ap, k)], ap[l])
  {
    if k <= l { SameStretch(ap, k, l); } else { SameStretch(ap, l, k); }
  }

  /** The first position of an action. */
  lemma FirstPosition(ap: seq<Action>, y: Action) returns (k: nat)
    requires y in ap
    ensures k < |ap| && ap[k] == y && forall l :: 0 <= l < k ==> ap[l] != y
  {
    var n: nat :| n < |ap| && ap[n] == y;
    k := 0;
    while ap[k] != y
      invariant k <= n && forall l :: 0 <= l < k ==> ap[l] != y
      decreases n - k
    {
      k := k + 1;
    }
  }

  lemma RawAt(g: Grammar, m: Machine, s: nat, raw: seq<Action>, k: nat)
    requires s < |m.items| == |m.la| && RawList(g, m, s, raw) && k < |raw|
    ensures IsRaw(g, m, s, raw[k])
  {
    assert raw[k] in raw;
  }

  /** Whether the stretch begins with a shift. */
  lemma HeadShifts(g: Grammar, m: Machine, s: nat, raw: seq<Action>, k: nat)
    requires s < |m.items| == |m.la| && RawList(g, m, s, raw) && Unresolved(raw) && SortedActions(raw) && k < |raw|
    ensures raw[Head(raw, k)].kind == SHIFT <==> Shiftable(g, m, s, raw[k].sp)
  {
    hide SortedActions, IsRaw, Head;
    var f := Head(raw, k);
    RawAt(g, m, s, raw, f);
    if x :| IsRaw(g, m, s, x) && x.kind == SHIFT && x.sp == raw[k].sp {
      var l :| 0 <= l < |raw| && raw[l] == x;
      FirstOfStretch(raw, k, l);
    }
  }

  lemma HeadLeast(g: Grammar, m: Machine, s: nat, raw: seq<Action>, k: nat)
    requires s < |m.items| == |m.la| && RawList(g, m, s, raw) && SortedActions(raw) && k < |raw|
    requires raw[Head(raw, k)].kind == REDUCE
    ensures LeastRule(g, m, s, raw[Head(raw, k)])
    ensures LeastHasNone(g, m, s, raw[k].sp) <==> RedPrec(g, raw[Head(raw, k)]) < 0
    ensures forall y :: LeastRule(g, m, s, y) && y.sp == raw[k].sp ==> y == raw[Head(raw, k)]
  {
    hide SortedActions, IsRaw, Head, RedPrec;
    var f := Head(raw, k);
    RawAt(g, m, s, raw, f);
    forall z | ReducesOn(g, m, s, raw[k].sp, z) ensures raw[f].arg <= z.arg {
      var l :| 0 <= l < |raw| && raw[l] == z;
      FirstOfStretch(raw, k, l);
    }
    forall y | LeastRule(g, m, s, y) && y.sp == raw[k].sp ensures y == raw[f] {
      assert ReducesOn(g, m, s, raw[k].sp, raw[f]);
    }
  }

  lemma HighestMeans(g: Grammar, m: Machine, s: nat, raw: seq<Action>, k: nat)
    requires s < |m.items| == |m.la| && RawList(g, m, s, raw) && SortedActions(raw)
    requires k < |raw| && raw[k].kind == REDUCE
    ensures Highest(g, raw, |raw|, k) ==> HighestRule(g, m, s, raw[k])
    ensures HighestRule(g, m, s, raw[k]) && (forall l :: 0 <= l < k ==> raw[l] != raw[k]) ==> Highest(g, raw, |raw|, k)
  {
    hide IsRaw, RedPrec;
    RawAt(g, m, s, raw, k);
    if Highest(g, raw, |raw|, k) {
      forall z | ReducesOn(g, m, s, raw[k].sp, z)
        ensures RedPrec(g, z) < RedPrec(g, raw[k]) || (RedPrec(g, z) == RedPrec(g, raw[k]) && raw[k].arg <= z.arg) {
        var l :| 0 <= l < |raw| && raw[l] == z;
        assert l > k ==> ActionLe(raw[k], raw[l]);
      }
    }
    if HighestRule(g, m, s, raw[k]) && forall l :: 0 <= l < k ==> raw[l] != raw[k] {
      forall l {:trigger raw[l]} | 0 <= l < |raw| && raw[l].sp == raw[k].sp && raw[l].kind == REDUCE
        ensures RedPrec(g, raw[l]) <= RedPrec(g, raw[k]) && (l < k ==> RedPrec(g, raw[l]) < RedPrec(g, raw[k])) {
        RawAt(g, m, s, raw, l);
        assert ReducesOn(g, m, s, raw[k].sp, raw[l]);
        assert l < k ==> ActionLe(raw[l], raw[k]) && raw[l] != raw[k];
      }
    }
  }

  lemma OverruledMeans(g: Grammar, m: Machine, s: nat, raw: seq<Action>, f: nat)
    requires s < |m.items| == |m.la| && RawList(g, m, s, raw) && f < |raw|
    ensures Overruled(g, raw, |raw|, f) <==> ShiftOverruled(g, m, s, raw[f].sp)
  {
    hide IsRaw, RedPrec;
    if Overruled(g, raw, |raw|, f) {
      var l :| 0 <= l < |raw| && raw[l].sp == raw[f].sp && raw[l].kind == REDUCE && Overrules(g, raw[l], raw[f]);
      RawAt(g, m, s, raw, l);
      assert ReducesOn(g, m, s, raw[f].sp, raw[l]) && Overrules(g, raw[l], Action(raw[f].sp, SHIFT, 0));
    }
    if ShiftOverruled(g, m, s, raw[f].sp) {
      var z :| ReducesOn(g, m, s, raw[f].sp, z) && Overrules(g, z, Action(raw[f].sp, SHIFT, 0));
      var l :| 0 <= l < |raw| && raw[l] == z;
      assert Overrules(g, raw[l], raw[f]);
    }
  }

  /** What the automaton's precedences call for on the token of reduction y. */
  ghost predicate CalledFor(g: Grammar, m: Machine, s: nat, y: Action)
    requires s < |m.items| == |m.la|
  {
    if Shiftable(g, m, s, y.sp) then ShiftOverruled(g, m, s, y.sp) && HighestRule(g, m, s, y)
    else if LeastHasNone(g, m, s, y.sp) then LeastRule(g, m, s, y)
    else HighestRule(g, m, s, y)
  }

  lemma PreferredIsCalledFor(g: Grammar, m: Machine, s: nat, raw: seq<Action>, k: nat)
    requires s < |m.items| == |m.la| && RawList(g, m, s, raw) && Unresolved(raw) && SortedActions(raw)
    requires k < |raw| && raw[k].kind == REDUCE
    ensures Preferred(g, raw, |raw|, k) ==> CalledFor(g, m, s, raw[k])
    ensures CalledFor(g, m, s, raw[k]) && (forall l :: 0 <= l < k ==> raw[l] != raw[k]) ==> Preferred(g, raw, |raw|, k)
  {
    hide SortedActions, RawList, IsRaw, Head, RedPrec, Highest, HighestRule, LeastRule, Overruled, ShiftOverruled;
    hide Shiftable, LeastHasNone;
    var f := Head(raw, k);
    HeadShifts(g, m, s, raw, k);
    HighestMeans(g, m, s, raw, k);
    OverruledMeans(g, m, s, raw, f);
    FirstOfStretch(raw, k, k);
    if raw[f].kind == REDUCE { HeadLeast(g, m, s, raw, k); }
  }

  /**
    Of the reductions of the automaton on a token, resolution keeps the one that the
    precedences call for.  Where the token can be shifted, and some reduction overrules
    the shift, this is the reduction of highest precedence; where it cannot be shifted,
    it is the one by the first rule, if that rule has no precedence, else again the one
    of highest precedence; of equal ones the one by the first rule.
  */
  lemma ReductionKeptIff(g: Grammar, m: Machine, s: nat, raw: seq<Action>, ap: seq<Action>, y: Action)
    requires s < |m.items| == |m.la| && Resolved(g, m, s, raw, ap) && IsRaw(g, m, s, y) && y.kind == REDUCE
    ensures Shiftable(g, m, s, y.sp) ==>
              (Holds(ap, y) <==> ShiftOverruled(g, m, s, y.sp) && HighestRule(g, m, s, y))
    ensures !Shiftable(g, m, s, y.sp) && LeastHasNone(g, m, s, y.sp) ==> (Holds(ap, y) <==> LeastRule(g, m, s, y))
    ensures !Shiftable(g, m, s, y.sp) && !LeastHasNone(g, m, s, y.sp) ==> (Holds(ap, y) <==> HighestRule(g, m, s, y))
  {
    hide IsRaw, SortedActions, Unresolved, Justified, SomeActive, OneActive, Marked, Preferred, CalledFor;
    hide Shiftable, LeastHasNone, ShiftOverruled, HighestRule, LeastRule;
    MarkedLength(raw, ap);
    if Holds(ap, y) {
      var q: nat :| q < |ap| && ap[q] == y;
      MarkedActive(raw, ap, q);
      PreferredIsCalledFor(g, m, s, raw, q);
    }
    if CalledFor(g, m, s, y) {
      var k := FirstPosition(raw, y);
      PreferredIsCalledFor(g, m, s, raw, k);
      MarkedActive(raw, ap, k);
      assert ap[k] in ap;
    }
    CalledForSaid(g, m, s, y);
  }

  lemma CalledForSaid(g: Grammar, m: Machine, s: nat, y: Action)
    requires s < |m.items| == |m.la|
    ensures CalledFor(g, m, s, y) <==>
      if Shiftable(g, m, s, y.sp) then ShiftOverruled(g, m, s, y.sp) && HighestRule(g, m, s, y)
      else if LeastHasNone(g, m, s, y.sp) then LeastRule(g, m, s, y)
      else HighestRule(g, m, s, y)
  {
  }

  // ----- what the marks say ------------------------------------------------------------------------

  /** The precedence of an action: of its token for a shift, of its rule for a reduction. */
  function Precedence(g: Grammar, x: Action): int {
    if x.kind == REDUCE then RedPrec(g, x)
    else if x.sp < |g.prec| && g.prec[x.sp] >= 0 then g.prec[x.sp] else -1
  }

  /** A shift and a reduction of the same precedence: the associativity of the token says which one wins. */
  predicate Associates(g: Grammar, w: Action, x: Action) {
    && w.sp < |g.assoc|
    && ((w.kind == SHIFT && x.kind == REDUCE && g.assoc[w.sp] == RIGHT)
        || (w.kind == REDUCE && x.kind == SHIFT && g.assoc[w.sp] == LEFT))
  }

  /** Precedence or associativity decides for w against x. */
  predicate DecidedFor(g: Grammar, w: Action, x: Action) {
    && !(w.kind == SHIFT && x.kind == SHIFT) && Precedence(g, w) >= 0 && Precedence(g, x) >= 0
    && (|| Precedence(g, w) > Precedence(g, x)
        || (Precedence(g, w) == Precedence(g, x) && Associates(g, w, x)))
  }

  /** What two competing actions get: a mark without a report exactly where the precedences decide. */
  lemma ResolveByPrecedence(g: Grammar, x: Action, y: Action)
    requires x.kind in {SHIFT, REDUCE} && y.kind in {SHIFT, REDUCE} && Rank(x.kind) <= Rank(y.kind) && x.sp == y.sp
    ensures var (kx, ky, n) := Resolve(g, x, y);
            && (ByPrecedence(kx) <==> DecidedFor(g, y, x)) && !Reported(kx)
            && (ByPrecedence(ky) <==> DecidedFor(g, x, y))
            && (Reported(ky) <==> !DecidedFor(g, x, y) && !DecidedFor(g, y, x))
            && n == if Reported(ky) then 1 else 0
  {
  }

  /** Precedence and associativity decide nothing between the two. */
  predicate Undecided(g: Grammar, x: Action, y: Action) {
    !DecidedFor(g, x, y) && !DecidedFor(g, y, x)
  }

  ghost predicate DecidedAgainst(g: Grammar, raw: seq<Action>, w: nat, k: nat)
    requires k < |raw|
  {
    w < |raw| && raw[w].sp == raw[k].sp && w != k && DecidedFor(g, raw[w], raw[k])
  }

  /** Action w is preferred among the actions before k, and nothing decides between the two. */
  ghost predicate Clash(g: Grammar, raw: seq<Action>, w: nat, k: nat)
    requires k < |raw|
  {
    w < k && raw[w].sp == raw[k].sp && Preferred(g, raw, k, w) && Undecided(g, raw[w], raw[k])
  }

  /**
    A dropped action is marked as decided by precedence only where precedence or
    associativity decides for another action of its symbol.  An action is reported as a
    conflict if and only if nothing decides between it and the action preferred among
    those before it.
  */
  lemma MarksSay(g: Grammar, raw: seq<Action>, ap: seq<Action>, k: nat)
    requires Unresolved(raw) && SortedActions(raw) && Marked(raw, ap) && Justified(g, raw, ap)
    requires PreferredLeft(g, raw, ap) && k < |ap|
    ensures ByPrecedence(ap[k].kind) ==> exists w: nat :: DecidedAgainst(g, raw, w, k)
    ensures Reported(ap[k].kind) <==> exists w: nat :: Clash(g, raw, w, k)
  {
    hide DecidedFor, Resolve, Champion, Preferred, SortedActions, Unresolved, Active;
    KindsMarked(raw, ap, k);
    if ap[k].kind != raw[k].kind {
      var w: nat :| Beats(g, raw, w, k, ap[k].kind);
      if w < k {
        PairMarks(g, raw, w, k);
        assert ByPrecedence(ap[k].kind) ==> DecidedAgainst(g, raw, w, k);
        assert Reported(ap[k].kind) ==> Clash(g, raw, w, k) by { ChampionBefore(g, raw, w, k); }
      } else {
        PairMarks(g, raw, k, w);
        assert DecidedAgainst(g, raw, w, k);
      }
    }
    if w: nat :| Clash(g, raw, w, k) { ClashIsReported(g, raw, ap, w, k); }
  }

  lemma KindsMarked(raw: seq<Action>, ap: seq<Action>, k: nat)
    requires Unresolved(raw) && Marked(raw, ap) && k < |ap|
    ensures |raw| == |ap| && !Reported(raw[k].kind) && !ByPrecedence(raw[k].kind)
    ensures Active(ap[k].kind) <==> ap[k].kind == raw[k].kind
  {
  }

  lemma ChampionBefore(g: Grammar, raw: seq<Action>, w: nat, k: nat)
    requires SortedActions(raw) && Unresolved(raw) && w < k < |raw| && raw[w].sp == raw[k].sp
    ensures Champion(g, raw, k - 1) == w <==> Preferred(g, raw, k, w)
  {
    hide SortedActions, Unresolved, Preferred, Champion;
    SameBetween(raw, w, k);
    ChampionPreferred(g, raw, k - 1);
    if Preferred(g, raw, k, w) { PreferredUnique(g, raw, k, w, Champion(g, raw, k - 1)); }
  }

  lemma ClashIsReported(g: Grammar, raw: seq<Action>, ap: seq<Action>, w: nat, k: nat)
    requires Unresolved(raw) && SortedActions(raw) && Marked(raw, ap) && Justified(g, raw, ap)
    requires PreferredLeft(g, raw, ap) && k < |ap| && k < |raw| && Clash(g, raw, w, k)
    ensures Reported(ap[k].kind)
  {
    hide DecidedFor, Preferred, SortedActions, Unresolved, Active, Resolve, Reported, ByPrecedence;
    KindsMarked(raw, ap, k);
    PairMarks(g, raw, w, k);
    PairKeeps(g, raw, w, k);
    ChampionBefore(g, raw, w, k);
    SameBetween(raw, w, k);
    assert Champion(g, raw, k) == w;
    ChampionIffPreferred(g, raw, k);
    ChampionMoves(g, raw, k, Last(raw, k));
    var v: nat :| Beats(g, raw, v, k, ap[k].kind);
    if k < v { ChampionMoves(g, raw, k, v - 1); }
  }

  /** Where nothing decides, the first of the two is left. */
  lemma PairKeeps(g: Grammar, raw: seq<Action>, i: nat, j: nat)
    requires Unresolved(raw) && SortedActions(raw) && i < j < |raw| && raw[i].sp == raw[j].sp
    requires Undecided(g, raw[i], raw[j])
    ensures Resolve(g, raw[i], raw[j]).0 == raw[i].kind
  {
    assert ActionLe(raw[i], raw[j]);
    assert raw[i].kind != ACCEPT && raw[j].kind != ACCEPT;
  }

  lemma PairMarks(g: Grammar, raw: seq<Action>, i: nat, j: nat)
    requires Unresolved(raw) && SortedActions(raw) && i < j < |raw| && raw[i].sp == raw[j].sp
    ensures var (kx, ky, n) := Resolve(g, raw[i], raw[j]);
            && (ByPrecedence(kx) <==> DecidedFor(g, raw[j], raw[i])) && !Reported(kx)
            && (ByPrecedence(ky) <==> DecidedFor(g, raw[i], raw[j]))
            && (Reported(ky) <==> !DecidedFor(g, raw[i], raw[j]) && !DecidedFor(g, raw[j], raw[i]))
    ensures !(DecidedFor(g, raw[i], raw[j]) && DecidedFor(g, raw[j], raw[i]))
  {
    assert ActionLe(raw[i], raw[j]);
    assert raw[i].kind != ACCEPT && raw[j].kind != ACCEPT;
    ResolveByPrecedence(g, raw[i], raw[j]);
  }

  // ----- the number of conflicts -----------------------------------------------------------------

  ghost function ReportedIn(ap: seq<Action>): set<nat> {
    set k: nat | k < |ap| && ap[k].kind in {SSCONFLICT, SRCONFLICT, RRCONFLICT}
  }

  lemma {:induction false} CountsReported(ap: seq<Action>)
    ensures CountReported(ap) == |ReportedIn(ap)|
  {
    if ap == [] {
      assert ReportedIn(ap) == {};
    } else {
      var n := |ap| - 1;
      CountsReported(ap[..n]);
      var front := ReportedIn(ap[..n]);
      assert n !in front;
      if ap[n].kind in {SSCONFLICT, SRCONFLICT, RRCONFLICT} {
        assert ReportedIn(ap) == front + {n};
      } else {
        assert ReportedIn(ap) == front;
      }
    }
  }

  ghost predicate Clashes(g: Grammar, raw: seq<Action>, k: nat) {
    k < |raw| && exists w: nat :: Clash(g, raw, w, k)
  }

  ghost function ClashesIn(g: Grammar, raw: seq<Action>): set<nat> {
    set k: nat | k < |raw| && Clashes(g, raw, k)
  }

  /** The places of the conflicts: the states, and in each the actions for which nothing decides. */
  ghost function Conflicts(g: Grammar, raws: seq<seq<Action>>): set<(nat, nat)> {
    set s: nat, k: nat | s < |raws| && k < |raws[s]| && Clashes(g, raws[s], k) :: (s, k)
  }

  lemma ClashesAreReported(g: Grammar, m: Machine, s: nat, raw: seq<Action>, ap: seq<Action>)
    requires s < |m.items| == |m.la| && Resolved(g, m, s, raw, ap)
    ensures ReportedIn(ap) == ClashesIn(g, raw)
  {
    hide IsRaw, RawList, Unresolved, SortedActions, Marked, Justified, PreferredLeft, SomeActive, OneActive, Clash;
    MarkedLength(raw, ap);
    forall k: nat | k < |ap| ensures k in ReportedIn(ap) <==> Clashes(g, raw, k) { MarksSay(g, raw, ap, k); }
  }

  ghost function Paired(s: nat, ks: set<nat>): set<(nat, nat)> {
    set k: nat | k in ks :: (s, k)
  }

  lemma PairSize(s: nat, ks: set<nat>)
    ensures |Paired(s, ks)| == |ks|
  {
    if ks == {} {
      assert Paired(s, ks) == {};
    } else {
      var k :| k in ks;
      PairSize(s, ks - {k});
      assert Paired(s, ks) == Paired(s, ks - {k}) + {(s, k)};
      assert (s, k) !in Paired(s, ks - {k});
    }
  }

  lemma ConflictsSplit(g: Grammar, raws: seq<seq<Action>>)
    requires raws != []
    ensures var n := |raws| - 1;
            && Conflicts(g, raws) == Conflicts(g, raws[..n]) + Paired(n, ClashesIn(g, raws[n]))
            && Conflicts(g, raws[..n]) !! Paired(n, ClashesIn(g, raws[n]))
  {
    hide Clashes;
  }

  lemma DisjointSize<T>(a: set<T>, b: set<T>)
    requires a !! b
    ensures |a + b| == |a| + |b|
  {
  }

  /** The number that FindActions returns is the number of these places. */
  lemma {:induction false} ConflictsCounted(g: Grammar, m: Machine, raws: seq<seq<Action>>, aps: seq<seq<Action>>)
    requires |raws| == |aps| <= |m.items| == |m.la|
    requires forall s :: 0 <= s < |aps| ==> Resolved(g, m, s, raws[s], aps[s])
    ensures TotalReported(aps) == |Conflicts(g, raws)|
  {
    hide Resolved, Clashes, Conflicts, Paired, ReportedIn, ClashesIn, CountReported;
    if aps == [] {
      assert Conflicts(g, raws) == {} by { NoConflicts(g); }
    } else {
      var n := |aps| - 1;
      var ks := ReportedIn(aps[n]);
      ConflictsCounted(g, m, raws[..n], aps[..n]);
      ClashesAreReported(g, m, n, raws[n], aps[n]);
      CountsReported(aps[n]);
      PairSize(n, ks);
      ConflictsSplit(g, raws);
      DisjointSize(Conflicts(g, raws[..n]), Paired(n, ks));
    }
  }

  lemma NoConflicts(g: Grammar)
    ensures Conflicts(g, []) == {}
  {
  }

  // ----- the default -------------------------------------------------------------------------------

  /** The tokens that the list reduces by rule r, from position i on. */
  ghost function TokensFrom(ap: seq<Action>, i: nat, r: nat): set<nat> {
    set k | i <= k < |ap| && ap[k].kind == REDUCE && ap[k].arg == r :: ap[k].sp
  }

  lemma {:induction false} CountIsSize(ap: seq<Action>, i: nat, r: nat)
    requires OneActive(ap) && i <= |ap|
    ensures CountFrom(ap, i, r) == |TokensFrom(ap, i, r)|
    decreases |ap| - i
  {
    if i < |ap| {
      CountIsSize(ap, i + 1, r);
      if ap[i].kind == REDUCE && ap[i].arg == r {
        assert TokensFrom(ap, i, r) == TokensFrom(ap, i + 1, r) + {ap[i].sp};
        assert ap[i].sp !in TokensFrom(ap, i + 1, r);
      } else {
        assert TokensFrom(ap, i, r) == TokensFrom(ap, i + 1, r);
      }
    } else {
      assert TokensFrom(ap, i, r) == {};
    }
  }

  /** The tokens on which the list reduces by rule r. */
  ghost function Tokens(ap: seq<Action>, r: nat): set<nat> {
    set x | x in ap && x.kind == REDUCE && x.arg == r :: x.sp
  }

  lemma TokensAll(ap: seq<Action>, r: nat)
    ensures TokensFrom(ap, 0, r) == Tokens(ap, r)
  {
    forall a | a in Tokens(ap, r) ensures a in TokensFrom(ap, 0, r) {
      var x :| x in ap && x.kind == REDUCE && x.arg == r && x.sp == a;
      var k :| 0 <= k < |ap| && ap[k] == x;
    }
  }

  /** Rule r is reduced on some token before a. */
  ghost predicate ReducedBefore(ap: seq<Action>, r: nat, a: nat) {
    exists b :: b in Tokens(ap, r) && b < a
  }

  /**
    The default of a state is by the rule that is reduced on most tokens, start rules
    aside; of rules that are reduced on as many, by the one with the first token.  There
    is none only where no other rule is reduced.
  */
  lemma DefaultRule(g: Grammar, m: Machine, s: nat, raw: seq<Action>, ap: seq<Action>, fin: seq<Action>,
                    best: Option<nat>, q: nat)
    requires s < |m.items| == |m.la| && Resolved(g, m, s, raw, ap) && CompressedTo(g, ap, fin, best)
    requires !(q < |g.rules| && g.rules[q].lhs == g.start) && Tokens(ap, q) != {}
    ensures best.Some? && Tokens(ap, best.value) != {}
    ensures !(best.value < |g.rules| && g.rules[best.value].lhs == g.start)
    ensures |Tokens(ap, q)| <= |Tokens(ap, best.value)|
    ensures |Tokens(ap, q)| == |Tokens(ap, best.value)| && q != best.value ==>
              forall a :: a in Tokens(ap, q) ==> ReducedBefore(ap, best.value, a)
  {
    hide IsRaw, RawList, Unresolved, Justified, SomeActive, PreferredLeft, Folded, SortedActions, Marked, OneActive;
    hide Tokens, MostFrequent, NothingToDefault;
    CountIsSize(ap, 0, q);
    TokensAll(ap, q);
    var a0 :| a0 in Tokens(ap, q);
    var k0 := TokenAt(ap, q, a0);
    if best == None { NoneToDefault(g, ap, k0); }
    var r := best.value;
    CountIsSize(ap, 0, r);
    TokensAll(ap, r);
    var one :| one in ap && ByRule(one, r);
    TokenHere(ap, r, one);
    MostFrequentAt(g, ap, r, k0);
    if |Tokens(ap, q)| == |Tokens(ap, r)| && q != r {
      forall a | a in Tokens(ap, q) ensures ReducedBefore(ap, r, a) {
        var k := TokenAt(ap, q, a);
        MostFrequentAt(g, ap, r, k);
        var j :| 0 <= j <= k && ByRule(ap[j], r);
        ResolvedInOrder(g, m, s, raw, ap, j, k);
        TokenHere(ap, r, ap[j]);
      }
    }
  }

  lemma NoneToDefault(g: Grammar, ap: seq<Action>, k: nat)
    requires NothingToDefault(g, ap, |ap|) && k < |ap| && ap[k].kind == REDUCE
    ensures StartRule(g, ap[k].arg)
  {
  }

  lemma MostFrequentAt(g: Grammar, ap: seq<Action>, r: nat, k: nat)
    requires MostFrequent(g, ap, |ap|, r) && k < |ap| && ap[k].kind == REDUCE && !StartRule(g, ap[k].arg)
    ensures CountFrom(ap, 0, ap[k].arg) <= CountFrom(ap, 0, r)
    ensures CountFrom(ap, 0, ap[k].arg) == CountFrom(ap, 0, r) ==> exists j :: 0 <= j <= k && ByRule(ap[j], r)
  {
    assert CountFrom(ap, 0, ap[k].arg) == CountFrom(ap, 0, r) ==> Appears(ap, k, r);
  }

  lemma TokenHere(ap: seq<Action>, r: nat, x: Action)
    requires x in ap && ByRule(x, r)
    ensures x.sp in Tokens(ap, r)
  {
  }

  lemma TokenAt(ap: seq<Action>, q: nat, a: nat) returns (k: nat)
    requires a in Tokens(ap, q)
    ensures k < |ap| && ap[k] == Action(a, REDUCE, q)
  {
    var x :| x in ap && x.kind == REDUCE && x.arg == q && x.sp == a;
    k :| k < |ap| && ap[k] == x;
  }

  lemma ResolvedInOrder(g: Grammar, m: Machine, s: nat, raw: seq<Action>, ap: seq<Action>, j: nat, k: nat)
    requires s < |m.items| == |m.la| && Resolved(g, m, s, raw, ap) && j < k < |ap|
    requires ap[j].kind == REDUCE && ap[k].kind == REDUCE
    ensures ap[j].sp < ap[k].sp
  {
    hide IsRaw, Unresolved, Justified, SomeActive, PreferredLeft;
    assert ActionLe(raw[j], raw[k]);
  }
}
