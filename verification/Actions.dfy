/**
  FindActions, resolve_conflict and CompressTables: the action list of one state.
*/
module Actions {
  import opened Grammars
  import opened Automata
  import opened Configlist
  import opened Lists
  import MSort

  // ----- which actions the automaton calls for ----------------------------------------------

  /** The action belongs to state s before any conflict is resolved. */
  ghost predicate IsRaw(g: Grammar, m: Machine, s: nat, act: Action)
    requires s < |m.items| == |m.la|
  {
    match act.kind
    case SHIFT => Edge(g, m, s, act.sp, act.arg)
    case REDUCE =>
      && act.arg < |g.rules| && act.sp < g.nterminal
      && var it := Item(act.arg, |g.rules[act.arg].rhs|);
         it in m.items[s] && it in m.la[s] && act.sp in m.la[s][it]
    case ACCEPT => s == 0 && act.sp == g.start && act.arg == 0
    case _ => false
  }

  ghost predicate RawList(g: Grammar, m: Machine, s: nat, ap: seq<Action>)
    requires s < |m.items| == |m.la|
  {
    forall act :: act in ap <==> IsRaw(g, m, s, act)
  }

  /** No state has two different actions on one symbol. */
  ghost predicate ConflictFree(g: Grammar, m: Machine)
    requires |m.items| == |m.la|
  {
    forall s: nat, x, y {:trigger IsRaw(g, m, s, x), IsRaw(g, m, s, y)} ::
      s < |m.items| && IsRaw(g, m, s, x) && IsRaw(g, m, s, y) && x.sp == y.sp ==> x == y
  }

  // ----- sorting ------------------------------------------------------------------------------

  function Rank(k: Kind): nat {
    match k
    case SHIFT => 0 case ACCEPT => 1 case REDUCE => 2 case ERROR => 3 case SSCONFLICT => 4
    case SRCONFLICT => 5 case RRCONFLICT => 6 case SH_RESOLVED => 7 case RD_RESOLVED => 8 case NOT_USED => 9
  }

  /** actioncmp(a, b) <= 0, except that ties are left open instead of being broken by address. */
  predicate ActionLe(a: Action, b: Action) {
    || a.sp < b.sp
    || (a.sp == b.sp && (Rank(a.kind) < Rank(b.kind) || (a.kind == b.kind && (a.kind == REDUCE ==> a.arg <= b.arg))))
  }

  lemma RankInjective(a: Kind, b: Kind)
    ensures Rank(a) == Rank(b) ==> a == b
  {
  }

  lemma ActionLePreorder()
    ensures MSort.TotalPreorder(ActionLe)
  {
    hide Rank;
    forall a, b ensures ActionLe(a, b) || ActionLe(b, a) { RankInjective(a.kind, b.kind); }
  }

  ghost predicate SortedActions(ap: seq<Action>) {
    MSort.SortedBy(ap, ActionLe)
  }

  /** Action_sort */
  method ActionSort(ap: seq<Action>) returns (r: seq<Action>)
    requires |ap| < 0x4000_0000
    ensures SortedActions(r) && multiset(r) == multiset(ap)
  {
    r := MSort.SortSeq(ap, ActionLe);
    ActionLePreorder();
    MSort.SortCorrect(ap, ActionLe);
  }

  // ----- conflicts ---------------------------------------------------------------------------------

  /** The action will be generated (compute_action does not return a negative value). */
  predicate Active(k: Kind) {
    k in {SHIFT, ACCEPT, REDUCE, ERROR}
  }

  function SymPrec(g: Grammar, sp: nat): int {
    if sp < |g.prec| then g.prec[sp] else -1
  }

  /** The precedence symbol of a reduction. */
  function RulePrecsym(g: Grammar, r: nat): Option<nat> {
    if r < |g.rules| then g.rules[r].precsym else None
  }

  function SymAssoc(g: Grammar, sp: nat): Assoc {
    if sp < |g.assoc| then g.assoc[sp] else UNK
  }

  /** resolve_conflict: the new kinds of two actions on the same symbol, and the number of conflicts reported. */
  function Resolve(g: Grammar, x: Action, y: Action): (Kind, Kind, nat) {
    if x.kind == SHIFT && y.kind == SHIFT then (SHIFT, SSCONFLICT, 1)
    else if x.kind == SHIFT && y.kind == REDUCE then
      var spy := RulePrecsym(g, y.arg);
      if spy == None || SymPrec(g, x.sp) < 0 || SymPrec(g, spy.value) < 0 then (SHIFT, SRCONFLICT, 1)
      else if SymPrec(g, x.sp) > SymPrec(g, spy.value) then (SHIFT, RD_RESOLVED, 0)
      else if SymPrec(g, x.sp) < SymPrec(g, spy.value) then (SH_RESOLVED, REDUCE, 0)
      else if SymAssoc(g, x.sp) == RIGHT then (SHIFT, RD_RESOLVED, 0)
      else if SymAssoc(g, x.sp) == LEFT then (SH_RESOLVED, REDUCE, 0)
      else (SHIFT, SRCONFLICT, 1)
    else if x.kind == REDUCE && y.kind == REDUCE then
      var spx, spy := RulePrecsym(g, x.arg), RulePrecsym(g, y.arg);
      if spx == None || spy == None || SymPrec(g, spx.value) < 0 || SymPrec(g, spy.value) < 0
         || SymPrec(g, spx.value) == SymPrec(g, spy.value) then (REDUCE, RRCONFLICT, 1)
      else if SymPrec(g, spx.value) > SymPrec(g, spy.value) then (REDUCE, RD_RESOLVED, 0)
      else (RD_RESOLVED, REDUCE, 0)
    else (x.kind, y.kind, 0)
  }

  predicate Reported(k: Kind) {
    k in {SSCONFLICT, SRCONFLICT, RRCONFLICT}
  }

  predicate ByPrecedence(k: Kind) {
    k in {SH_RESOLVED, RD_RESOLVED}
  }

  /** Between two competing actions exactly one survives; the loser's mark tells whether it was reported. */
  lemma ResolveDecides(g: Grammar, x: Action, y: Action)
    requires x.kind in {SHIFT, REDUCE} && y.kind in {SHIFT, REDUCE} && Rank(x.kind) <= Rank(y.kind)
    ensures var (kx, ky, n) := Resolve(g, x, y);
            && (kx == x.kind <==> ky != y.kind)
            && (kx != x.kind ==> ByPrecedence(kx) && n == 0)
            && (ky != y.kind ==> (Reported(ky) && n == 1) || (ByPrecedence(ky) && n == 0))
  {
  }

  /** The precedence of the rule of a reduction, -1 where it has none. */
  function RedPrec(g: Grammar, y: Action): int {
    if y.arg < |g.rules| && g.rules[y.arg].precsym.Some? && g.rules[y.arg].precsym.value < |g.prec|
       && g.prec[g.rules[y.arg].precsym.value] >= 0
    then g.prec[g.rules[y.arg].precsym.value] else -1
  }

  /** The precedences give the token of shift x to reduction y. */
  predicate Overrules(g: Grammar, y: Action, x: Action) {
    && RedPrec(g, y) >= 0 && x.sp < |g.prec| && g.prec[x.sp] >= 0
    && (|| RedPrec(g, y) > g.prec[x.sp]
        || (RedPrec(g, y) == g.prec[x.sp] && x.sp < |g.assoc| && g.assoc[x.sp] == LEFT))
  }

  // ----- which action is left on a symbol -------------------------------------------------------------

  /** A list as FindActions builds it: shifts, reductions, and acceptance on a symbol of its own. */
  ghost predicate Unresolved(ap: seq<Action>) {
    && (forall k :: 0 <= k < |ap| ==> ap[k].kind in {SHIFT, ACCEPT, REDUCE})
    && (forall k, l :: 0 <= k < |ap| && 0 <= l < |ap| && k != l && ap[k].kind == ACCEPT ==> ap[l].sp != ap[k].sp)
  }

  /** The first and the last position of the stretch of actions on one symbol. */
  function Head(ap: seq<Action>, k: nat): (f: nat)
    requires k < |ap|
    ensures f <= k && ap[f].sp == ap[k].sp
  {
    if k > 0 && ap[k - 1].sp == ap[k].sp then Head(ap, k - 1) else k
  }

  function Last(ap: seq<Action>, k: nat): (e: nat)
    requires k < |ap|
    ensures k <= e < |ap| && ap[e].sp == ap[k].sp
    decreases |ap| - k
  {
    if k + 1 < |ap| && ap[k + 1].sp == ap[k].sp then Last(ap, k + 1) else k
  }

  lemma SameStretch(ap: seq<Action>, k: nat, l: nat)
    requires SortedActions(ap) && k <= l < |ap| && ap[k].sp == ap[l].sp
    ensures Head(ap, k) == Head(ap, l) && Last(ap, k) == Last(ap, l)
    decreases l - k
  {
    hide SortedActions;
    if k < l {
      SameBetween(ap, k, l);
      SameStretch(ap, k, l - 1);
      StretchStep(ap, l);
    }
  }

  lemma SameBetween(ap: seq<Action>, k: nat, l: nat)
    requires SortedActions(ap) && k < l < |ap| && ap[k].sp == ap[l].sp
    ensures ap[l - 1].sp == ap[l].sp
  {
    if k < l - 1 { assert ActionLe(ap[k], ap[l - 1]) && ActionLe(ap[l - 1], ap[l]); }
  }

  lemma StretchStep(ap: seq<Action>, l: nat)
    requires 0 < l < |ap| && ap[l - 1].sp == ap[l].sp
    ensures Head(ap, l) == Head(ap, l - 1) && Last(ap, l) == Last(ap, l - 1)
  {
  }

  /** Some reduction before position n overrules the shift at f. */
  ghost predicate Overruled(g: Grammar, ap: seq<Action>, n: nat, f: nat)
    requires f < |ap|
  {
    exists l :: 0 <= l < n && l < |ap| && ap[l].sp == ap[f].sp && ap[l].kind == REDUCE && Overrules(g, ap[l], ap[f])
  }

  /** k is the first reduction of highest precedence on its symbol, among the positions before n. */
  ghost predicate Highest(g: Grammar, ap: seq<Action>, n: nat, k: nat)
    requires k < |ap|
  {
    && ap[k].kind == REDUCE
    && forall l {:trigger ap[l]} :: 0 <= l < n && l < |ap| && ap[l].sp == ap[k].sp && ap[l].kind == REDUCE ==>
         RedPrec(g, ap[l]) <= RedPrec(g, ap[k]) && (l < k ==> RedPrec(g, ap[l]) < RedPrec(g, ap[k]))
  }

  /**
    Action k is the one that the precedences call for on its symbol, among those before
    position n.  The first action of the symbol is preferred, unless it is a shift that
    some reduction overrules, or a reduction with a precedence: then the first reduction
    of highest precedence is.
  */
  ghost predicate Preferred(g: Grammar, ap: seq<Action>, n: nat, k: nat)
    requires k < |ap|
  {
    var f := Head(ap, k);
    if (ap[f].kind == SHIFT && Overruled(g, ap, n, f)) || (ap[f].kind == REDUCE && RedPrec(g, ap[f]) >= 0)
    then Highest(g, ap, n, k)
    else k == f
  }

  /** The action that is left when the actions of a stretch have met in turn, up to position j. */
  function Champion(g: Grammar, ap: seq<Action>, j: nat): (w: nat)
    requires j < |ap|
    ensures w <= j && ap[w].sp == ap[j].sp
  {
    if j > 0 && ap[j - 1].sp == ap[j].sp then
      var w := Champion(g, ap, j - 1);
      if Resolve(g, ap[w], ap[j]).0 == ap[w].kind then w else j
    else j
  }

  /** A later champion is a later action, or still the same. */
  lemma {:induction false} ChampionMoves(g: Grammar, ap: seq<Action>, i: nat, j: nat)
    requires i <= j < |ap|
    ensures Champion(g, ap, i) <= Champion(g, ap, j)
    ensures Champion(g, ap, j) <= i ==> Champion(g, ap, j) == Champion(g, ap, i)
    decreases j
  {
    if i < j { ChampionMoves(g, ap, i, j - 1); }
  }

  lemma PreferredAlone(g: Grammar, ap: seq<Action>, j: nat)
    requires SortedActions(ap) && j < |ap| && Head(ap, j) == j
    ensures Preferred(g, ap, j + 1, j)
  {
    forall l | 0 <= l < j ensures ap[l].sp != ap[j].sp {
      if ap[l].sp == ap[j].sp { SameStretch(ap, l, j); }
    }
  }

  /** Meeting the next action of the stretch. */
  lemma PreferredMeets(g: Grammar, ap: seq<Action>, w: nat, j: nat)
    requires SortedActions(ap) && Unresolved(ap) && w < j < |ap| && ap[w].sp == ap[j].sp && Preferred(g, ap, j, w)
    ensures Preferred(g, ap, j + 1, if Resolve(g, ap[w], ap[j]).0 == ap[w].kind then w else j)
  {
    hide SortedActions;
    SameStretch(ap, w, j);
    var f := Head(ap, j);
    assert ap[f].kind != ACCEPT && ap[w].kind != ACCEPT && ap[j].kind != ACCEPT;
    if ap[j].kind == SHIFT {
      ShiftsFirst(ap, j);
    } else {
      if ap[w].kind == SHIFT {
        PreferredAfterShift(g, ap, w, j);
      } else {
        PreferredReduction(g, ap, w, j);
      }
    }
  }

  lemma ShiftsFirst(ap: seq<Action>, j: nat)
    requires SortedActions(ap) && j < |ap| && ap[j].kind == SHIFT
    ensures forall l :: 0 <= l < j && ap[l].sp == ap[j].sp ==> ap[l].kind == SHIFT
  {
    forall l | 0 <= l < j && ap[l].sp == ap[j].sp ensures ap[l].kind == SHIFT { assert ActionLe(ap[l], ap[j]); }
  }

  lemma PreferredAfterShift(g: Grammar, ap: seq<Action>, w: nat, j: nat)
    requires w < j < |ap| && ap[w].sp == ap[j].sp && Head(ap, w) == Head(ap, j) && Preferred(g, ap, j, w)
    requires ap[w].kind == SHIFT && ap[j].kind == REDUCE
    ensures Preferred(g, ap, j + 1, if Resolve(g, ap[w], ap[j]).0 == SHIFT then w else j)
  {
    assert w == Head(ap, j) && !Overruled(g, ap, j, w);
    assert Resolve(g, ap[w], ap[j]).0 == SHIFT <==> !Overrules(g, ap[j], ap[w]);
    if Overrules(g, ap[j], ap[w]) {
      assert Overruled(g, ap, j + 1, w);
      forall l | 0 <= l < j && ap[l].sp == ap[j].sp && ap[l].kind == REDUCE
        ensures RedPrec(g, ap[l]) < RedPrec(g, ap[j]) {
        assert !Overrules(g, ap[l], ap[w]);
      }
    }
  }

  lemma PreferredReduction(g: Grammar, ap: seq<Action>, w: nat, j: nat)
    requires w < j < |ap| && ap[w].sp == ap[j].sp && Head(ap, w) == Head(ap, j) && Preferred(g, ap, j, w)
    requires ap[w].kind == REDUCE && ap[j].kind == REDUCE && ap[Head(ap, j)].kind in {SHIFT, REDUCE}
    ensures Preferred(g, ap, j + 1, if Resolve(g, ap[w], ap[j]).0 == REDUCE then w else j)
  {
    var f := Head(ap, j);
    var x, y := RedPrec(g, ap[w]), RedPrec(g, ap[j]);
    assert Resolve(g, ap[w], ap[j]).0 == REDUCE <==> x < 0 || y <= x;
    if ap[f].kind == SHIFT {
      assert Overruled(g, ap, j, f) && Highest(g, ap, j, w);
      var l :| 0 <= l < j && ap[l].sp == ap[f].sp && ap[l].kind == REDUCE && Overrules(g, ap[l], ap[f]);
      assert x >= 0;
      assert Overruled(g, ap, j + 1, f);
    }
  }

  /** The champion of a stretch is the preferred action. */
  lemma {:induction false} ChampionPreferred(g: Grammar, ap: seq<Action>, j: nat)
    requires SortedActions(ap) && Unresolved(ap) && j < |ap|
    ensures Preferred(g, ap, j + 1, Champion(g, ap, j))
  {
    hide SortedActions, Unresolved, Preferred, Resolve;
    if j > 0 && ap[j - 1].sp == ap[j].sp {
      ChampionPreferred(g, ap, j - 1);
      PreferredMeets(g, ap, Champion(g, ap, j - 1), j);
    } else {
      PreferredAlone(g, ap, j);
    }
  }

  /** Only one action of a symbol is preferred. */
  lemma PreferredUnique(g: Grammar, ap: seq<Action>, n: nat, k: nat, l: nat)
    requires SortedActions(ap) && k < n <= |ap| && l < n && ap[k].sp == ap[l].sp
    requires Preferred(g, ap, n, k) && Preferred(g, ap, n, l)
    ensures k == l
  {
    hide SortedActions;
    if k < l { SameStretch(ap, k, l); } else { SameStretch(ap, l, k); }
  }

  /** Positions behind the stretch do not matter. */
  lemma PreferredWhole(g: Grammar, ap: seq<Action>, e: nat, k: nat)
    requires SortedActions(ap) && k < |ap| && e == Last(ap, k)
    ensures Preferred(g, ap, e + 1, k) <==> Preferred(g, ap, |ap|, k)
  {
    hide SortedActions, Overrules, RedPrec;
    forall l | e < l < |ap| ensures ap[l].sp != ap[k].sp {
      if ap[l].sp == ap[k].sp { SameStretch(ap, k, l); }
    }
  }

  /** The champion of the whole stretch is the preferred action, and no other. */
  lemma ChampionIffPreferred(g: Grammar, ap: seq<Action>, k: nat)
    requires SortedActions(ap) && Unresolved(ap) && k < |ap|
    ensures Champion(g, ap, Last(ap, k)) == k <==> Preferred(g, ap, |ap|, k)
  {
    hide SortedActions, Unresolved, Preferred, Champion;
    var e := Last(ap, k);
    var c := Champion(g, ap, e);
    SameStretch(ap, k, e);
    SameStretch(ap, c, e);
    ChampionPreferred(g, ap, e);
    PreferredWhole(g, ap, e, c);
    if Preferred(g, ap, |ap|, k) { PreferredUnique(g, ap, |ap|, k, c); }
  }

  // ----- the loop over a sorted list -----------------------------------------------------------------

  /** Only kinds have changed, and only into marks. */
  ghost predicate Marked(ap0: seq<Action>, ap: seq<Action>) {
    && |ap| == |ap0|
    && forall k {:trigger ap[k]} {:trigger ap0[k]} :: 0 <= k < |ap| ==>
         && ap[k].sp == ap0[k].sp && ap[k].arg == ap0[k].arg
         && (ap[k].kind == ap0[k].kind || Reported(ap[k].kind) || ByPrecedence(ap[k].kind))
  }

  /** Action w beats action k, which gets the mark: one of them is the action left when the other's turn comes. */
  ghost predicate Beats(g: Grammar, ap0: seq<Action>, w: nat, k: nat, mark: Kind) {
    && w < |ap0| && k < |ap0| && ap0[w].sp == ap0[k].sp
    && (|| (w < k && Champion(g, ap0, k - 1) == w && Resolve(g, ap0[w], ap0[k]).1 == mark)
        || (k < w && Champion(g, ap0, w - 1) == k && Resolve(g, ap0[k], ap0[w]).0 == mark))
  }

  /** Every dropped action was beaten by another on the same symbol. */
  ghost predicate Justified(g: Grammar, ap0: seq<Action>, ap: seq<Action>)
    requires |ap| == |ap0|
  {
    forall k: nat {:trigger ap[k]} :: k < |ap| && ap[k].kind != ap0[k].kind ==>
      exists w: nat :: Beats(g, ap0, w, k, ap[k].kind)
  }

  ghost predicate ActiveOn(ap: seq<Action>, w: nat, sp: nat) {
    w < |ap| && ap[w].sp == sp && Active(ap[w].kind)
  }

  ghost predicate HasActive(ap: seq<Action>, sp: nat) {
    exists w: nat :: ActiveOn(ap, w, sp)
  }

  /** Every symbol of the list has an active action. */
  ghost predicate SomeActive(ap: seq<Action>) {
    forall k :: 0 <= k < |ap| ==> HasActive(ap, ap[k].sp)
  }

  /** At most one active action on each symbol. */
  ghost predicate OneActive(ap: seq<Action>) {
    forall k, l {:trigger ap[k], ap[l]} ::
      0 <= k < l < |ap| && ap[k].sp == ap[l].sp && Active(ap[k].kind) ==> !Active(ap[l].kind)
  }

  /** The active actions are the preferred ones. */
  ghost predicate PreferredLeft(g: Grammar, ap0: seq<Action>, ap: seq<Action>)
    requires |ap| == |ap0|
  {
    forall k {:trigger ap[k]} :: 0 <= k < |ap| ==> (Active(ap[k].kind) <==> Preferred(g, ap0, |ap0|, k))
  }

  function CountReported(ap: seq<Action>): nat {
    if ap == [] then 0
    else CountReported(ap[..|ap| - 1]) + if Reported(ap[|ap| - 1].kind) then 1 else 0
  }

  lemma {:induction false} CountUpdate(ap: seq<Action>, k: nat, act: Action)
    requires k < |ap| && !Reported(ap[k].kind)
    ensures CountReported(ap[k := act]) == CountReported(ap) + if Reported(act.kind) then 1 else 0
  {
    var n := |ap| - 1;
    if k == n {
      assert ap[k := act][..n] == ap[..n];
    } else {
      CountUpdate(ap[..n], k, act);
      assert ap[k := act][..n] == ap[..n][k := act];
    }
  }

  /** What every comparison keeps. */
  ghost predicate LoopState(g: Grammar, ap0: seq<Action>, ap: seq<Action>, n: nat) {
    Marked(ap0, ap) && Justified(g, ap0, ap) && n == CountReported(ap)
  }

  /** Which actions are active when action i has met the actions up to j. */
  ghost predicate StillActive(g: Grammar, ap0: seq<Action>, i: nat, j: nat, k: nat)
    requires i < j <= |ap0| && k < |ap0|
  {
    if k < i then Champion(g, ap0, Last(ap0, k)) == k
    else if k == i then Champion(g, ap0, i) == i && Champion(g, ap0, j - 1) == i
    else if k < j then Champion(g, ap0, k) != Champion(g, ap0, i)
    else Champion(g, ap0, i) == i || Champion(g, ap0, k) != Champion(g, ap0, i)
  }

  ghost predicate Met(g: Grammar, ap0: seq<Action>, ap: seq<Action>, i: nat, j: nat)
    requires i < j <= |ap0| == |ap|
  {
    forall k: nat {:trigger ap[k]} :: k < |ap| ==> (Active(ap[k].kind) <==> StillActive(g, ap0, i, j, k))
  }

  /** Which actions are active when the actions before i have met all behind them. */
  ghost predicate MetAll(g: Grammar, ap0: seq<Action>, ap: seq<Action>, i: nat)
    requires i <= |ap0| == |ap|
  {
    forall k: nat {:trigger ap[k]} :: k < |ap| ==>
      (Active(ap[k].kind) <==>
        if k < i then Champion(g, ap0, Last(ap0, k)) == k
        else i == 0 || Champion(g, ap0, k) != Champion(g, ap0, i - 1))
  }

  function Drop(ap: seq<Action>, k: nat, mark: Kind): seq<Action>
    requires k < |ap|
  {
    ap[k := ap[k].(kind := mark)]
  }

  lemma DropKeepsJustified(g: Grammar, ap0: seq<Action>, ap: seq<Action>, w: nat, k: nat, mark: Kind)
    requires |ap| == |ap0| && Justified(g, ap0, ap) && k < |ap| && Beats(g, ap0, w, k, mark)
    ensures Justified(g, ap0, Drop(ap, k, mark))
  {
    hide Beats;
    var ap' := Drop(ap, k, mark);
    forall q: nat {:trigger ap'[q]} | q < |ap'| && ap'[q].kind != ap0[q].kind
      ensures exists v: nat :: Beats(g, ap0, v, q, ap'[q].kind) {
      if q != k { assert ap'[q] == ap[q]; }
    }
  }

  /** Dropping action k, which w beats, keeps what has been established. */
  lemma DropKeeps(g: Grammar, ap0: seq<Action>, ap: seq<Action>, n: nat, w: nat, k: nat, mark: Kind)
    requires LoopState(g, ap0, ap, n) && k < |ap| && Active(ap[k].kind)
    requires Reported(mark) || ByPrecedence(mark)
    requires Beats(g, ap0, w, k, mark)
    ensures LoopState(g, ap0, Drop(ap, k, mark), n + if Reported(mark) then 1 else 0)
  {
    hide Beats, Justified, CountReported;
    CountUpdate(ap, k, ap[k].(kind := mark));
    DropKeepsJustified(g, ap0, ap, w, k, mark);
  }

  // ----- the loops ------------------------------------------------------------------------------------

  /** Meeting action j changes only what is said of i and of j. */
  lemma MetDrop(g: Grammar, ap0: seq<Action>, a: seq<Action>, i: nat, j: nat, k: nat, mark: Kind)
    requires i < j < |ap0| == |a| && Met(g, ap0, a, i, j) && Active(a[i].kind) && (k == i || k == j) && !Active(mark)
    requires Champion(g, ap0, i) == i && Champion(g, ap0, j) == if k == i then j else i
    ensures Met(g, ap0, Drop(a, k, mark), i, j + 1)
  {
    hide Champion, Last;
    var ap := Drop(a, k, mark);
    forall q: nat {:trigger ap[q]} | q < |ap| ensures Active(ap[q].kind) <==> StillActive(g, ap0, i, j + 1, q) {
      assert q != k ==> ap[q] == a[q];
      assert Active(a[q].kind) <==> StillActive(g, ap0, i, j, q);
    }
  }

  /** One of the two has been dropped before. */
  lemma MetNothing(g: Grammar, ap0: seq<Action>, a: seq<Action>, i: nat, j: nat)
    requires i < j < |ap0| == |a| && Met(g, ap0, a, i, j) && !(Active(a[i].kind) && Active(a[j].kind))
    ensures Met(g, ap0, a, i, j + 1)
  {
    ChampionMoves(g, ap0, i, j - 1);
    ChampionMoves(g, ap0, j - 1, j);
    hide Champion, Last;
    assert Active(a[i].kind) <==> StillActive(g, ap0, i, j, i);
    assert Active(a[j].kind) <==> StillActive(g, ap0, i, j, j);
    forall q: nat {:trigger a[q]} | q < |a| ensures Active(a[q].kind) <==> StillActive(g, ap0, i, j + 1, q) {
      assert Active(a[q].kind) <==> StillActive(g, ap0, i, j, q);
    }
  }

  /** What resolve_conflict finds at i and j when both are active. */
  lemma PairFacts(g: Grammar, ap0: seq<Action>, a: seq<Action>, i: nat, j: nat, n: nat)
    requires Unresolved(ap0) && SortedActions(ap0) && LoopState(g, ap0, a, n)
    requires i < j < |a| && a[i].sp == a[j].sp && ap0[j - 1].sp == ap0[j].sp && Met(g, ap0, a, i, j)
    requires Active(a[i].kind) && Active(a[j].kind)
    ensures var (kx, ky, errcnt) := Resolve(g, a[i], a[j]);
            && Champion(g, ap0, i) == i && (kx == a[i].kind <==> ky != a[j].kind)
            && (kx != a[i].kind ==>
                  ByPrecedence(kx) && errcnt == 0 && Beats(g, ap0, j, i, kx) && Champion(g, ap0, j) == j)
            && (ky != a[j].kind ==>
                  && (Reported(ky) || ByPrecedence(ky)) && errcnt == (if Reported(ky) then 1 else 0)
                  && Beats(g, ap0, i, j, ky) && Champion(g, ap0, j) == i)
  {
    hide Justified, CountReported, Resolve;
    assert ActionLe(ap0[i], ap0[j]);
    assert a[i] == ap0[i] && a[j] == ap0[j];
    assert StillActive(g, ap0, i, j, i);
    ResolveDecides(g, a[i], a[j]);
  }

  /** Where one of the two is not active nothing happens. */
  lemma ResolveInactive(g: Grammar, x: Action, y: Action)
    requires !(Active(x.kind) && Active(y.kind))
    ensures Resolve(g, x, y) == (x.kind, y.kind, 0)
  {
  }

  /** The two actions at i and j, both on one symbol: resolve_conflict and its effect. */
  method ResolveAt(g: Grammar, ghost ap0: seq<Action>, a: seq<Action>, i: nat, j: nat, n0: nat)
    returns (ap: seq<Action>, n: nat)
    requires Unresolved(ap0) && SortedActions(ap0) && LoopState(g, ap0, a, n0)
    requires i < j < |a| == |ap0| && a[i].sp == a[j].sp && ap0[j - 1].sp == ap0[j].sp && Met(g, ap0, a, i, j)
    ensures |ap| == |a| && LoopState(g, ap0, ap, n) && Met(g, ap0, ap, i, j + 1)
    ensures forall k :: 0 <= k < |ap| ==> ap[k].sp == a[k].sp
  {
    hide LoopState, Unresolved, SortedActions, Beats, Resolve, Met, Champion;
    var (kx, ky, errcnt) := Resolve(g, a[i], a[j]);
    ap, n := a, n0 + errcnt;
    if Active(a[i].kind) && Active(a[j].kind) {
      PairFacts(g, ap0, a, i, j, n0);
    } else {
      ResolveInactive(g, a[i], a[j]);
      MetNothing(g, ap0, a, i, j);
    }
    if kx != a[i].kind {
      DropKeeps(g, ap0, a, n0, j, i, kx);
      MetDrop(g, ap0, a, i, j, i, kx);
      ap := Drop(ap, i, kx);
    } else if ky != a[j].kind {
      DropKeeps(g, ap0, a, n0, i, j, ky);
      MetDrop(g, ap0, a, i, j, j, ky);
      ap := Drop(ap, j, ky);
    }
  }

  lemma MetStarts(g: Grammar, ap0: seq<Action>, ap: seq<Action>, i: nat)
    requires i < |ap0| == |ap| && MetAll(g, ap0, ap, i)
    ensures Met(g, ap0, ap, i, i + 1)
  {
    if i > 0 { ChampionMoves(g, ap0, i - 1, i); }
    forall k: nat {:trigger ap[k]} | k < |ap| ensures Active(ap[k].kind) <==> StillActive(g, ap0, i, i + 1, k) {
      if i < k { ChampionMoves(g, ap0, i, k); }
    }
  }

  /** The end of a stretch: action i has met all actions behind it. */
  lemma MetEnds(g: Grammar, ap0: seq<Action>, ap: seq<Action>, i: nat, j: nat)
    requires i < j <= |ap0| == |ap| && Met(g, ap0, ap, i, j) && j - 1 == Last(ap0, i)
    ensures MetAll(g, ap0, ap, i + 1)
  {
    hide Champion, Last, StillActive;
    assert j < |ap0| ==> Champion(g, ap0, j) == j by { StretchEnds(g, ap0, i); }
    forall k: nat {:trigger ap[k]} | k < |ap|
      ensures Active(ap[k].kind) <==>
        if k < i + 1 then Champion(g, ap0, Last(ap0, k)) == k else Champion(g, ap0, k) != Champion(g, ap0, i) {
      assert Active(ap[k].kind) <==> StillActive(g, ap0, i, j, k);
      StillActiveAtEnd(g, ap0, i, j, k);
    }
  }

  lemma StretchEnds(g: Grammar, ap: seq<Action>, i: nat)
    requires i < |ap|
    ensures Last(ap, i) + 1 < |ap| ==> Champion(g, ap, Last(ap, i) + 1) == Last(ap, i) + 1
  {
    LastEnds(ap, i);
  }

  lemma StillActiveAtEnd(g: Grammar, ap: seq<Action>, i: nat, j: nat, k: nat)
    requires i < j <= |ap| && j - 1 == Last(ap, i) && k < |ap| && (j < |ap| ==> Champion(g, ap, j) == j)
    ensures StillActive(g, ap, i, j, k) <==>
      if k < i + 1 then Champion(g, ap, Last(ap, k)) == k else Champion(g, ap, k) != Champion(g, ap, i)
  {
    hide Champion, Last;
    ChampionMoves(g, ap, i, j - 1);
    if k >= j { ChampionMoves(g, ap, j, k); }
  }

  lemma {:induction false} LastEnds(ap: seq<Action>, k: nat)
    requires k < |ap|
    ensures Last(ap, k) + 1 < |ap| ==> ap[Last(ap, k) + 1].sp != ap[Last(ap, k)].sp
    ensures Last(ap, Last(ap, k)) == Last(ap, k)
    decreases |ap| - k
  {
    if k + 1 < |ap| && ap[k + 1].sp == ap[k].sp { LastEnds(ap, k + 1); }
  }

  /** When all actions have met, those left are the preferred ones, one on each symbol. */
  lemma AllMet(g: Grammar, ap0: seq<Action>, ap: seq<Action>, i: nat)
    requires SortedActions(ap0) && Unresolved(ap0) && Marked(ap0, ap) && i <= |ap| <= i + 1 && MetAll(g, ap0, ap, i)
    ensures PreferredLeft(g, ap0, ap) && SomeActive(ap) && OneActive(ap)
  {
    hide SortedActions, Unresolved, Preferred, HasActive, Champion;
    forall k: nat {:trigger ap[k]} | k < |ap| ensures Active(ap[k].kind) <==> Preferred(g, ap0, |ap0|, k) {
      LeftIsChampion(g, ap0, ap, i, k);
      ChampionIffPreferred(g, ap0, k);
    }
    forall k | 0 <= k < |ap| ensures HasActive(ap, ap[k].sp) {
      ChampionIsLeft(g, ap0, ap, i, k);
    }
    forall k, l {:trigger ap[k], ap[l]} | 0 <= k < l < |ap| && ap[k].sp == ap[l].sp && Active(ap[k].kind)
      ensures !Active(ap[l].kind) {
      if Active(ap[l].kind) { PreferredUnique(g, ap0, |ap0|, k, l); }
    }
  }

  lemma LeftIsChampion(g: Grammar, ap0: seq<Action>, ap: seq<Action>, i: nat, k: nat)
    requires |ap| == |ap0| && k < |ap| && i <= |ap| <= i + 1 && MetAll(g, ap0, ap, i)
    ensures Active(ap[k].kind) <==> Champion(g, ap0, Last(ap0, k)) == k
  {
    if k == i && i > 0 { ChampionMoves(g, ap0, i - 1, i); }
  }

  lemma ChampionIsLeft(g: Grammar, ap0: seq<Action>, ap: seq<Action>, i: nat, k: nat)
    requires SortedActions(ap0) && Marked(ap0, ap) && k < |ap| && i <= |ap| <= i + 1 && MetAll(g, ap0, ap, i)
    ensures HasActive(ap, ap[k].sp)
  {
    hide SortedActions, MetAll;
    var e := Last(ap0, k);
    var c := Champion(g, ap0, e);
    SameStretch(ap0, k, e);
    SameStretch(ap0, c, e);
    LeftIsChampion(g, ap0, ap, i, c);
    assert ActiveOn(ap, c, ap[k].sp);
  }

  /**
    Resolve the conflicts of a sorted list.  Every symbol keeps exactly one active
    action, the one that the precedences call for; every other action has been beaten
    by an action on the same symbol; and the number returned counts the actions dropped
    without a precedence to decide.
  */
  method ResolveConflicts(g: Grammar, ap0: seq<Action>) returns (ap: seq<Action>, nconflict: nat)
    requires Unresolved(ap0) && SortedActions(ap0)
    ensures Marked(ap0, ap) && Justified(g, ap0, ap)
    ensures PreferredLeft(g, ap0, ap) && SomeActive(ap) && OneActive(ap)
    ensures nconflict == CountReported(ap)
  {
    hide LoopState, Unresolved, SortedActions, Met, MetAll, PreferredLeft, SomeActive, OneActive;
    ap, nconflict := ap0, 0;
    LoopStarts(g, ap0);
    var i := 0;
    while i + 1 < |ap|
      invariant 0 <= i <= |ap| == |ap0|
      invariant LoopState(g, ap0, ap, nconflict) && MetAll(g, ap0, ap, i)
      invariant forall k :: 0 <= k < |ap| ==> ap[k].sp == ap0[k].sp
    {
      var j := i + 1;
      MetStarts(g, ap0, ap, i);
      while j < |ap| && ap[j].sp == ap[i].sp
        invariant i < j <= |ap| == |ap0| && ap0[j - 1].sp == ap0[i].sp && Last(ap0, j - 1) == Last(ap0, i)
        invariant LoopState(g, ap0, ap, nconflict) && Met(g, ap0, ap, i, j)
        invariant forall k :: 0 <= k < |ap| ==> ap[k].sp == ap0[k].sp
      {
        ap, nconflict := ResolveAt(g, ap0, ap, i, j, nconflict);
        j := j + 1;
      }
      MetEnds(g, ap0, ap, i, j);
      i := i + 1;
    }
    LoopEnds(g, ap0, ap, i, nconflict);
  }

  lemma LoopStarts(g: Grammar, ap0: seq<Action>)
    requires Unresolved(ap0)
    ensures LoopState(g, ap0, ap0, 0) && MetAll(g, ap0, ap0, 0)
  {
    NoneReported(ap0);
  }

  lemma {:induction false} NoneReported(ap: seq<Action>)
    requires forall k :: 0 <= k < |ap| ==> !Reported(ap[k].kind)
    ensures CountReported(ap) == 0
  {
    if ap != [] { NoneReported(ap[..|ap| - 1]); }
  }

  lemma LoopEnds(g: Grammar, ap0: seq<Action>, ap: seq<Action>, i: nat, n: nat)
    requires SortedActions(ap0) && Unresolved(ap0) && LoopState(g, ap0, ap, n)
    requires |ap| == |ap0| && i <= |ap| <= i + 1 && MetAll(g, ap0, ap, i)
    ensures Marked(ap0, ap) && Justified(g, ap0, ap) && n == CountReported(ap)
    ensures PreferredLeft(g, ap0, ap) && SomeActive(ap) && OneActive(ap)
  {
    hide Unresolved, SortedActions, MetAll, PreferredLeft, SomeActive, OneActive, Justified, CountReported;
    AllMet(g, ap0, ap, i);
  }

  lemma {:induction false} CountZero(ap: seq<Action>, k: nat)
    requires CountReported(ap) == 0 && k < |ap|
    ensures !Reported(ap[k].kind)
  {
    if k < |ap| - 1 { CountZero(ap[..|ap| - 1], k); }
  }

  /** If no conflict was counted, every dropped action was dropped by precedence or associativity. */
  lemma NoConflictMeansPrecedence(g: Grammar, ap0: seq<Action>, ap: seq<Action>, k: nat)
    requires Marked(ap0, ap) && CountReported(ap) == 0 && k < |ap|
    ensures ap[k].kind != ap0[k].kind ==> ByPrecedence(ap[k].kind)
  {
    CountZero(ap, k);
  }

  /** The only shift of a symbol is left if and only if no reduction on the symbol overrules it. */
  lemma ShiftLeftIff(g: Grammar, ap0: seq<Action>, ap: seq<Action>, k: nat)
    requires SortedActions(ap0) && |ap| == |ap0| && Marked(ap0, ap) && PreferredLeft(g, ap0, ap)
    requires k < |ap0| && ap0[k].kind == SHIFT
    requires forall l :: 0 <= l < |ap0| && ap0[l].kind == SHIFT && ap0[l].sp == ap0[k].sp ==> ap0[l] == ap0[k]
    ensures Holds(ap, ap0[k]) <==> !Overruled(g, ap0, |ap0|, k)
  {
    hide SortedActions, Overrules, Head, Marked;
    ShiftsFirst(ap0, k);
    var f := Head(ap0, k);
    SameStretch(ap0, f, k);
    assert ap0[f] == ap0[k];
    if Holds(ap, ap0[k]) {
      var q :| 0 <= q < |ap| && ap[q] == ap0[k];
      MarkedActive(ap0, ap, q);
      if q < f { SameStretch(ap0, q, f); } else { SameStretch(ap0, f, q); }
      assert Preferred(g, ap0, |ap0|, q);
    }
    if !Overruled(g, ap0, |ap0|, k) {
      assert Preferred(g, ap0, |ap0|, f);
      assert Active(ap[f].kind);
      MarkedActive(ap0, ap, f);
      assert ap[f] in ap;
    }
  }

  /** An active action of the resolved list has not been changed. */
  lemma MarkedActive(ap0: seq<Action>, ap: seq<Action>, k: nat)
    requires Marked(ap0, ap) && k < |ap| && Active(ap[k].kind)
    ensures ap[k] == ap0[k]
  {
  }

  // ----- a sorted list has one active action on a symbol wherever it had one before ------------------

  lemma {:induction false} CountTwice(xs: seq<Action>, x: Action)
    ensures multiset(xs)[x] >= 2 <==> exists i, j :: 0 <= i < j < |xs| && xs[i] == x && xs[j] == x
    ensures multiset(xs)[x] >= 1 <==> x in xs
  {
    if xs != [] {
      var n := |xs| - 1;
      var front, last := xs[..n], xs[n];
      CountTwice(front, x);
      assert xs == front + [last];
      if multiset(xs)[x] >= 2 {
        if last == x {
          assert x in front;
          var i :| 0 <= i < n && front[i] == x;
          assert 0 <= i < n < |xs| && xs[i] == x && xs[n] == x;
        } else {
          var i, j :| 0 <= i < j < n && front[i] == x && front[j] == x;
          assert 0 <= i < j < |xs| && xs[i] == x && xs[j] == x;
        }
      }
      if exists i, j :: 0 <= i < j < |xs| && xs[i] == x && xs[j] == x {
        var i, j :| 0 <= i < j < |xs| && xs[i] == x && xs[j] == x;
        assert front[i] == x;
        if j < n { assert front[j] == x; }
      }
    }
  }

  /** OneActive, said without positions. */
  ghost predicate OneActiveEach(ap: seq<Action>) {
    && (forall x, y :: x in ap && y in ap && x.sp == y.sp && Active(x.kind) && Active(y.kind) ==> x == y)
    && (forall x :: x in ap && Active(x.kind) ==> multiset(ap)[x] < 2)
  }

  lemma OneActiveSaid(ap: seq<Action>)
    ensures OneActive(ap) <==> OneActiveEach(ap)
  {
    forall x | x in ap { CountTwice(ap, x); }
    if OneActive(ap) {
      forall x, y | x in ap && y in ap && x.sp == y.sp && Active(x.kind) && Active(y.kind) ensures x == y {
        var i :| 0 <= i < |ap| && ap[i] == x;
        var j :| 0 <= j < |ap| && ap[j] == y;
      }
    }
    if OneActiveEach(ap) {
      forall k, l {:trigger ap[k], ap[l]} | 0 <= k < l < |ap| && ap[k].sp == ap[l].sp && Active(ap[k].kind)
        ensures !Active(ap[l].kind) {
        CountTwice(ap, ap[k]);
        assert ap[k] in ap && ap[l] in ap;
      }
    }
  }

  lemma OneActivePermuted(a: seq<Action>, b: seq<Action>)
    requires OneActive(a) && multiset(a) == multiset(b)
    ensures OneActive(b)
  {
    hide OneActive;
    OneActiveSaid(a);
    OneActiveSaid(b);
    Permuted(a, b);
  }

  // ----- CompressTables -----------------------------------------------------------------------------------

  /** The reductions by rule r from position i on. */
  function CountFrom(ap: seq<Action>, i: nat, r: nat): nat
    requires i <= |ap|
    decreases |ap| - i
  {
    if i == |ap| then 0
    else CountFrom(ap, i + 1, r) + if ap[i].kind == REDUCE && ap[i].arg == r then 1 else 0
  }

  predicate StartRule(g: Grammar, r: nat) {
    r < |g.rules| && g.rules[r].lhs == g.start
  }

  lemma {:induction false} CountBefore(ap: seq<Action>, i: nat, r: nat)
    requires i <= |ap|
    ensures CountFrom(ap, i, r) <= CountFrom(ap, 0, r)
    ensures (exists k :: 0 <= k < i && ap[k].kind == REDUCE && ap[k].arg == r) ==>
      CountFrom(ap, i, r) < CountFrom(ap, 0, r)
    ensures (forall k :: 0 <= k < i ==> !(ap[k].kind == REDUCE && ap[k].arg == r)) ==>
      CountFrom(ap, i, r) == CountFrom(ap, 0, r)
  {
    if i > 0 { CountBefore(ap, i - 1, r); }
  }

  /** Rule r is reduced at position k or before. */
  ghost predicate Appears(ap: seq<Action>, k: nat, r: nat)
    requires k < |ap|
  {
    exists j :: 0 <= j <= k && ByRule(ap[j], r)
  }

  /**
    Among the rules that do not belong to the start symbol r is reduced most often, and
    first of those that are reduced as often.
  */
  ghost predicate MostFrequent(g: Grammar, ap: seq<Action>, n: nat, r: nat)
    requires n <= |ap|
  {
    forall k {:trigger ap[k]} :: 0 <= k < n && ap[k].kind == REDUCE && !StartRule(g, ap[k].arg) ==>
      && CountFrom(ap, 0, ap[k].arg) <= CountFrom(ap, 0, r)
      && (CountFrom(ap, 0, ap[k].arg) == CountFrom(ap, 0, r) ==> Appears(ap, k, r))
  }

  ghost predicate NothingToDefault(g: Grammar, ap: seq<Action>, n: nat)
    requires n <= |ap|
  {
    forall k {:trigger ap[k]} :: 0 <= k < n && ap[k].kind == REDUCE ==> StartRule(g, ap[k].arg)
  }

  /** Count the reductions by one rule: the inner loop of CompressTables. */
  method CountRule(ap: seq<Action>, i: nat) returns (n: nat)
    requires i < |ap| && ap[i].kind == REDUCE
    ensures n == CountFrom(ap, i, ap[i].arg)
  {
    n := 1;
    var j := i + 1;
    ghost var r := ap[i].arg;
    while j < |ap|
      invariant i < j <= |ap|
      invariant n + CountFrom(ap, j, r) == CountFrom(ap, i, r)
    {
      if ap[j].kind == REDUCE && ap[j].arg == ap[i].arg { n := n + 1; }
      j := j + 1;
    }
  }

  /** The most frequent reduction of the list. */
  method BestRule(g: Grammar, ap: seq<Action>) returns (rbest: Option<nat>, nbest: nat)
    ensures rbest == None ==> NothingToDefault(g, ap, |ap|)
    ensures rbest.Some? ==> !StartRule(g, rbest.value) && MostFrequent(g, ap, |ap|, rbest.value)
    ensures rbest.Some? ==> nbest >= 1 && exists k :: 0 <= k < |ap| && ap[k].kind == REDUCE && ap[k].arg == rbest.value
  {
    rbest, nbest := None, 0;
    for i := 0 to |ap|
      invariant rbest == None ==> nbest == 0 && NothingToDefault(g, ap, i)
      invariant rbest.Some? ==>
        !StartRule(g, rbest.value) && MostFrequent(g, ap, i, rbest.value) && nbest == CountFrom(ap, 0, rbest.value)
      invariant rbest.Some? ==>
        nbest >= 1 && exists k :: 0 <= k < i && ap[k].kind == REDUCE && ap[k].arg == rbest.value
    {
      if ap[i].kind != REDUCE { continue; }
      var rp := ap[i].arg;
      if StartRule(g, rp) { continue; }
      if rbest == Some(rp) { continue; }
      var n := CountRule(ap, i);
      CountBefore(ap, i, rp);
      if n > nbest {
        assert forall k :: 0 <= k < i ==> !(ap[k].kind == REDUCE && ap[k].arg == rp);
        nbest, rbest := n, Some(rp);
      }
    }
  }

  function DefaultAction(g: Grammar, r: nat): Action {
    Action(g.nsymbol, REDUCE, r)
  }

  predicate ByRule(act: Action, r: nat) {
    act.kind == REDUCE && act.arg == r
  }

  /** The first reduction by r becomes the default, the others are marked unused. */
  ghost predicate Defaulted(g: Grammar, ap0: seq<Action>, ap: seq<Action>, r: nat, d: nat) {
    && |ap| == |ap0| && d < |ap0| && ByRule(ap0[d], r) && ap[d] == DefaultAction(g, r)
    && (forall k {:trigger ap[k]} {:trigger ap0[k]} :: 0 <= k < |ap| && k != d ==>
          ap[k] == if ByRule(ap0[k], r) then ap0[k].(kind := NOT_USED) else ap0[k])
  }

  method MakeDefault(g: Grammar, ap0: seq<Action>, r: nat) returns (ap: seq<Action>)
    requires exists k :: 0 <= k < |ap0| && ap0[k].kind == REDUCE && ap0[k].arg == r
    ensures exists d: nat :: Defaulted(g, ap0, ap, r, d)
  {
    var i := 0;
    while !(ap0[i].kind == REDUCE && ap0[i].arg == r)
      invariant i < |ap0| && forall k :: 0 <= k < i ==> !ByRule(ap0[k], r)
      decreases |ap0| - i
    {
      i := i + 1;
    }
    ghost var d: nat := i;
    ap := ap0[i := ap0[i].(sp := g.nsymbol)];
    i := i + 1;
    while i < |ap|
      invariant d < i <= |ap| == |ap0| && ap[d] == DefaultAction(g, r)
      invariant forall k :: 0 <= k < i && k != d ==>
        ap[k] == if ByRule(ap0[k], r) then ap0[k].(kind := NOT_USED) else ap0[k]
      invariant forall k :: i <= k < |ap| ==> ap[k] == ap0[k]
    {
      if ap[i].kind == REDUCE && ap[i].arg == r { ap := ap[i := ap[i].(kind := NOT_USED)]; }
      i := i + 1;
    }
    assert Defaulted(g, ap0, ap, r, d);
  }

  lemma DefaultedOneActive(g: Grammar, ap0: seq<Action>, ap: seq<Action>, r: nat, d: nat)
    requires Defaulted(g, ap0, ap, r, d) && OneActive(ap0) && forall k :: 0 <= k < |ap0| ==> ap0[k].sp < g.nsymbol
    ensures OneActive(ap)
  {
    forall k, l {:trigger ap[k], ap[l]} | 0 <= k < l < |ap| && ap[k].sp == ap[l].sp && Active(ap[k].kind)
      ensures !Active(ap[l].kind) {
      assert k != d ==> ap[k].sp == ap0[k].sp;
      assert l != d ==> ap[l].sp == ap0[l].sp;
    }
  }

  /** The active actions are those of the old list except the reductions by r, and the default. */
  ghost predicate Folded(g: Grammar, ap0: seq<Action>, ap: seq<Action>, r: nat) {
    forall act: Action :: Active(act.kind) ==>
      (act in ap <==> (act in ap0 && !ByRule(act, r)) || act == DefaultAction(g, r))
  }

  lemma DefaultedFolds(g: Grammar, ap0: seq<Action>, ap: seq<Action>, r: nat, d: nat)
    requires Defaulted(g, ap0, ap, r, d) && forall k :: 0 <= k < |ap0| ==> ap0[k].sp < g.nsymbol
    ensures Folded(g, ap0, ap, r)
  {
    forall act: Action | Active(act.kind)
      ensures act in ap <==> (act in ap0 && !ByRule(act, r)) || act == DefaultAction(g, r) {
      if act in ap {
        var k :| 0 <= k < |ap| && ap[k] == act;
        assert k != d ==> ap0[k] in ap0;
      }
      if act in ap0 && !ByRule(act, r) {
        var k :| 0 <= k < |ap0| && ap0[k] == act;
        assert ap[k] == act;
      }
    }
  }

  /** What compression does to the list of a state. */
  ghost predicate Compressed(g: Grammar, ap0: seq<Action>, ap: seq<Action>, rbest: Option<nat>) {
    match rbest
    case None => ap == ap0 && NothingToDefault(g, ap0, |ap0|)
    case Some(r) =>
      && !StartRule(g, r) && MostFrequent(g, ap0, |ap0|, r) && Folded(g, ap0, ap, r)
      && exists act :: act in ap0 && ByRule(act, r)
  }

  /** CompressTables for one state, without a wildcard token. */
  method Compress(g: Grammar, ap0: seq<Action>) returns (ap: seq<Action>, ghost rbest: Option<nat>)
    requires OneActive(ap0) && |ap0| < 0x4000_0000
    requires forall k :: 0 <= k < |ap0| ==> ap0[k].sp < g.nsymbol
    ensures Compressed(g, ap0, ap, rbest) && OneActive(ap) && |ap| == |ap0|
  {
    hide OneActive, Defaulted, NothingToDefault, MostFrequent;
    var best, nbest := BestRule(g, ap0);
    rbest := best;
    if best == None { return ap0, None; }
    ap := MakeDefault(g, ap0, best.value);
    ghost var d: nat :| Defaulted(g, ap0, ap, best.value, d);
    DefaultedOneActive(g, ap0, ap, best.value, d);
    DefaultedFolds(g, ap0, ap, best.value, d);
    ghost var ap1 := ap;
    DefaultedLength(g, ap0, ap1, best.value, d);
    ap := ActionSort(ap);
    OneActivePermuted(ap1, ap);
    Permuted(ap1, ap);
    var k :| 0 <= k < |ap0| && ap0[k].kind == REDUCE && ap0[k].arg == best.value;
    assert ap0[k] in ap0 && ByRule(ap0[k], best.value);
  }

  lemma DefaultedLength(g: Grammar, ap0: seq<Action>, ap: seq<Action>, r: nat, d: nat)
    requires Defaulted(g, ap0, ap, r, d)
    ensures |ap| == |ap0|
  {
  }

  // ----- what a list does ------------------------------------------------------------------------------------

  /** The action the list holds for a symbol. */
  ghost predicate Holds(ap: seq<Action>, act: Action) {
    act in ap && Active(act.kind)
  }

  /** The action taken on terminal a: the one for a, else the default. */
  ghost predicate Takes(g: Grammar, ap: seq<Action>, a: nat, act: Action) {
    || Holds(ap, act.(sp := a))
    || ((forall x :: Holds(ap, x) ==> x.sp != a) && Holds(ap, act.(sp := g.nsymbol)))
  }

  /**
    Compression keeps the action of every symbol that has one, explicitly or through
    the default; a symbol that had none gets at most the default reduction, which
    never is a reduction to the start symbol.
  */
  lemma CompressionKeeps(g: Grammar, ap0: seq<Action>, ap: seq<Action>, rbest: Option<nat>, a: nat, act: Action)
    requires Compressed(g, ap0, ap, rbest) && OneActive(ap0) && OneActive(ap) && a < g.nsymbol
    requires forall k :: 0 <= k < |ap0| ==> ap0[k].sp < g.nsymbol
    requires act.sp == a
    ensures Holds(ap0, act) ==> Takes(g, ap, a, act)
    ensures Takes(g, ap, a, act) && !Holds(ap0, act) ==>
              && act.kind == REDUCE && !StartRule(g, act.arg) && rbest == Some(act.arg)
              && forall x :: Holds(ap0, x) ==> x.sp != a
  {
    hide OneActive, MostFrequent, NothingToDefault;
    OneActiveSaid(ap0);
    OneActiveSaid(ap);
    forall x | x in ap0 ensures x.sp < g.nsymbol { }
    assert act.(sp := a) == act;
    if Holds(ap0, act) && rbest.Some? && ByRule(act, rbest.value) {
      forall x | Holds(ap, x) ensures x.sp != a {
        assert (x in ap0 && !ByRule(x, rbest.value)) || x == DefaultAction(g, rbest.value);
      }
    }
  }
}
