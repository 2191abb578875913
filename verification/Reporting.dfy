/**
  Which syntax errors the driver reports, said of the tokens it was fed: those it
  shifted and those it dropped.
*/
module Reporting {
  import opened Grammars
  import opened Automata
  import opened Lempar
  import opened Soundness

  // ----- the history of a parse ---------------------------------------------------------------------

  /** For each token fed, whether it was shifted. */
  ghost function History(t: Tables, c: Conf, w: seq<nat>, fuel: nat): (h: seq<bool>)
    requires Shaped(t) && Feed(t, c, w, fuel).Some? && Feed(t, c, w, fuel).value.Next?
    ensures |h| == |w|
    decreases |w|
  {
    if w == [] then []
    else
      var d := Call(t, c, w[0], fuel).value.conf;
      [|d.shifted| > |Start(c).shifted|] + History(t, d, w[1..], fuel)
  }

  /** The last error of the history came at position j. */
  predicate LastError(h: seq<bool>, j: nat) {
    j < |h| && !h[j] && forall k :: j < k < |h| ==> h[k]
  }

  predicate NoError(h: seq<bool>) {
    forall k :: 0 <= k < |h| ==> h[k]
  }

  /** A report is due: there was no error yet, or at least three tokens have been shifted since the last one. */
  ghost predicate Due(h: seq<bool>) {
    NoError(h) || exists j: nat :: LastError(h, j) && |h| - (j + 1) >= 3
  }

  // ----- what the counter keeps ----------------------------------------------------------------------

  ghost predicate Counts(h: seq<bool>, errcnt: int) {
    (NoError(h) && errcnt <= 0) || exists j: nat :: LastError(h, j) && errcnt == 3 - (|h| - (j + 1))
  }

  lemma CountsDue(h: seq<bool>, errcnt: int)
    requires Counts(h, errcnt)
    ensures errcnt <= 0 <==> Due(h)
  {
    if !NoError(h) {
      var j: nat :| LastError(h, j) && errcnt == 3 - (|h| - (j + 1));
      forall i: nat | LastError(h, i) ensures i == j { OneLast(h, i, j); }
    }
  }

  lemma OneLast(h: seq<bool>, i: nat, j: nat)
    ensures LastError(h, i) && LastError(h, j) ==> i == j
  {
  }

  lemma CountsShift(h: seq<bool>, errcnt: int)
    requires Counts(h, errcnt)
    ensures Counts(h + [true], errcnt - 1)
  {
    if j: nat :| LastError(h, j) && errcnt == 3 - (|h| - (j + 1)) {
      assert LastError(h + [true], j);
    }
  }

  lemma CountsError(h: seq<bool>)
    ensures Counts(h + [false], 3)
  {
    assert LastError(h + [false], |h|);
  }

  /** What one call does to the counters. */
  lemma {:induction false} LoopCounts(t: Tables, c: Conf, a: nat, fuel: nat)
    requires Shaped(t) && Loop(t, c, a, fuel).Some? && Loop(t, c, a, fuel).value.Next?
    ensures var d := Loop(t, c, a, fuel).value.conf;
            || (d.errors == c.errors && d.reported == c.reported && d.errcnt == c.errcnt - 1 && d.stack != []
                && d.shifted == c.shifted + [a])
            || (d.errors == c.errors && d.reported == c.reported && d.stack == [] && d.shifted == c.shifted)
            || (d.errors == c.errors + 1 && d.errcnt == 3 && d.shifted == c.shifted
                && d.reported == c.reported + if c.errcnt <= 0 then 1 else 0)
    decreases fuel
  {
    hide FindShiftAction, ReduceDefined, FindReduceAction;
    var o := Step(t, c, a);
    if o.major != None && o.conf.stack != [] {
      StepMajor(t, c, a);
      LoopCounts(t, o.conf, a, fuel - 1);
    }
  }

  /** Along the tokens the counter follows the history. */
  lemma {:induction false} FeedCounts(g: Grammar, m: Machine, t: Tables, c: Conf, h: seq<bool>, w: seq<nat>, fuel: nat)
    requires g.WellFormed() && IsLR0(g, m) && TablesFit(g, m, t) && ConfOk(g, m, c) && c.stack != []
    requires forall i :: 0 <= i < |w| ==> g.IsToken(w[i])
    requires Counts(h, c.errcnt) && Feed(t, c, w, fuel).Some?
    ensures Feed(t, c, w, fuel).value.Next?
    ensures var d := Feed(t, c, w, fuel).value.conf;
            ConfOk(g, m, d) && d.stack != [] && Counts(h + History(t, c, w, fuel), d.errcnt)
    decreases |w|
  {
    hide ConfOk, IsLR0, TablesFit, Loop, Counts;
    TablesFitShape(g, m, t);
    if w == [] {
      assert h + [] == h;
    } else {
      LoopKeeps(g, m, t, c, w[0], fuel);
      var d := Loop(t, c, w[0], fuel).value.conf;
      LoopCounts(t, c, w[0], fuel);
      var b := |d.shifted| > |c.shifted|;
      if b { CountsShift(h, c.errcnt); } else { CountsError(h); }
      FeedCounts(g, m, t, d, h + [b], w[1..], fuel);
      assert h + [b] + History(t, d, w[1..], fuel) == h + ([b] + History(t, d, w[1..], fuel));
    }
  }

  /**
    A syntax error is reported if and only if a report is due: fed any tokens after the
    start of a parse, and then one more token or the end marker, the driver counts an
    error if it drops it, and reports the error if there was none before, or if at least
    three tokens have been shifted since the last one.
  */
  lemma ReportedIff(g: Grammar, m: Machine, t: Tables, c: Conf, w: seq<nat>, a: nat, fuel: nat)
    requires g.WellFormed() && IsLR0(g, m) && TablesFit(g, m, t) && ConfOk(g, m, c) && c.stack == []
    requires (forall i :: 0 <= i < |w| ==> g.IsToken(w[i])) && a < g.nterminal
    ensures Shaped(t)
    ensures Feed(t, Start(c), w, fuel).Some? ==>
              && Feed(t, Start(c), w, fuel).value.Next?
              && var d := Feed(t, Start(c), w, fuel).value.conf;
                 Call(t, d, a, fuel).Some? ==>
                   && Call(t, d, a, fuel).value.Next?
                   && var e := Call(t, d, a, fuel).value.conf;
                      && e.errors == d.errors + (if e.shifted == d.shifted && e.accepted == d.accepted then 1 else 0)
                      && e.reported ==
                           d.reported + if e.errors > d.errors && Due(History(t, Start(c), w, fuel)) then 1 else 0
  {
    hide ConfOk, IsLR0, TablesFit, Loop, Feed, Due;
    TablesFitShape(g, m, t);
    assert ConfOk(g, m, Start(c)) by { FreshOk(g, m, c); }
    if Feed(t, Start(c), w, fuel).Some? {
      assert Counts([], Start(c).errcnt);
      FeedCounts(g, m, t, Start(c), [], w, fuel);
      var h := History(t, Start(c), w, fuel);
      assert [] + h == h;
      var d := Feed(t, Start(c), w, fuel).value.conf;
      CountsDue(h, d.errcnt);
      LoopKeeps(g, m, t, d, a, fuel);
      if Loop(t, d, a, fuel).Some? { LoopCounts(t, d, a, fuel); }
    }
  }

  lemma FreshOk(g: Grammar, m: Machine, c: Conf)
    requires IsLR0(g, m) && ConfOk(g, m, c) && c.stack == []
    ensures ConfOk(g, m, Start(c))
  {
    assert Minors(Start(c).stack[1..]) == [];
  }
}
