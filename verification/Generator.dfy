/**
  The whole generator: from a grammar to the tables of its driver, and what the
  tables are worth.
*/
module Generator {
  import opened Grammars
  import opened Automata
  import opened FirstSets
  import opened FollowSets
  import opened Configlist
  import opened FindStates
  import opened Lookaheads
  import opened Actions
  import opened ParserActions
  import opened ActTab
  import opened Resort
  import opened Packing
  import opened Report
  import opened Lempar
  import opened Soundness

  // ----- from the final lists to the tables -----------------------------------------------------

  function FirstCoding(g: Grammar, n: nat): Coding {
    Coding(n, |g.rules|, Identity(n))
  }

  /** All the data between the final lists and the tables. */
  datatype Layout = Layout(finals: seq<seq<Action>>, rows0: seq<Row>, statenum: seq<nat>, rows: seq<Row>,
                           tab: seq<Slot>, n: nat, ax: seq<AxSet>, log: seq<Insertion>)
  {
    function Coded(g: Grammar): Coding {
      Coding(|finals|, |g.rules|, statenum)
    }
  }

  /** The tables were laid out from the final lists. */
  ghost predicate LaidOut(g: Grammar, l: Layout, t: Tables) {
    && Resorted(g, FirstCoding(g, |l.finals|), l.finals, l.rows0, l.statenum)
    && Packed(g, l.Coded(g), l.rows0, l.rows, l.ax, l.log, l.tab)
    && Emitted(g, l.rows, l.tab, l.n, t)
  }

  ghost predicate ListsFit(g: Grammar, m: Machine, finals: seq<seq<Action>>) {
    && |finals| == |m.items| == |m.kernel| == |m.la| > 0
    && forall s :: 0 <= s < |finals| ==> ListFits(g, m, s, finals[s])
  }

  /** A row at hand: its list, its default, its state. */
  lemma RowAt(g: Grammar, l: Layout, t: Tables, i: nat)
    requires LaidOut(g, l, t) && i < |l.rows|
    ensures |l.rows| == |l.rows0| == |l.finals| == |l.statenum| && l.rows0[i].made < |l.finals|
    ensures l.rows[i].ap == l.finals[l.rows0[i].made]
    ensures l.rows[i].iDflt == DefaultCode(FirstCoding(g, |l.finals|), l.rows[i].ap, g.nsymbol)
    ensures i == 0 ==> l.rows0[i].made == 0
  {
    hide Emitted, AxOrder, Chained, Assigned;
    var r0 := l.rows0[i];
    assert r0 == RowOf(g, FirstCoding(g, |l.finals|), l.finals[r0.made], r0.made);
    assert l.rows[i].(iTknOfst := None, iNtOfst := None) == r0;
  }

  lemma LayoutRenumbers(g: Grammar, m: Machine, l: Layout, t: Tables)
    requires LaidOut(g, l, t) && ListsFit(g, m, l.finals)
    ensures Renumbers(m, l.rows0, l.statenum) && |l.rows| == |l.finals|
  {
    hide ListFits, Emitted, AxOrder, Chained, Assigned;
  }

  lemma FitsAt(g: Grammar, m: Machine, finals: seq<seq<Action>>, s: nat)
    requires ListsFit(g, m, finals) && s < |finals|
    ensures s < |m.items| && ListFits(g, m, s, finals[s])
  {
  }

  /** A generated action is an action of the automaton. */
  lemma GeneratesFits(g: Grammar, m: Machine, l: Layout, t: Tables, i: nat, x: nat, code: int) returns (act: Action)
    requires LaidOut(g, l, t) && ListsFit(g, m, l.finals) && i < |l.rows| && Generates(l.Coded(g), l.rows[i], x, code)
    ensures |l.rows| == |l.rows0| == |l.finals| == |m.items| && l.rows0[i].made < |l.finals|
    ensures Holds(l.rows[i].ap, act) && act.sp == x && ComputeAction(l.Coded(g), act) == code
    ensures ActionFits(g, m, l.rows0[i].made, act)
  {
    hide LaidOut, ListsFit, ActionFits, OneActive;
    RowAt(g, l, t, i);
    FitsAt(g, m, l.finals, l.rows0[i].made);
    SizesFit(g, m, l.finals);
    act :| act in l.rows[i].ap && act.sp == x && ComputeAction(l.Coded(g), act) == code >= 0;
    GeneratedIsActive(l.Coded(g), act);
  }

  lemma SizesFit(g: Grammar, m: Machine, finals: seq<seq<Action>>)
    requires ListsFit(g, m, finals)
    ensures |finals| == |m.items| == |m.kernel| == |m.la| > 0
  {
  }

  /** The code of an action of the automaton, read in the renumbered automaton. */
  lemma CodeFits(g: Grammar, m: Machine, l: Layout, t: Tables, i: nat, act: Action)
    requires g.WellFormed() && LaidOut(g, l, t) && ListsFit(g, m, l.finals) && i < |l.rows|
    requires Renumbers(m, l.rows0, l.statenum) && i < |l.rows0| && ActionFits(g, m, l.rows0[i].made, act)
    ensures var code := ComputeAction(l.Coded(g), act);
            && code >= 0
            && (act.kind == SHIFT ==> code < |l.finals| && Edge(g, Renumber(m, l.rows0), i, act.sp, code))
            && (act.kind == REDUCE ==> code == |l.finals| + act.arg)
            && (act.kind == ACCEPT ==> code == |l.finals| + |g.rules| + 1)
  {
    hide LaidOut, ListFits, Edge;
    RowAt(g, l, t, i);
    if act.kind == SHIFT {
      assert act.arg < |m.kernel| by { EdgeRange(g, m, l.rows0[i].made, act.sp, act.arg); }
      RenumberedEdge(g, m, l.rows0, l.statenum, i, act.sp, act.arg);
    }
  }

  lemma EdgeRange(g: Grammar, m: Machine, s: nat, a: nat, t: nat)
    requires Edge(g, m, s, a, t)
    ensures t < |m.kernel|
  {
  }

  /** The default of a row: the error action, or a reduction that is not to the start symbol. */
  lemma DefaultFits(g: Grammar, m: Machine, s: nat, ap: seq<Action>, c: Coding)
    requires g.WellFormed() && s < |m.items| && ListFits(g, m, s, ap) && c.nrule == |g.rules|
    ensures (forall act :: Holds(ap, act) ==> act.sp != g.nsymbol) ==>
      DefaultCode(c, ap, g.nsymbol) == c.nstate + c.nrule
    ensures forall act :: Holds(ap, act) && act.sp == g.nsymbol ==>
              act.kind == REDUCE && !StartRule(g, act.arg) && DefaultCode(c, ap, g.nsymbol) == c.nstate + act.arg
  {
    hide Edge;
    forall x | x in ap && x.sp >= g.nsymbol && ComputeAction(c, x) >= 0 ensures Holds(ap, x) && x.sp == g.nsymbol {
      GeneratedIsActive(c, x);
      assert Holds(ap, x) && ActionFits(g, m, s, x);
    }
    if forall act :: Holds(ap, act) ==> act.sp != g.nsymbol {
      DefaultIsError(c, ap, g.nsymbol);
    }
    forall act | Holds(ap, act) && act.sp == g.nsymbol
      ensures act.kind == REDUCE && !StartRule(g, act.arg) && DefaultCode(c, ap, g.nsymbol) == c.nstate + act.arg {
      assert ActionFits(g, m, s, act);
      OneActiveSaid(ap);
      DefaultIsLast(c, ap, g.nsymbol, act);
    }
  }

  /** A lookup that finds a pair finds an action of the automaton. */
  lemma FoundShift(g: Grammar, m: Machine, l: Layout, t: Tables, i: nat, a: nat, code: int)
    requires g.WellFormed() && LaidOut(g, l, t) && ListsFit(g, m, l.finals)
    requires Shaped(t) && t.nstate == |l.rows| == |m.items| && t.nrule == |g.rules|
    requires Renumbers(m, l.rows0, l.statenum) && i < |l.rows| && a < g.nterminal
    requires Generates(l.Coded(g), l.rows[i], a, code) && FindShiftAction(t, i, a) == code
    ensures ShiftFits(g, Renumber(m, l.rows0), t, i, a)
  {
    hide Edge, Generates, LaidOut, ListsFit;
    var act := GeneratesFits(g, m, l, t, i, a, code);
    CodeFits(g, m, l, t, i, act);
  }

  /** A lookup that finds nothing takes the default. */
  lemma DefaultShift(g: Grammar, m: Machine, l: Layout, t: Tables, i: nat, a: nat)
    requires g.WellFormed() && LaidOut(g, l, t) && ListsFit(g, m, l.finals)
    requires Shaped(t) && t.nstate == |l.rows| == |m.items| && t.nrule == |g.rules|
    requires Renumbers(m, l.rows0, l.statenum) && i < |l.rows| && a < g.nterminal
    requires FindShiftAction(t, i, a) == l.rows[i].iDflt
    ensures ShiftFits(g, Renumber(m, l.rows0), t, i, a)
  {
    hide Edge, LaidOut, ListsFit, ListFits, FindShiftAction;
    RowAt(g, l, t, i);
    var s := l.rows0[i].made;
    FitsAt(g, m, l.finals, s);
    DefaultFits(g, m, s, l.rows[i].ap, FirstCoding(g, |l.finals|));
    if act :| Holds(l.rows[i].ap, act) && act.sp == g.nsymbol {
      FitsAction(g, m, s, l.rows[i].ap, act);
    }
  }

  /** Every lookup under a token gives an action of the automaton or the error action. */
  lemma LayoutShifts(g: Grammar, m: Machine, l: Layout, t: Tables, i: nat, a: nat)
    requires g.WellFormed() && LaidOut(g, l, t) && ListsFit(g, m, l.finals) && AllServed(g, l.Coded(g), l.rows, l.tab)
    requires Renumbers(m, l.rows0, l.statenum) && i < |l.rows| && a < g.nterminal
    ensures Shaped(t) && t.nstate == |l.rows| == |m.items| && t.nrule == |g.rules|
    ensures ShiftFits(g, Renumber(m, l.rows0), t, i, a)
  {
    hide Edge, Generates, AllServed, Packed, Emitted, ListFits, Resorted, ShiftFits, FindShiftAction;
    LayoutShape(g, l, t);
    ShiftRefines(g, l.Coded(g), l.rows, l.tab, l.n, t, i, a);
    if code :| Generates(l.Coded(g), l.rows[i], a, code) {
      FoundShift(g, m, l, t, i, a, code);
    } else {
      DefaultShift(g, m, l, t, i, a);
    }
  }

  lemma FitsAction(g: Grammar, m: Machine, s: nat, ap: seq<Action>, act: Action)
    requires s < |m.items| && ListFits(g, m, s, ap) && Holds(ap, act)
    ensures ActionFits(g, m, s, act)
  {
  }

  lemma LayoutShape(g: Grammar, l: Layout, t: Tables)
    requires LaidOut(g, l, t)
    ensures Shaped(t) && t.nstate == |l.rows| == |l.rows0| == |l.finals| && t.nrule == |g.rules|
    ensures Emitted(g, l.rows, l.tab, l.n, t)
    ensures forall r :: 0 <= r < t.nrule ==> t.ruleInfo[r] == RuleInfo(g.rules[r].lhs, |g.rules[r].rhs|)
  {
    hide AxOrder, Chained, Assigned, AtMost, EmittedOffsets, TableOk;
    EmittedShape(g, l.rows, l.tab, l.n, t);
  }

  lemma GotoRange(g: Grammar, m: Machine, s: nat, b: nat)
    requires g.WellFormed() && s < |m.items| && GotoNeeded(g, m, s, b)
    ensures g.nterminal <= b < g.nsymbol
  {
    if !(s == 0 && b == g.start) {
      var p :| p in m.items[s] && Automata.Next(g, p, Nonterminal(b));
      assert g.ValidRule(g.rules[p.rule]) && g.ValidSymbol(Nonterminal(b));
    }
  }

  lemma GotoRenumbered(g: Grammar, m: Machine, rows: seq<Row>, statenum: seq<nat>, i: nat, b: nat)
    requires Renumbers(m, rows, statenum) && i < |rows| && GotoNeeded(g, Renumber(m, rows), i, b)
    ensures GotoNeeded(g, m, rows[i].made, b)
  {
  }

  /** Every move that a reduction needs is found. */
  lemma LayoutGotos(g: Grammar, m: Machine, l: Layout, t: Tables, i: nat, b: nat)
    requires g.WellFormed() && LaidOut(g, l, t) && ListsFit(g, m, l.finals) && AllServed(g, l.Coded(g), l.rows, l.tab)
    requires Renumbers(m, l.rows0, l.statenum) && i < |l.rows| && i < |l.rows0|
    requires GotoNeeded(g, Renumber(m, l.rows0), i, b)
    ensures Shaped(t) && t.nstate == |l.rows| && GotoFits(g, Renumber(m, l.rows0), t, i, b)
  {
    hide Edge, AllServed, Packed, Emitted, Resorted, GotoNeeded;
    LayoutShape(g, l, t);
    RowAt(g, l, t, i);
    var s := l.rows0[i].made;
    GotoRenumbered(g, m, l.rows0, l.statenum, i, b);
    GotoRange(g, m, s, b);
    FitsAt(g, m, l.finals, s);
    var act :| Holds(l.rows[i].ap, act) && act.sp == b;
    FitsAction(g, m, s, l.rows[i].ap, act);
    CodeFits(g, m, l, t, i, act);
    assert Generates(l.Coded(g), l.rows[i], b, ComputeAction(l.Coded(g), act));
    ReduceRefines(g, l.Coded(g), l.rows, l.tab, l.n, t, i, b);
  }

  /** If every action set can be read back, the tables fit the renumbered automaton. */
  lemma LayoutFits(g: Grammar, m: Machine, l: Layout, t: Tables)
    requires g.WellFormed() && LaidOut(g, l, t) && ListsFit(g, m, l.finals) && AllServed(g, l.Coded(g), l.rows, l.tab)
    requires Renumbers(m, l.rows0, l.statenum)
    ensures TablesFit(g, Renumber(m, l.rows0), t)
  {
    hide ShiftFits, GotoFits, GotoNeeded, LaidOut, ListsFit, AllServed;
    LayoutShape(g, l, t);
    var n := Renumber(m, l.rows0);
    forall s, a | 0 <= s < t.nstate && 0 <= a < g.nterminal ensures ShiftFits(g, n, t, s, a) {
      LayoutShifts(g, m, l, t, s, a);
    }
    forall s, b | 0 <= s < t.nstate && GotoNeeded(g, n, s, b) ensures GotoFits(g, n, t, s, b) {
      LayoutGotos(g, m, l, t, s, b);
    }
  }

  // ----- no action is lost where there is no conflict ------------------------------------------------

  /** The code that the driver reads for a raw action on a token. */
  function DriverCode(t: Tables, act: Action): int {
    if act.kind == SHIFT then act.arg else t.nstate + act.arg
  }

  /** Under every token the tables take the action that the automaton calls for. */
  ghost predicate TablesTake(g: Grammar, m: Machine, t: Tables) {
    && Shaped(t) && t.nstate == |m.items| == |m.la|
    && forall s: nat, act :: s < |m.items| && IsRaw(g, m, s, act) && act.sp < g.nterminal ==>
         FindShiftAction(t, s, act.sp) == DriverCode(t, act)
  }

  /** A taken action is read back from the tables. */
  lemma LayoutTakes(g: Grammar, m: Machine, l: Layout, t: Tables, i: nat, act: Action)
    requires g.WellFormed() && LaidOut(g, l, t) && ListsFit(g, m, l.finals) && AllServed(g, l.Coded(g), l.rows, l.tab)
    requires Renumbers(m, l.rows0, l.statenum) && i < |l.rows| && act.sp < g.nterminal
    requires Takes(g, l.rows[i].ap, act.sp, act)
    ensures Shaped(t) && t.nstate == |l.rows|
    ensures FindShiftAction(t, i, act.sp) == ComputeAction(l.Coded(g), act)
  {
    hide Edge, AllServed, Packed, Emitted, ListFits, Resorted, FindShiftAction, ListsFit, ActionFits;
    LayoutShape(g, l, t);
    ShiftRefines(g, l.Coded(g), l.rows, l.tab, l.n, t, i, act.sp);
    RowAt(g, l, t, i);
    var s, ap := l.rows0[i].made, l.rows[i].ap;
    SizesFit(g, m, l.finals);
    FitsAt(g, m, l.finals, s);
    assert act.(sp := act.sp) == act;
    if Holds(ap, act) {
      FitsAction(g, m, s, ap, act);
      CodeFits(g, m, l, t, i, act);
      assert Generates(l.Coded(g), l.rows[i], act.sp, ComputeAction(l.Coded(g), act));
    } else {
      forall code ensures !Generates(l.Coded(g), l.rows[i], act.sp, code) {
        if Generates(l.Coded(g), l.rows[i], act.sp, code) {
          var x := GeneratesFits(g, m, l, t, i, act.sp, code);
        }
      }
      var d := act.(sp := g.nsymbol);
      assert Holds(ap, d) && d.sp == g.nsymbol;
      DefaultFits(g, m, s, ap, FirstCoding(g, |l.finals|));
    }
  }

  /** A raw action of the renumbered automaton, in the old numbers. */
  function OldAction(rows: seq<Row>, act: Action): Action {
    if act.kind == SHIFT && act.arg < |rows| then act.(arg := rows[act.arg].made) else act
  }

  lemma RawRenumbered(g: Grammar, m: Machine, rows: seq<Row>, statenum: seq<nat>, i: nat, act: Action)
    requires Renumbers(m, rows, statenum) && i < |rows| && IsRaw(g, Renumber(m, rows), i, act) && act.sp < g.nterminal
    requires g.nterminal <= g.start
    ensures IsRaw(g, m, rows[i].made, OldAction(rows, act))
    ensures act.kind == SHIFT ==>
      act.arg < |statenum| && OldAction(rows, act).arg < |statenum| && statenum[OldAction(rows, act).arg] == act.arg
    ensures act.kind in {SHIFT, REDUCE} && OldAction(rows, act).kind == act.kind
  {
  }

  /** The final lists take all actions of the automaton. */
  ghost predicate ListsTake(g: Grammar, m: Machine, finals: seq<seq<Action>>) {
    && |finals| == |m.items| == |m.la|
    && forall s: nat, act :: s < |finals| && IsRaw(g, m, s, act) ==> Takes(g, finals[s], act.sp, act)
  }

  lemma ListTakes(g: Grammar, m: Machine, finals: seq<seq<Action>>, s: nat, act: Action)
    requires ListsTake(g, m, finals) && s < |finals| && IsRaw(g, m, s, act)
    ensures Takes(g, finals[s], act.sp, act)
  {
  }

  lemma LayoutTakesAll(g: Grammar, m: Machine, l: Layout, t: Tables)
    requires g.WellFormed() && LaidOut(g, l, t) && ListsFit(g, m, l.finals) && AllServed(g, l.Coded(g), l.rows, l.tab)
    requires Renumbers(m, l.rows0, l.statenum) && ListsTake(g, m, l.finals)
    ensures TablesTake(g, Renumber(m, l.rows0), t)
  {
    hide Edge, LaidOut, ListsFit, AllServed, FindShiftAction, IsRaw, Takes, ListsTake;
    LayoutShape(g, l, t);
    var n := Renumber(m, l.rows0);
    forall i: nat, act: Action | i < |n.items| && IsRaw(g, n, i, act) && act.sp < g.nterminal
      ensures FindShiftAction(t, i, act.sp) == DriverCode(t, act) {
      RowAt(g, l, t, i);
      RawRenumbered(g, m, l.rows0, l.statenum, i, act);
      var o := OldAction(l.rows0, act);
      ListTakes(g, m, l.finals, l.rows0[i].made, o);
      LayoutTakes(g, m, l, t, i, o);
    }
  }

  // ----- the generator ---------------------------------------------------------------------------------

  /** What a run of the generator leaves behind besides the tables. */
  datatype Run = Run(e: Env, m: Machine, raws: seq<seq<Action>>, aps: seq<seq<Action>>, bests: seq<Option<nat>>,
                     l: Layout)

  /** The automaton that the tables are for. */
  function Final(run: Run): Machine
    requires Renumbers(run.m, run.l.rows0, run.l.statenum)
  {
    Renumber(run.m, run.l.rows0)
  }

  /** The tables came out of a run on the grammar. */
  ghost predicate Produced(g: Grammar, run: Run, t: Tables) {
    && run.e.g == g && EnvOk(run.e) && MachineFor(run.e, run.m) && MadeInOrder(g, run.m)
    && LaExact(run.e, run.m) && LaClosed(run.e, run.m)
    && AllResolved(g, run.m, run.raws, run.aps) && AllCompressed(g, run.aps, run.l.finals, run.bests)
    && LaidOut(g, run.l, t)
  }

  lemma LinksAreOk(states: seq<State>, links: Links, order: seq<Cfg>, fws: Sets)
    requires TablesDefined(states)
    requires forall c :: c in order <==> IsCfg(states, c)
    requires links.Keys == fws.Keys == set c | c in order
    requires forall c, d :: c in links ==> (d in links[c] <==> ForwardLink(states, c, d) || BackwardLink(states, c, d))
    ensures LinksOk(links, fws)
  {
    hide TablesDefined;
    forall c, d | c in links && d in links[c] ensures d in fws {
      if ForwardLink(states, c, d) { ForwardIsCfg(states, c, d); }
      assert d in order;
    }
  }

  lemma ForwardIsCfg(states: seq<State>, c: Cfg, d: Cfg)
    requires TablesDefined(states) && ForwardLink(states, c, d)
    ensures IsCfg(states, d)
  {
  }

  /** The links and follow sets of the finished states. */
  lemma FollowedFrom(e: Env, states: seq<State>, links: Links, order: seq<Cfg>, fws0: Sets, fws: Sets)
    requires Built(e, states) && forall c :: c in order <==> IsCfg(states, c)
    requires links.Keys == fws0.Keys == fws.Keys == set c | c in order
    requires forall c, d :: c in links ==> (d in links[c] <==> ForwardLink(states, c, d) || BackwardLink(states, c, d))
    requires forall c :: c in fws0 ==> OwnFws(states, c, fws0[c])
    requires forall d, a :: d in fws ==> (a in fws[d] <==> Arrives(links, fws0, d, a))
    ensures Followed(e, states, links, fws0, fws)
  {
    hide Built, ForwardLink, BackwardLink, OwnFws, Arrives, IsCfg;
  }

  /** FindFirstSets, FindStates, FindLinks and FindFollowSets. */
  method FindLookaheads(g: Grammar)
    returns (e: Env, states: seq<State>, ghost links: Links, ghost fws0: Sets, fws: Sets)
    requires g.WellFormed() && Sortable(g)
    ensures e.g == g && EnvOk(e) && Followed(e, states, links, fws0, fws)
  {
    hide Inv, Finished, TablesDefined, ForwardLink, BackwardLink, OwnFws, IsCfg, LinksOk, Arrives, Followed;
    hide LambdaFor, LeastSolution, TokenSets, Sortable;
    var lambda, first := FindFirstSets(g);
    e := Env(g, lambda, first);
    var lemon := new Lemon(e);
    lemon.Build();
    states := lemon.states;
    BuiltTables(e, states);
    var ls, order, f0 := FindLinks(states);
    links, fws0 := ls, f0;
    LinksAreOk(states, ls, order, f0);
    fws := FindFollowSets(ls, order, f0, set c, a | c in f0 && a in f0[c] :: a);
    FollowedFrom(e, states, ls, order, f0, fws);
  }

  lemma RunMachine(e: Env, states: seq<State>, links: Links, fws0: Sets, fws: Sets)
    requires e.g.WellFormed() && Followed(e, states, links, fws0, fws)
    ensures MachineFor(e, MachineOf(states, fws)) && LaExact(e, MachineOf(states, fws))
    ensures LaClosed(e, MachineOf(states, fws)) && MadeInOrder(e.g, MachineOf(states, fws))
    ensures |MachineOf(states, fws).items| == |MachineOf(states, fws).la| == |states| > 0
  {
    hide MachineFor, LaExact, LaClosed, Built, MadeInOrder;
    FollowedMachine(e, states, links, fws0, fws);
    LookaheadsExact(e, states, links, fws0, fws);
    LookaheadsClosed(e, states, links, fws0, fws);
    InStateSizes(e, states, links, fws0, fws);
    FollowedBuilt(e, states, links, fws0, fws);
    BuiltInOrder(e, states, MachineOf(states, fws));
  }

  lemma ReadyRow(g: Grammar, c0: Coding, c: Coding, ap: seq<Action>, s: nat)
    requires OneActive(ap) && |c0.statenum| == |c.statenum| && g.nterminal <= g.nsymbol
    ensures RowReady(g, c, RowOf(g, c0, ap, s))
  {
    CountSame(c0, c, ap, 0, g.nterminal);
    CountSame(c0, c, ap, g.nterminal, g.nsymbol);
    SlotsHold(c, ap, 0, g.nterminal);
    SlotsHold(c, ap, g.nterminal, g.nsymbol);
  }

  lemma ReadyRows(g: Grammar, aps: seq<seq<Action>>, finals: seq<seq<Action>>, bests: seq<Option<nat>>, rows: seq<Row>,
                  statenum: seq<nat>)
    requires g.nterminal <= g.nsymbol && AllCompressed(g, aps, finals, bests)
    requires Resorted(g, FirstCoding(g, |finals|), finals, rows, statenum)
    ensures RowsReady(g, Coding(|finals|, |g.rules|, statenum), rows)
  {
    hide OneActive, Compressed, RowReady, Larger;
    forall r | 0 <= r < |rows| ensures RowReady(g, Coding(|finals|, |g.rules|, statenum), rows[r]) {
      assert CompressedTo(g, aps[rows[r].made], finals[rows[r].made], bests[rows[r].made]);
      ReadyRow(g, FirstCoding(g, |finals|), Coding(|finals|, |g.rules|, statenum), finals[rows[r].made], rows[r].made);
    }
  }

  /**
    The passes of the program between reading the grammar and writing the parser.
    nconflict is the number of conflicts that precedence does not decide.
  */
  method Generate(g: Grammar) returns (t: Tables, nconflict: nat)
    requires g.WellFormed() && ActionsSortable(g)
    ensures exists run: Run :: Produced(g, run, t) && nconflict == TotalReported(run.aps)
  {
    hide Sortable, ActionsSortable, EnvOk, Followed, MachineFor, MadeInOrder, LaExact, LaClosed;
    hide AllResolved, Resorted, Packed, Emitted, MachineOf;
    ItemsSortable(g);
    var e, states, fws;
    ghost var links, fws0;
    e, states, links, fws0, fws := FindLookaheads(g);
    RunMachine(e, states, links, fws0, fws);
    ghost var m := MachineOf(states, fws);
    var aps, n; ghost var raws;
    aps, n, raws := FindActions(e, states, links, fws0, fws);
    nconflict := n;
    AllSizes(g, m, raws, aps);
    var finals := CompressTables(e, m, raws, aps);
    ghost var bests :| AllCompressed(g, aps, finals, bests);
    var rows0, statenum := ResortStates(g, finals, |g.rules|);
    ReadyRows(g, aps, finals, bests, rows0, statenum);
    t := ReportTable(g, Coding(|finals|, |g.rules|, statenum), rows0);
    ghost var rows, tab, size, ax, log :|
      Packed(g, Coding(|finals|, |g.rules|, statenum), rows0, rows, ax, log, tab) && Emitted(g, rows, tab, size, t);
    ghost var run := Run(e, m, raws, aps, bests, Layout(finals, rows0, statenum, rows, tab, size, ax, log));
    assert Produced(g, run, t);
  }

  lemma AllSizes(g: Grammar, m: Machine, raws: seq<seq<Action>>, aps: seq<seq<Action>>)
    requires AllResolved(g, m, raws, aps)
    ensures |aps| == |m.items|
  {
  }
}
