/**
  What the generator promises about its parsers: the theorems over the whole chain
  from the grammar through the tables to the runs of the driver.
*/
module Correctness {
  import opened Grammars
  import opened Automata
  import opened FirstSets
  import opened Configlist
  import opened Lookaheads
  import opened Actions
  import opened ParserActions
  import opened Resort
  import opened Packing
  import opened Report
  import opened Lempar
  import opened Soundness
  import opened Generator
  import opened Completeness
  import opened Termination

  // ----- the final lists -----------------------------------------------------------------------------

  lemma ProducedLists(g: Grammar, run: Run, t: Tables)
    requires Produced(g, run, t)
    ensures g.WellFormed() && ListsFit(g, run.m, run.l.finals)
  {
    hide EnvOk, LaClosed, LaExact, IsLR0, Resolved, Resorted, Packed, Emitted, ListFits, StartOnlyAtEnd, CompressedTo;
    var m, l := run.m, run.l;
    WellFormedEnv(run.e);
    LR0Shape(g, m);
    StartReducesAtEnd(run.e, m);
    forall s | 0 <= s < |l.finals| ensures ListFits(g, m, s, l.finals[s]) {
      assert Resolved(g, m, s, run.raws[s], run.aps[s]) && CompressedTo(g, run.aps[s], l.finals[s], run.bests[s]);
      FinalFits(run.e, m, s, run.raws[s], run.aps[s], l.finals[s], run.bests[s]);
    }
  }

  lemma WellFormedEnv(e: Env)
    requires EnvOk(e)
    ensures e.g.WellFormed()
  {
  }

  lemma LR0Shape(g: Grammar, m: Machine)
    requires IsLR0(g, m)
    ensures |m.kernel| == |m.items| > 0
  {
  }

  /** The final automaton is the LR(0) automaton of the grammar. */
  lemma FinalIsLR0(g: Grammar, run: Run, t: Tables)
    requires Produced(g, run, t)
    ensures Renumbers(run.m, run.l.rows0, run.l.statenum) && IsLR0(g, Final(run))
  {
    hide EnvOk, LaClosed, LaExact, IsLR0, AllResolved, AllCompressed, ListsFit, LaidOut;
    ProducedLists(g, run, t);
    LayoutRenumbers(g, run.m, run.l, t);
    RenumberedIsLR0(g, run.m, run.l.rows0, run.l.statenum);
  }

  /**
    Every lookup in the packed table finds the action of the final list, or nothing, if
    and only if every insertion found a duplicate, a hole, or an offset at the end that no
    set of its kind uses.
  */
  lemma ReadableIffFitting(g: Grammar, run: Run, t: Tables)
    requires Produced(g, run, t)
    ensures AllServed(g, run.l.Coded(g), run.l.rows, run.l.tab) <==> AllFit(g.nterminal, run.l.log)
  {
    hide EnvOk, LaClosed, LaExact, MachineFor, AllResolved, Resorted, Packed, Emitted, AllServed, AllFit;
    WellFormedEnv(run.e);
    ReadyRows(g, run.aps, run.l.finals, run.bests, run.l.rows0, run.l.statenum);
    ServedIffFitting(g, run.l.Coded(g), run.l.rows0, run.l.rows, run.l.ax, run.l.log, run.l.tab);
  }

  /** Where every insertion had room behind the used slots, packing was fitting. */
  lemma RoomyRunFits(g: Grammar, run: Run, t: Tables)
    requires Produced(g, run, t) && AllRoomy(run.l.log)
    ensures AllFit(g.nterminal, run.l.log)
  {
    hide EnvOk, LaClosed, LaExact, MachineFor, AllResolved, AllCompressed, Resorted, Packed, Emitted, AllRoomy, AllFit;
    RoomyPackingFits(g, run.l.Coded(g), run.l.rows0, run.l.rows, run.l.ax, run.l.log, run.l.tab);
  }

  // ----- soundness ---------------------------------------------------------------------------------------

  /** If the packing was fitting, the tables fit the automaton. */
  lemma ProducedFits(g: Grammar, run: Run, t: Tables)
    requires Produced(g, run, t) && AllFit(g.nterminal, run.l.log)
    ensures g.WellFormed() && Renumbers(run.m, run.l.rows0, run.l.statenum)
    ensures IsLR0(g, Final(run)) && TablesFit(g, Final(run), t)
  {
    hide EnvOk, LaClosed, LaExact, MachineFor, AllResolved, AllCompressed, AllFit;
    hide LaidOut, ListsFit, IsLR0, TablesFit, AllServed;
    ProducedLists(g, run, t);
    FinalIsLR0(g, run, t);
    ReadableIffFitting(g, run, t);
    LayoutFits(g, run.m, run.l, t);
  }

  /** The input was accepted without an error. */
  ghost predicate Parses(t: Tables, w: seq<nat>, fuel: nat)
    requires Shaped(t)
  {
    && Feed(t, Lempar.EMPTY, w + [0], fuel).Some? && Feed(t, Lempar.EMPTY, w + [0], fuel).value.Next?
    && Feed(t, Lempar.EMPTY, w + [0], fuel).value.conf.errors == 0
  }

  /**
    Whatever a generated parser accepts without an error is a sentence of its
    grammar, whatever conflicts the grammar had and however they were resolved.
  */
  lemma GeneratedIsSound(g: Grammar, run: Run, t: Tables, w: seq<nat>, fuel: nat)
    requires Produced(g, run, t) && AllFit(g.nterminal, run.l.log) && AllTokens(g, w)
    ensures Shaped(t) && (Parses(t, w, fuel) ==> Sentence(g, w))
  {
    hide Produced, AllFit, TablesFit, IsLR0, Sentence, Feed;
    ProducedFits(g, run, t);
    TablesFitShape(g, Final(run), t);
    if Parses(t, w, fuel) { AcceptedIsSentence(g, Final(run), t, w, fuel); }
  }

  /** The same, under a condition on the sizes of the table and of the sets alone. */
  lemma RoomyIsSound(g: Grammar, run: Run, t: Tables, w: seq<nat>, fuel: nat)
    requires Produced(g, run, t) && AllRoomy(run.l.log) && AllTokens(g, w)
    ensures Shaped(t) && (Parses(t, w, fuel) ==> Sentence(g, w))
  {
    hide Produced, AllFit, AllRoomy, Parses, Sentence;
    RoomyRunFits(g, run, t);
    GeneratedIsSound(g, run, t, w, fuel);
  }

  // ----- completeness --------------------------------------------------------------------------------------

  /** No action was dropped when conflicts were resolved. */
  ghost predicate NothingDropped(run: Run) {
    run.raws == run.aps
  }

  /** If nothing was dropped, no state has two different actions on one symbol. */
  lemma NothingDroppedMeansConflictFree(g: Grammar, run: Run, t: Tables)
    requires Produced(g, run, t) && NothingDropped(run)
    ensures |run.m.items| == |run.m.la| && ConflictFree(g, run.m)
  {
    hide EnvOk, LaClosed, LaExact, IsLR0, AllCompressed, LaidOut, IsRaw;
    hide Justified, PreferredLeft, SomeActive, OneActive, Marked, SortedActions;
    forall s: nat, x, y {:trigger IsRaw(g, run.m, s, x), IsRaw(g, run.m, s, y)} |
      s < |run.m.items| && IsRaw(g, run.m, s, x) && IsRaw(g, run.m, s, y) && x.sp == y.sp ensures x == y {
      assert Resolved(g, run.m, s, run.raws[s], run.aps[s]);
      RawKinds(g, run.m, s, x);
      RawKinds(g, run.m, s, y);
      OneActiveSaid(run.aps[s]);
      assert x in run.raws[s] && y in run.raws[s];
    }
  }

  lemma ConflictFreeListsTake(g: Grammar, run: Run, t: Tables)
    requires Produced(g, run, t) && |run.m.items| == |run.m.la| && ConflictFree(g, run.m)
    ensures ListsTake(g, run.m, run.l.finals)
  {
    hide EnvOk, LaClosed, LaExact, IsLR0, LaidOut, IsRaw, Resolved, CompressedTo, ConflictFree, Takes, MachineFor;
    var m, l := run.m, run.l;
    forall s: nat, act: Action | s < |l.finals| && IsRaw(g, m, s, act) ensures Takes(g, l.finals[s], act.sp, act) {
      assert Resolved(g, m, s, run.raws[s], run.aps[s]) && CompressedTo(g, run.aps[s], l.finals[s], run.bests[s]);
      ConflictFreeTakes(run.e, m, s, run.raws[s], run.aps[s], l.finals[s], run.bests[s], act);
    }
  }

  lemma LaClosedGives(e: Env, m: Machine, s: nat, p: Item, it: Item)
    requires LaClosed(e, m) && s < |m.la| && p in m.la[s] && it in m.la[s]
    ensures Given(e, p, it) <= m.la[s][it] && (PassesOn(e, p, it) ==> m.la[s][p] <= m.la[s][it])
  {
  }

  /** Renumbering keeps the lookaheads closed. */
  lemma RenumberedLaClosed(e: Env, m: Machine, rows: seq<Row>, statenum: seq<nat>)
    requires LaClosed(e, m) && Renumbers(m, rows, statenum)
    ensures LaClosed(e, Renumber(m, rows))
  {
    hide GivenStays, PassedOn, ShiftedOn, Numbered;
    NumberedRange(rows, statenum);
    var n := Renumber(m, rows);
    assert GivenStays(e, n) && PassedOn(e, n) by { RenumberedPredictions(e, m, rows, statenum); }
    assert ShiftedOn(e, n) by { RenumberedShifts(e, m, rows, statenum); }
  }

  lemma RenumberedPredictions(e: Env, m: Machine, rows: seq<Row>, statenum: seq<nat>)
    requires LaClosed(e, m) && Renumbers(m, rows, statenum) && forall i :: 0 <= i < |rows| ==> rows[i].made < |rows|
    ensures GivenStays(e, Renumber(m, rows)) && PassedOn(e, Renumber(m, rows))
  {
    hide LaClosed, Given, PassesOn, Numbered;
    var n := Renumber(m, rows);
    forall s, p, it {:trigger n.la[s], Given(e, p, it)} | 0 <= s < |n.la| && p in n.la[s] && it in n.la[s]
      ensures Given(e, p, it) <= n.la[s][it] {
      LaClosedGives(e, m, rows[s].made, p, it);
    }
    forall s, p, it {:trigger n.la[s], PassesOn(e, p, it)} |
      0 <= s < |n.la| && p in n.la[s] && it in n.la[s] && PassesOn(e, p, it)
      ensures n.la[s][p] <= n.la[s][it] {
      LaClosedGives(e, m, rows[s].made, p, it);
    }
  }

  lemma RenumberedShifts(e: Env, m: Machine, rows: seq<Row>, statenum: seq<nat>)
    requires LaClosed(e, m) && Renumbers(m, rows, statenum) && forall i :: 0 <= i < |rows| ==> rows[i].made < |rows|
    ensures LaShaped(Renumber(m, rows)) && ShiftedOn(e, Renumber(m, rows))
  {
    hide LaClosed, Goto, Numbered;
    LaClosedShape(e, m);
    var n := Renumber(m, rows);
    forall s: nat, u: nat, p, x {:trigger Goto(e.g, n.items[s], x), n.la[u], Automata.Next(e.g, p, x)} |
      s < |n.la| && u < |n.la| && p in n.la[s] && Automata.Next(e.g, p, x)
      && n.kernel[u] == Goto(e.g, n.items[s], x) && Advance(p) in n.la[u]
      ensures n.la[s][p] <= n.la[u][Advance(p)] {
      LaClosedShift(e, m, rows[s].made, p, x, rows[u].made);
    }
  }

  lemma NumberedRange(rows: seq<Row>, statenum: seq<nat>)
    requires Numbered(rows, statenum)
    ensures forall i :: 0 <= i < |rows| ==> rows[i].made < |rows|
  {
  }

  /** A run without conflicts leaves a driver that is ready for every sentence. */
  lemma ProducedReady(g: Grammar, run: Run, t: Tables)
    requires Produced(g, run, t) && AllFit(g.nterminal, run.l.log) && ConflictFree(g, run.m)
    requires |run.e.lambda| == g.nsymbol && LambdaClosed(g, run.e.lambda)
    ensures Renumbers(run.m, run.l.rows0, run.l.statenum) && Ready(run.e, Final(run), t)
  {
    hide EnvOk, LaClosed, LaExact, IsLR0, AllResolved, AllCompressed, AllFit, LaidOut, ListsFit, TablesFit, TablesTake;
    hide AllServed, ConflictFree, ListsTake, LambdaClosed;
    ProducedLists(g, run, t);
    ProducedFits(g, run, t);
    ReadableIffFitting(g, run, t);
    ConflictFreeListsTake(g, run, t);
    LayoutTakesAll(g, run.m, run.l, t);
    RenumberedLaClosed(run.e, run.m, run.l.rows0, run.l.statenum);
  }

  /** A tree of the start symbol over tokens is not a leaf. */
  lemma SentenceTree(g: Grammar, w: seq<nat>) returns (tree: Tree)
    requires g.WellFormed() && Sentence(g, w)
    ensures ValidTree(g, tree) && tree.Node? && Root(g, tree) == g.start && Frontier(tree) == w
  {
    tree :| ValidTree(g, tree) && Root(g, tree) == g.start && Frontier(tree) == w;
    assert tree.Leaf? ==> w == [g.start];
    assert w != [] ==> g.IsToken(w[0]);
  }

  /**
    The generated parser accepts exactly the sentences of the grammar, if packing was
    fitting, the automaton has no conflicts, and every nullable nonterminal has an empty
    rule of its own.
  */
  lemma GeneratedIsExact(g: Grammar, run: Run, t: Tables, w: seq<nat>)
    requires Produced(g, run, t) && AllFit(g.nterminal, run.l.log) && ConflictFree(g, run.m) && EmptyByRule(g)
    requires AllTokens(g, w)
    ensures Shaped(t) && (Sentence(g, w) <==> exists fuel: nat :: Parses(t, w, fuel))
  {
    hide Produced, AllFit, ConflictFree, Ready, Parses, TablesFit, IsLR0, EmptyByRule, LambdaClosed, Sentence;
    ProducedFits(g, run, t);
    TablesFitShape(g, Final(run), t);
    ProducedLambda(g, run, t);
    EmptyByRuleIff(g, run.e.lambda);
    ProducedReady(g, run, t);
    if Sentence(g, w) { SentenceParses(run.e, Final(run), t, w); }
    if fuel: nat :| Parses(t, w, fuel) { GeneratedIsSound(g, run, t, w, fuel); }
  }

  lemma ProducedLambda(g: Grammar, run: Run, t: Tables)
    requires Produced(g, run, t)
    ensures run.e.g == g && LambdaFor(g, run.e.lambda) && |run.m.items| == |run.m.la|
  {
  }

  lemma SentenceParses(e: Env, m: Machine, t: Tables, w: seq<nat>)
    requires Ready(e, m, t) && e.g.WellFormed() && Sentence(e.g, w)
    ensures Shaped(t) && exists fuel: nat :: Parses(t, w, fuel)
  {
    hide Ready, Feed;
    ReadyFacts(e, m, t);
    var tree := SentenceTree(e.g, w);
    var enough := DriverComplete(e, m, t, tree);
    assert AcceptsTree(t, w, tree, enough);
    assert Parses(t, w, enough);
  }

  // ----- decision ------------------------------------------------------------------------------------------

  /**
    The generated parser decides the language: given enough iterations it gets through
    any tokens, and accepts them without an error if and only if they are a sentence.
    Besides the conditions of `GeneratedIsExact`, no nonterminal on a right-hand side may
    be barren; `EndlessParsers` shows a grammar without conflicts whose parser never ends.
  */
  lemma GeneratedDecides(g: Grammar, run: Run, t: Tables, w: seq<nat>) returns (enough: nat)
    requires Produced(g, run, t) && AllFit(g.nterminal, run.l.log) && ConflictFree(g, run.m) && EmptyByRule(g)
    requires Fruitful(g) && AllTokens(g, w)
    ensures Shaped(t)
    ensures forall fuel: nat :: fuel >= enough ==>
              Feed(t, Lempar.EMPTY, w + [0], fuel).Some? && (Parses(t, w, fuel) <==> Sentence(g, w))
  {
    hide Produced, AllFit, ConflictFree, Ready, TablesFit, IsLR0, EmptyByRule, LambdaClosed, Sentence, Fruitful, Feed;
    hide ConfOk;
    ProducedFits(g, run, t);
    TablesFitShape(g, Final(run), t);
    ProducedLambda(g, run, t);
    EmptyByRuleIff(g, run.e.lambda);
    ProducedReady(g, run, t);
    StartOk(g, Final(run));
    enough := FeedEnds(run.e, Final(run), t, Lempar.EMPTY, w + [0]);
    GeneratedIsExact(g, run, t, w);
    forall fuel: nat | fuel >= enough
      ensures Feed(t, Lempar.EMPTY, w + [0], fuel).Some? && (Parses(t, w, fuel) <==> Sentence(g, w)) {
      FeedMore(t, Lempar.EMPTY, w + [0], enough, fuel - enough);
      if k: nat :| Parses(t, w, k) {
        FeedMore(t, Lempar.EMPTY, w + [0], enough, k);
        FeedMore(t, Lempar.EMPTY, w + [0], k, enough);
      }
    }
  }
}
