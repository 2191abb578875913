# A verified model of dbwtl's parser generator, decimals and result cache

dbwtl carries its own copy of the Lemon LALR(1) parser generator, a decimal number
class, and a scrollable cache for database results.  This project models these three
parts in Dafny and proves what they compute.

## The parser generator and its driver

`lemon/lemon.c` turns a grammar into tables, and `lemon/lempar.c` is the shift/reduce
machine that runs on them.  The model follows the passes of the program:

| module | file of the model | pass |
|---|---|---|
| `Grammars`, `Automata` | Grammars.dfy, Automata.dfy | grammars, parse trees, and the LR(0) automaton, specified without reference to any algorithm |
| `Lists`, `MSort` | Lists.dfy, MSort.dfy | permutations, and the linked-list merge sort used by all passes |
| `FirstSets` | FirstSets.dfy | FindFirstSets |
| `Configlist`, `SortedItems`, `FindStates` | Configlist.dfy, SortedItems.dfy, FindStates.dfy | Configlist_closure, getstate, buildshifts |
| `FollowSets`, `Lookaheads` | FollowSets.dfy, Lookaheads.dfy | FindFollowSets, FindLinks, and what the follow sets are |
| `Lalr` | Lalr.dfy | the follow sets against the LALR(1) lookaheads |
| `Actions`, `ParserActions` | Actions.dfy, ParserActions.dfy | resolve_conflict, CompressTables, FindActions |
| `Precedences` | Precedences.dfy | which actions are left, and which conflicts are counted, by precedences and rule numbers alone |
| `Resort`, `Stdlib` | Resort.dfy, Stdlib.dfy | compute_action, ResortStates |
| `ActTab`, `Packing`, `Report` | ActTab.dfy, Packing.dfy, Report.dfy | acttab_insert and the table part of ReportTable |
| `Crowding`, `CrowdedParsers` | Crowding.dfy, CrowdedParsers.dfy | a one-rule grammar whose packing loses a set, and the parser that is made of it |
| `Generator` | Generator.dfy | the passes in order, from the grammar to the tables |
| `Lempar` | Lempar.dfy | the driver: the parser object with its stack, and what one step does |
| `Soundness`, `Reporting`, `Completeness`, `Termination`, `Correctness` | the files of these names | the theorems about whole runs |
| `Gap`, `GapParsers` | Gap.dfy, GapParsers.dfy | a grammar with a missed lookahead, and the parser that is made of it |
| `Endless`, `EndlessParsers` | Endless.dfy, EndlessParsers.dfy | a grammar without conflicts whose parser never ends |

The main results, each for all grammars and all inputs:

- **Soundness.**  If its table was packed without loss (see Packing), whatever a generated
  parser accepts without an error is a sentence of the grammar, whatever conflicts the
  grammar had, however they were resolved, and whatever defaults were chosen.  No
  assertion of the driver fails in any run, and no input with errors goes unreported.
  (`Correctness.GeneratedIsSound`, `Soundness.DriverSound`)  The condition on packing is
  needed: on a grammar of one rule, without conflicts, every run of the generator loses a
  set, and the parser it makes runs off its stack.  (`CrowdedParsers.CrowdAborts`)
- **Exactness.**  If, besides, the automaton has no conflicts and every nullable
  nonterminal has an empty rule of its own, the generated parser accepts exactly the
  sentences, builds the parse tree of each, and that tree is the only one.
  (`Correctness.GeneratedIsExact`, `Completeness.DriverComplete`,
  `Completeness.Unambiguous`)  The condition on nullable nonterminals is needed: there is
  a grammar of four rules for which every parser with a table packed without loss rejects
  a sentence.  (`GapParsers.GapRejectsSentence`)
- **Decision.**  If, besides, every nonterminal on a right-hand side vanishes or begins
  with some token, the parser ends on every input, and so decides the language.
  (`Correctness.GeneratedDecides`, `Termination.FeedEnds`)  Without the condition on
  nullable nonterminals it need not end: there is a grammar of seven rules, without
  conflicts in its automaton, whose parsers reduce empty rules for ever on the empty
  input.  (`EndlessParsers.EndlessNeverEnds`)
- **Packing.**  A run logs its insertions into the action table as a chain from the empty
  table to the finished one.  Every lookup finds what the action set of its state has, or
  nothing, if and only if each insertion, on the table it met, found a duplicate, a hole,
  or an offset past the end that no set of its own kind (of tokens, of nonterminals) uses.
  Enough room behind the used slots ensures this.  What a set has is always found; what it
  does not have may be found where a set went to an offset in use.
  (`Correctness.ReadableIffFitting`, `Packing.ChainLog`, `ActTab.InsertCorrectIff`,
  `Correctness.RoomyIsSound`, `Report.ListedIsFound`, `Crowding.CrowdCollides`)
- **Lookaheads.**  Every computed lookahead is an LALR(1) lookahead, defined by derivations
  of items and parse trees; none is missing if and only if the computed sets obey the
  propagation rules for what truly begins and truly vanishes, and so wherever what stands
  behind the predicted nonterminals vanishes and begins without skipping a nonterminal
  that has no empty rule of its own; on the grammar above one is missing.
  (`Lalr.LookaheadsSound`, `Lalr.LookaheadsExactIff`, `Lalr.LookaheadsAreLALR1`,
  `Gap.GapMissesLookahead`)
- **First sets.**  The lambda flags are exactly "has an empty rule"; they decide
  nullability if and only if a closure condition on the rules holds, and then the first
  sets are exact.  (`FirstSets.LambdaExactIff`, `FirstSets.FirstExactWhenClosed`)
- **Conflicts.**  What resolution leaves on a token is said over the automaton, the
  precedences and the numbers of the rules: when its shift is kept, and otherwise which
  reduction; a conflict is counted exactly where nothing decides between an action and
  the one preferred among those before it; and the default is by the rule reduced on most
  tokens, of equal ones the one with the first token.  (`ParserActions.ShiftKeptIff`,
  `Precedences.ReductionKeptIff`, `Precedences.ConflictsCounted`,
  `Precedences.DefaultRule`)
- **Errors.**  A syntax error is reported if and only if there was none before it in the
  parse, or at least three tokens have been shifted since the last one.
  (`Reporting.ReportedIff`)
- **Sorting.**  The list sort is a sorted permutation if and only if the list has fewer
  than 2^30 nodes.  (`MSort.SortCorrect`)

The theorems about a whole run of the generator speak of `Generator.Run`, the data that
a run leaves beside the tables; `Run.l.log` lists the insertions into the action table,
each with the table it met and the table it left (`Packing.Chained`), and
`Report.AllFit` says that each found its place.

## Decimals

`include/dbwtl/util/bcd.hh` keeps a number as decimal digits, a scale and a sign.  The
specification is the rational number denoted (`BcdValues.Value`).  Addition of equal
signs and operator*= are exact; for everything that goes through the ten's complement
there is a condition on the operands, and the result is right if and only if it holds
(`Complements.SubtractedIff`, `Bcds.Bcd.AddAssign`, `Bcds.Bcd.SubAssign`).  Multiplication
by repeated addition, given a negative number, goes wrong exactly where a zero digit of
the multiplier stands above one that is not zero, and never comes right again
(`Products.ProductNegative`, `Bcds.Bcd.Mul`).  Reading what was printed gives back every
number, a text is refused exactly where a character is misplaced, and a separator behind
the radix moves the point (`BcdText.StrIsRead`, `BcdText.RefusedIff`,
`BcdText.SeparatorsMovePoint`).  Files: Decimals.dfy, BcdValues.dfy, Complements.dfy,
Products.dfy, Bcds.dfy, BcdText.dfy.

## The result cache

`src/cachedresult.cc` caches the rows of a forward source.  Every operation is a function
of what a client can observe (`CachedResults.View`), and after any sequence of operations
the cache agrees with direct indexing of the source rows.  Attaching another source to an
open result keeps the rows in the cache; it stays a part of one source exactly if the new
rows go on where it ends (`CachedResults.AttachKeepsSourceIff`).  The number of the current row
survives closing; on a result that is opened again it makes a scan skip rows, and stepping
back can fail an assertion (`CachedResults.ScanSeesAllIff`, `CachedResults.PrevCanAbortIff`,
`CachedResults.NextAfterReopen`).  Files: RecordSets.dfy, CachedResults.dfy.

## Where the code and its documentation differ

- `lemon/lemon.c:676` calls the lambda nonterminals those that "generate the empty
  string"; the loop finds those with an empty rule.  The model follows the code.
- `lemon/lemon.c:605-606` says that without a hole the transaction is appended at
  nAction; the loop leaves the index at the end of its range, a different place.  The
  model follows the code.
- `include/dbwtl/util/bcd.hh:580-585` describes subtraction by complement for all
  operands; the complement of zero has a digit too many, and a shorter minuend can be
  lost.  The model follows the code.

## Checking

`dafny verify dfyconfig.toml` checks the whole project.

## Model

| member | source | states |
|---|---|---|
| `MSort.Msort` | lemon/lemon.c:1634-1658 | Relinking the nodes in place leaves a null-terminated list whose data is `Sorted` of the old data; only `next` fields of the given nodes change. |
| `MSort.Merge` | lemon/lemon.c:1582-1618 | Merging two disjoint lists by relinking yields one list of exactly their nodes, in merged order. |
| `MSort.MergeLoop` | lemon/lemon.c:1602-1615 | The loop appends the smaller head until one list is used up and links the rest of the other. |
| `MSort.CarryInto` | lemon/lemon.c:1645-1654 | One turn of the main loop adds a node to the bins exactly as `Carried` says, the bins staying disjoint lists. |
| `MSort.Drain` | lemon/lemon.c:1655-1657 | The last loop merges all bins, smallest first, into the final list. |
| `MSort.SortSeq` | lemon/lemon.c:408-414 | Linking a sequence into a list, sorting it and reading it back gives `Sorted` of the sequence. |
| `MSort.MergedSorted` | lemon/lemon.c:1582-1618 | Merging two sorted runs under a total preorder is sorted. |
| `MSort.MergedKeepsElements` | lemon/lemon.c:1582-1618 | Merging neither loses nor repeats an element. |
| `MSort.MergedTies` | lemon/lemon.c:1602-1615 | Of elements that compare equal, merging puts those of the first list first and keeps the order of each list. |
| `MSort.CarryKeepsCounter` | lemon/lemon.c:1648-1653 | Bin i is empty or holds exactly 2^i nodes, after every insertion. |
| `MSort.CarryKeepsContent` | lemon/lemon.c:1648-1653 | No node is lost by a carry as long as some bin from i on is empty. |
| `MSort.CounterCapacity` | lemon/lemon.c:1633-1654 | n bins hold at most 2^n - 1 nodes, and that many if and only if none is empty. |
| `MSort.SortCorrect` | lemon/lemon.c:1634-1658 | The result is always sorted; it is a permutation of the input if and only if the input has fewer than 2^30 nodes. |
| `ActTab.Acttab.Action` | lemon/lemon.c:509-533 | The pair joins the transaction; the recorded minimum and maximum lookahead stay right, and the transaction stays one without repetitions if and only if the lookahead is new to it. |
| `ActTab.Acttab.EnsureRoom` | lemon/lemon.c:546-564 | The table grows by empty slots, enough to append the transaction at its used end. |
| `ActTab.Acttab.MatchesAt` | lemon/lemon.c:577-595 | The test at slot i succeeds if and only if the whole transaction, and nothing else, is stored at that offset. |
| `ActTab.Acttab.FindDuplicate` | lemon/lemon.c:566-596 | Finds the highest offset at which the transaction is stored exactly, or -1 if and only if there is none. |
| `ActTab.Acttab.HoleAt` | lemon/lemon.c:608-621 | The hole test succeeds if and only if the offset fits: slots free, and no used slot reads as part of it. |
| `ActTab.Acttab.FindHole` | lemon/lemon.c:602-623 | Finds the first fitting offset of the search range, else leaves the index one past it. |
| `ActTab.Acttab.Insert` | lemon/lemon.c:542-635 | The offset is the highest duplicate, else the first hole, else the end of the range; the table is the grown old one with the transaction written there; the transaction is reset. |
| `ActTab.PlaceableKeeps` | lemon/lemon.c:624-634 | Writing a transaction where it is placeable makes it readable exactly and leaves every other stored transaction readable exactly. |
| `ActTab.OffsetsDistinct` | lemon/lemon.c:566-623 | Two different transactions never share an offset. |
| `ActTab.InsertCorrectIff` | lemon/lemon.c:542-635 | An insertion serves its own and all earlier transactions if and only if it found a duplicate or a hole, or the untested end offset is unused. |
| `ActTab.RoomSuffices` | lemon/lemon.c:550-551 | If the smallest lookahead is at most 1, or the slots reach nAction + mn + mx, the insertion is correct. |
| `Crowding.CrowdStates` | lemon/lemon.c:743-910 | For a grammar with the one rule S to d a ... a d, sixteen a between, the automaton of every run is a chain of nineteen states. |
| `Crowding.CrowdCollides` | lemon/lemon.c:607-623 | In every packing of its action sets an insertion does not fit: two states with different sets get the same offset. |
| `CrowdedParsers.CrowdAborts` | lemon/lempar.c:554-627 | In every run of the generator on this grammar packing is not fitting, and on d, fifteen a, d and the end of input the parser reduces the rule of eighteen symbols with seventeen on its stack. |
| `CrowdedParsers.GenerateCrowded` | lemon/lemon.c:1484-1515 | The generator makes such a parser. |
| `FirstSets.FindLambdas` | lemon/lemon.c:694-708 | The loop ends, and a symbol has its flag if and only if it has a rule with an empty right-hand side. |
| `FirstSets.FirstOfRule` | lemon/lemon.c:714-733 | Scanning one rule adds exactly the first tokens of its right-hand side; progress is reported if and only if the set grew. |
| `FirstSets.FirstPass` | lemon/lemon.c:713-733 | One pass over the rules keeps the sets below every solution; without progress every rule is satisfied. |
| `FirstSets.SuffixTrees` | lemon/lemon.c:714-733 | Whatever the equations put into a first set is the first leaf of trees for the symbols. |
| `FirstSets.FindFirstSets` | lemon/lemon.c:681-736 | Both loops end; the first sets are the least solution of the equations of all rules. |
| `FirstSets.FirstExact` | lemon/lemon.c:710-734 | Token a is in the first set of B if and only if B derives a form beginning with a, skipping only flagged symbols. |
| `FirstSets.LambdaExactIff` | lemon/lemon.c:694-708 | The flags decide nullability if and only if no rule of flagged nonterminals only has an unflagged left-hand side. |
| `FirstSets.EmptyByRuleIff` | lemon/lemon.c:695-711 | The flags decide nullability if and only if every nullable nonterminal has an empty rule of its own: a condition on the grammar alone. |
| `FirstSets.FirstExactWhenClosed` | lemon/lemon.c:681-736 | If the flags decide nullability, the first set of B is exactly the set of tokens that can begin what B derives. |
| `Configlist.ScanSuffix` | lemon/lemon.c:1268-1284 | The scan adds exactly the first tokens of the suffix and reaches its end if and only if every symbol of it is flagged. |
| `Configlist.PredictRule` | lemon/lemon.c:1266-1285 | Predicting one rule adds its item, extends its follow set and links it exactly when the whole suffix is flagged. |
| `Configlist.PredictAll` | lemon/lemon.c:1265-1284 | All rules of the nonterminal after the dot are predicted, and no others. |
| `Configlist.Closure` | lemon/lemon.c:1246-1288 | The loop over the growing list ends with every item processed and the tables of `ClosureDone`. |
| `Configlist.ClosureIsClosure` | lemon/lemon.c:1246-1288 | The list holds exactly the least set above the basis that is closed under prediction. |
| `Configlist.ClosureTables` | lemon/lemon.c:1266-1285 | Follow sets hold exactly the initial tokens and the first tokens behind each predicting item; links lead to exactly the items predicted with a flagged suffix. |
| `SortedItems.SortItems` | lemon/lemon.c:1291-1303 | Sorting a configuration list gives the same items, ordered by rule and then by dot. |
| `SortedItems.OrderedUnique` | lemon/lemon.c:4608-4631 | Two ordered lists of the same items are equal, so comparing bases element by element compares the sets. |
| `FindStates.ShiftBasis` | lemon/lemon.c:885-893 | The basis for symbol x is exactly the items of the state with x after the dot, advanced, each linked back; exactly these are marked. |
| `FindStates.Lemon.StateFind` | lemon/lemon.c:4757-4770 | Returns a state with the given basis, or says that there is none. |
| `FindStates.Lemon.CopyLinks` | lemon/lemon.c:814-825 | Reusing a state adds the back links of the new list and changes nothing else. |
| `FindStates.Lemon.GetState` | lemon/lemon.c:802-841 | Returns the state with the basis, an old one or a new one with all successors built; the recursion ends since new bases shrink the finite set of those not yet seen. |
| `FindStates.Lemon.BuildShifts` | lemon/lemon.c:862-910 | Afterwards every symbol after a dot of the state has a successor state, its shift actions, and back links; all states entered on the way are finished too. |
| `FindStates.Lemon.AddShifts` | lemon/lemon.c:901-908 | Adds the shift on the symbol, or one for each token of a multi-terminal, and nothing else. |
| `FindStates.Lemon.ActionAdd` | lemon/lemon.c:416-433 | The action is put in front of the list; the invariant and all finished states stay. |
| `FindStates.Lemon.Build` | lemon/lemon.c:781-796 | The whole construction ends, with the invariant of all states and every state finished. |
| `FindStates.NewStateInv` | lemon/lemon.c:826-838 | A new state, its closure sorted and its links copied, meets the invariant of states. |
| `FindStates.NewBasisRemains` | lemon/lemon.c:812-838 | A basis not seen before strictly shrinks the finite set of bases still possible. |
| `Lookaheads.FindLinks` | lemon/lemon.c:915-943 | The links of a configuration are exactly its forward links and the back links of others that name it. |
| `Lookaheads.BuiltIsLR0` | lemon/lemon.c:743-910 | The finished states are the LR(0) automaton: kernels pairwise distinct, closures least, the successor on x exactly the items with x after the dot, advanced. |
| `Lookaheads.BuiltInOrder` | lemon/lemon.c:802-841 | Every state but the first is entered from a state with a smaller number. |
| `Lookaheads.LookaheadsClosed` | lemon/lemon.c:950-980 | The final follow sets satisfy the four rules of lookahead propagation. |
| `Lookaheads.LookaheadsExact` | lemon/lemon.c:950-980 | A token is in the follow set of an item of a state if and only if the lambda flags and first sets foresee it in some derivation of the item over a prefix leading to the state. |
| `Lalr.LookaheadsSound` | lemon/lemon.c:950-980 | Whatever the grammar, every computed lookahead is an LALR(1) lookahead, as parse trees define it: it begins a form that can be derived behind the rule. |
| `Lalr.LookaheadsExactIff` | lemon/lemon.c:950-980 | The computed lookaheads are all LALR(1) lookaheads if and only if they obey the propagation rules for true first tokens and truly nullable suffixes. |
| `Lalr.LookaheadsAreLALR1` | lemon/lemon.c:950-980 | If whatever stands behind a predicted nonterminal vanishes, and begins with its first tokens, by skipping only nonterminals with an empty rule of their own, the computed lookaheads are exactly the LALR(1) lookaheads. |
| `Lalr.EmptyByRuleIsPlain` | lemon/lemon.c:694-708 | The condition of `LookaheadsAreLALR1` holds wherever every nullable nonterminal has an empty rule of its own. |
| `Lalr.ChainIsPlain` | lemon/lemon.c:694-708 | It also holds of S to A, A to B, B to nothing, where A has no empty rule. |
| `Gap.LambdaCanMiss` | lemon/lemon.c:699-706 | A grammar with a nullable nonterminal that the flags miss. |
| `Gap.GapMissesLookahead` | lemon/lemon.c:699-706 | On this grammar an item has no computed lookahead at all, while a token is an LALR(1) lookahead of it. |
| `GapParsers.GapRejectsSentence` | lemon/lemon.c:699-706 | The parser generated for this grammar rejects one of its sentences, in every fitting run and with any fuel. |
| `FollowSets.Propagate` | lemon/lemon.c:967-976 | Sending a set along its links marks exactly the changed targets incomplete and keeps every complete configuration propagated. |
| `FollowSets.Pass` | lemon/lemon.c:965-978 | One pass keeps the invariant and reports progress if a set changed. |
| `FollowSets.FindFollowSets` | lemon/lemon.c:950-980 | The loop ends, and a token is in a final set if and only if a path of links brings it there from an initial set. |
| `FollowSets.CompleteExact` | lemon/lemon.c:964-979 | When all configurations are complete no update has been lost: the sets are exactly what paths bring. |
| `FollowSets.CompleteLeast` | lemon/lemon.c:964-979 | The sets are the least family above the initial ones that is closed under the links. |
| `Actions.ActionSort` | lemon/lemon.c:389-414 | The list becomes a permutation of itself, sorted by symbol, kind and, for reductions, rule number. |
| `Actions.ResolveDecides` | lemon/lemon.c:1069-1131 | Of two competing actions exactly one survives; the loser's mark says whether it was reported or decided by precedence. |
| `Actions.ChampionIffPreferred` | lemon/lemon.c:1069-1131 | Of the actions on a symbol, the one left when all have met in turn is the first, unless a reduction overrules that shift or the first is a reduction with a precedence: then it is the first reduction of highest precedence. |
| `ParserActions.ShiftKeptIff` | lemon/lemon.c:1081-1102 | In a resolved list the only shift of the automaton on a token is kept if and only if no reduction of the automaton on that token has a higher precedence, or the same with left associativity. |
| `Precedences.ReductionKeptIff` | lemon/lemon.c:1081-1117 | Over the actions of the automaton alone: the reduction kept on a token is, where an overruled shift competes, the one of highest precedence; without a shift the one by the first rule, if that has no precedence, else the one of highest precedence; of equal ones the one by the first rule. |
| `Precedences.ResolveByPrecedence` | lemon/lemon.c:1069-1131 | Of two competing actions one is marked without a report exactly where both have a precedence and these differ, or are equal and the associativity of the token decides for the other; it is reported exactly where nothing decides. |
| `Precedences.MarksSay` | lemon/lemon.c:1026-1039 | In a resolved list a mark of precedence stands only where precedence or associativity decides for another action of the symbol, and an action is reported if and only if nothing decides between it and the action preferred among those before it. |
| `Precedences.ConflictsCounted` | lemon/lemon.c:1034-1036 | The number of conflicts is the number of actions, over all states, for which nothing decides in this sense. |
| `Actions.ResolveConflicts` | lemon/lemon.c:1026-1039 | Every symbol keeps exactly one active action, the one that the precedences call for; every other one was beaten by the action left when its turn came; and the count is the number of reported losers. |
| `Actions.ResolveAt` | lemon/lemon.c:1033-1037 | One comparison drops at most one of the two actions, justifiably, and leaves the symbol an active action. |
| `Actions.CountRule` | lemon/lemon.c:4101-4107 | The inner loop counts the reductions by the rule from the current action on. |
| `Actions.NoConflictMeansPrecedence` | lemon/lemon.c:1026-1039 | If nothing was reported, every dropped action was dropped by precedence or associativity. |
| `Actions.BestRule` | lemon/lemon.c:4093-4112 | The rule found has the largest count among all rules reduced in the state that are not start rules, and is the first of those with this count; none is found if and only if only start rules are reduced. |
| `Actions.MakeDefault` | lemon/lemon.c:4121-4129 | The first reduction by the rule becomes the default, the others are marked unused, nothing else changes. |
| `Actions.Compress` | lemon/lemon.c:4078-4132 | The compressed list has one active action a symbol: the old ones except the reductions folded into the default. |
| `Actions.CompressionKeeps` | lemon/lemon.c:4078-4132 | Every symbol keeps its action, explicitly or by default; a symbol without one gets at most the default, never a reduction to the start symbol. |
| `ParserActions.AddAllReduces` | lemon/lemon.c:999-1011 | Adds a reduction for exactly the tokens in the follow set of each complete item. |
| `ParserActions.CollectActions` | lemon/lemon.c:998-1023 | The lists of all states with their reductions, and acceptance in state 0; for a grammar of moderate size each is within the capacity of the sort. |
| `ParserActions.ShiftIffEdge` | lemon/lemon.c:896-908 | The shift actions of a state are exactly the edges of the automaton. |
| `ParserActions.RawListBuilt` | lemon/lemon.c:994-1024 | The list built for a state holds exactly the actions the automaton calls for. |
| `ParserActions.StateSize` | lemon/lemon.c:994-1024 | The length of an action list is bounded by the items and symbols of the grammar, so the list sort is within its capacity. |
| `ParserActions.FindActions` | lemon/lemon.c:986-1039 | For every state the list is the raw list of the automaton with its conflicts resolved; the number returned counts the reported ones. `Precedences` says what both mean. |
| `ParserActions.CompressTables` | lemon/lemon.c:4078-4132 | Every state's list is compressed. |
| `Precedences.DefaultRule` | lemon/lemon.c:4086-4124 | The default of a state is by the rule reduced on most tokens, start rules aside, of equal ones by the one with the first token; without a default no other rule is reduced. |
| `ParserActions.StartReducesAtEnd` | lemon/lemon.c:784-789 | Items of start rules have no lookahead but the end marker, so start rules are reduced, and parses accepted, only there. |
| `ParserActions.FinalFits` | lemon/lemon.c:986-1039 | In a final list every active action is one of the automaton, start rules are reduced only at the end marker, and every move after a reduction is present. |
| `ParserActions.TakenIsRawOrDefault` | lemon/lemon.c:4113-4130 | What a final list takes on a symbol is an action of the automaton there, or, where there is none, the default reduction. |
| `ParserActions.ConflictFreeTakes` | lemon/lemon.c:4078-4132 | Without conflicts every action of the automaton is taken, explicitly or as the default. |
| `Resort.CountActions` | lemon/lemon.c:4168-4184 | Counts exactly the generated token and nonterminal actions and finds the code of the default. |
| `Resort.CountIsSize` | lemon/lemon.c:4172-4184 | The counts are the numbers of actions left on tokens and on nonterminals. |
| `Resort.NumberRows` | lemon/lemon.c:4188-4190 | The new numbers are the inverse of the order of the states. |
| `Resort.ResortStates` | lemon/lemon.c:4162-4191 | The rows are those of all states: state 0 first, then those with more nonterminal actions first, of equal ones those with more token actions, then those made later; the new numbers are the inverse of that order. |
| `Resort.RenumberedIsLR0` | lemon/lemon.c:4186-4190 | Renumbering keeps the LR(0) automaton. |
| `Packing.OrderSets` | lemon/lemon.c:3714-3733 | The action sets of all states, each once, the largest first, of equal ones the later first. |
| `Packing.Collect` | lemon/lemon.c:3738-3756 | The transaction collected is exactly the generated actions of the state in the given range of symbols. |
| `Report.PackOne` | lemon/lemon.c:3735-3761 | Inserting the action set of one state is one logged insertion of exactly that set, into the table before it, leaving the table after it. |
| `Packing.UnfittingIsForeign` | lemon/lemon.c:3735-3761 | An insertion that does not fit leaves a lookup of its own kind that finds an entry the set does not have. |
| `Packing.LogInsert` | lemon/lemon.c:3735-3761 | A fitting insertion keeps every lookup right; what an unfitting one spoils stays spoiled. |
| `Packing.ChainLog` | lemon/lemon.c:3735-3761 | Along a chain of insertions from the empty table: while all fit, every lookup in the last table finds what its set has, or nothing; one that did not fit has a lookup there that finds a foreign entry. |
| `Packing.ChainStores` | lemon/lemon.c:624-634 | Along any chain of insertions every pair of every set is in the last table, at its place. |
| `Packing.RoomyFits` | lemon/lemon.c:550-571 | An insertion with room for its smallest lookahead behind the used slots is fitting. |
| `Report.PackTables` | lemon/lemon.c:3714-3761 | All non-empty action sets are inserted, largest first; the log chains the insertions from the empty table to the finished one; each state records the offset of its sets, and the minimum offset is at most every offset. |
| `Report.ServedIffFitting` | lemon/lemon.c:3735-3761 | Every lookup in the finished table, of token codes for token sets and of nonterminal codes for the others, finds what the set has, or nothing, if and only if no insertion went untested to an offset in use by a set of its own kind. |
| `Report.ListedIsFound` | lemon/lempar.c:382-437 | Whether packing was fitting or not, the lookup of a state on a token finds the generated action that its list has for it. |
| `Report.RoomyPackingFits` | lemon/lemon.c:550-571 | If each logged insertion has a smallest lookahead of at most 1, or slots enough for it behind the used ones, all insertions are fitting. |
| `Report.EmitOffsets` | lemon/lemon.c:3798-3845 | The array stops after the last state with an offset and holds the offset, or the use-default value, of each state before. |
| `Report.EmitSlots` | lemon/lemon.c:3764-3796 | The arrays hold the used slots, empty ones as the no-action code and the symbol count. |
| `Report.ReportTable` | lemon/lemon.c:3710-3862 | The arrays are the contents of the table at the end of a chain of insertions of the action sets of all rows, the offsets and defaults of the rows, and the shapes of the rules. |
| `Report.ShiftRefines` | lemon/lempar.c:382-437 | The lookup under a token finds exactly the state's generated action for it, else the state's default. |
| `Report.ReduceRefines` | lemon/lempar.c:447-472 | The assertions of the lookup under a nonterminal hold if and only if the state has a move on it, which is then found. |
| `Generator.FindLookaheads` | lemon/lemon.c:1484-1498 | The first passes in order: first sets, states, links, follow sets. |
| `Generator.LayoutShifts` | lemon/lemon.c:3710-3862 | Every lookup in the emitted arrays gives an action of the renumbered automaton or the error action. |
| `Generator.LayoutGotos` | lemon/lemon.c:3710-3862 | Every move that a reduction can need is found in the emitted arrays. |
| `Generator.LayoutTakesAll` | lemon/lemon.c:3710-3862 | If the final lists take all actions of the automaton, so do the emitted arrays. |
| `Generator.Generate` | lemon/lemon.c:1484-1515 | The tables come out of a run of all passes in order, each meeting its specification, with the chain of insertions that packed them; the number returned counts the conflicts that precedence does not decide. |
| `Lempar.Parser.constructor` | lemon/lempar.c:269-284 | A new parser is empty. |
| `Lempar.Parser.YyGrowStack` | lemon/lempar.c:238-254 | The stack doubles and gains 100 entries; its contents stay. |
| `Lempar.Parser.YyFindShiftAction` | lemon/lempar.c:382-437 | The lookup is `FindShiftAction` of the top state. |
| `Lempar.Parser.YyFindReduceAction` | lemon/lempar.c:447-472 | The lookup is `FindReduceAction`, and none of its assertions fails when it is defined. |
| `Lempar.Parser.YyShift` | lemon/lempar.c:495-536 | Pushes one entry, growing the stack when it is full. |
| `Lempar.Parser.YyPopAll` | lemon/lempar.c:676 | The stack is emptied, nothing else changes. |
| `Lempar.Parser.TopMinors` | lemon/lempar.c:591-605 | The values of the right-hand side, in order. |
| `Lempar.Parser.YyReduce` | lemon/lempar.c:554-627 | Pops the right-hand side, builds the tree, and pushes the left-hand side or accepts. |
| `Lempar.Parser.YyError` | lemon/lempar.c:829-846 | The error is reported if no other was within the last three shifts; the token is dropped, and at the end of the input the stack is emptied. |
| `Lempar.Parser.Iterate` | lemon/lempar.c:742-849 | One turn of the loop is `Step` on the contents of the parser. |
| `Lempar.Parser.Parse` | lemon/lempar.c:702-851 | One call of the parser is `Call` on its contents; when the fuel runs out, the contents are those after that many turns of the loop. |
| `Lempar.FuelImmaterial` | lemon/lempar.c:735-850 | More fuel gives the same result, or goes on from where the fuel ran out. |
| `Soundness.ItemSeesStack` | lemon/lempar.c:554-627 | An item with its dot at d in the top state means that the top d symbols match the first d of its rule, and the state below has the item with the dot at the left. |
| `Soundness.ReduceGoes` | lemon/lempar.c:602-626 | Below the right-hand side there is always a state with a move on the left-hand side; start rules are reduced only down to the bottom. |
| `Soundness.ReducedTree` | lemon/lempar.c:554-627 | The trees on top of the stack form a tree for the rule reduced. |
| `Soundness.StepKeeps` | lemon/lempar.c:742-849 | No assertion fails in any turn, the stack stays a path of the automaton with trees for its symbols, and a parse ends only under the end marker. |
| `Soundness.LoopKeeps` | lemon/lempar.c:702-851 | The same for a whole call: the token is shifted, or dropped as an error, or the parse is accepted. |
| `Soundness.DriverSound` | lemon/lempar.c:702-851 | Fed any tokens and the end marker, the driver never fails an assertion; if it accepts, the tokens it shifted are a sentence with the tree built, and every other token was counted as an error; if there were errors, at least one was reported. |
| `Soundness.FeedTokens` | lemon/lempar.c:742-849 | Every token fed to an open parse is shifted or counted as an error, in order. |
| `Soundness.AcceptedIsSentence` | lemon/lempar.c:667-681 | Input accepted without an error is a sentence. |
| `Reporting.ReportedIff` | lemon/lempar.c:829-846 | Fed any tokens from the start of a parse, and one more or the end marker, the driver counts an error exactly if it drops that one, and reports it if and only if there was no error before, or at least three tokens have been shifted since the last one. |
| `Completeness.RecogniseTree` | lemon/lempar.c:742-849 | Where a symbol is expected and the next token can follow it, the driver reads the tokens of any tree for the symbol and pushes that tree. |
| `Completeness.DriverComplete` | lemon/lempar.c:702-851 | If the tables take every action of the automaton, the driver accepts the tokens of every parse tree, without an error, and builds that very tree. |
| `Completeness.Unambiguous` | lemon/lemon.c:1026-1039 | If no action is lost, a sentence has one parse tree. |
| `Termination.SameTurns` | lemon/lempar.c:742-849 | The reductions that a call has made under one token it would have made under any token that can come after them. |
| `Termination.ComingEnds` | lemon/lempar.c:742-849 | If the tables take every action, a call ends with every token that can come next along a derivation of an item of the top state. |
| `Termination.CallEnds` | lemon/lempar.c:702-851 | If, besides, every nullable nonterminal has an empty rule and every nonterminal on a right-hand side vanishes or begins with a token, a call ends with every token. |
| `Termination.FeedEnds` | lemon/lempar.c:702-851 | Under these conditions the driver gets through any tokens, sentence or not. |
| `Correctness.ReadableIffFitting` | lemon/lemon.c:3735-3761 | For a whole run of the generator: every lookup in the packed table finds the action of the final list, or nothing, if and only if every insertion of its chain was fitting. |
| `Correctness.RoomyRunFits` | lemon/lemon.c:550-571 | For a whole run: room for the smallest lookahead of each set behind the used slots makes packing fitting. |
| `Correctness.ProducedFits` | lemon/lemon.c:1484-1515 | If packing was fitting, the tables fit the renumbered LR(0) automaton of the grammar. |
| `Correctness.GeneratedIsSound` | lemon/lempar.c:702-851 | If packing was fitting, whatever a generated parser accepts without an error is a sentence of the grammar, whatever conflicts there were. |
| `Correctness.RoomyIsSound` | lemon/lempar.c:702-851 | The same under the condition on room alone, which compares sizes of the table and of the sets. |
| `Correctness.NothingDroppedMeansConflictFree` | lemon/lemon.c:1026-1039 | If resolution dropped nothing, no state has two actions on a symbol. |
| `Correctness.GeneratedIsExact` | lemon/lempar.c:702-851 | If the automaton has no conflicts, packing was fitting and every nullable nonterminal has an empty rule, the generated parser accepts exactly the sentences. |
| `Correctness.GeneratedDecides` | lemon/lempar.c:702-851 | If, besides, every nonterminal on a right-hand side vanishes or begins with a token, the parser with enough fuel ends on every token string, and accepts it without an error if and only if it is a sentence. |
| `Endless.EndlessConflictFree` | lemon/lemon.c:986-1039 | For a grammar of seven rules with hidden empty productions no state of the automaton has two actions on one symbol. |
| `EndlessParsers.OnlyTakes` | lemon/lemon.c:4078-4132 | In a state without conflicts whose only reductions are by one rule, the final list takes this rule on every token that calls for nothing else. |
| `EndlessParsers.EndlessNeverEnds` | lemon/lempar.c:735-850 | The parser of every fitting run on that grammar does not get through the empty input with any fuel. |
| `EndlessParsers.EndlessIsFruitful` | lemon/lemon.c:694-708 | Of the conditions of `GeneratedDecides` this grammar lacks only the one on nullable nonterminals. |
| `Decimals.FirstDifference` | include/dbwtl/util/bcd.hh:353-362 | The first differing digit decides the order of strings of one length. |
| `BcdValues.ShiftLeft` | include/dbwtl/util/bcd.hh:732-754 | The loop computes `ShiftedLeft`. |
| `BcdValues.ShiftLeftMultiplies` | include/dbwtl/util/bcd.hh:732-754 | Shifting left by c multiplies the value by 10^c, in all cases of the scale. |
| `BcdValues.ShiftRight` | include/dbwtl/util/bcd.hh:758-773 | The loop computes `ShiftedRight`, with a digit before the point. |
| `BcdValues.ShiftRightDivides` | include/dbwtl/util/bcd.hh:758-773 | Shifting right by c divides the value by 10^c. |
| `BcdValues.ScaleZero` | include/dbwtl/util/bcd.hh:870-881 | Both operands become the digits of integers at the larger scale. |
| `BcdValues.NormalizedUnique` | include/dbwtl/util/bcd.hh:836-865 | Normalized numbers with the same value and sign are the same digits. |
| `BcdValues.Less` | include/dbwtl/util/bcd.hh:339-363 | On normalized numbers `<` is the rational order, except that negative zero is below zero. |
| `BcdValues.Greater` | include/dbwtl/util/bcd.hh:365-388 | On normalized numbers `>` is the rational order, with the same exception. |
| `BcdValues.Equal` | include/dbwtl/util/bcd.hh:391-402 | On normalized numbers `==` is equality of values, except that zero and negative zero differ. |
| `Bcds.AddDigits` | include/dbwtl/util/bcd.hh:544-565 | The digit loop computes the sum of two digit strings, with the carry left over. |
| `Bcds.Bcd.SetValue` | include/dbwtl/util/bcd.hh:225-239 | The digits of an integer, normalized, with its sign. |
| `Bcds.Bcd.Normalize` | include/dbwtl/util/bcd.hh:836-865 | The value and sign stay, the form becomes canonical. |
| `Bcds.Bcd.Add` | include/dbwtl/util/bcd.hh:532-572 | Exactly the sum of the absolute values, normalized. |
| `Bcds.Bcd.Compl10` | include/dbwtl/util/bcd.hh:777-784 | The ten's complement of the digits, without leading zeros. |
| `Bcds.Bcd.NotBelow` | include/dbwtl/util/bcd.hh:410-413 | On normalized numbers the comparison of absolute values is that of the rationals; on integers with leading zeros the length decides first. |
| `Complements.SubtractedIff` | include/dbwtl/util/bcd.hh:587-639 | On digit strings the result is the signed difference if and only if the subtrahend is not zero and its complement fits; otherwise even the absolute value is wrong. |
| `Complements.LargerMinuendFits` | include/dbwtl/util/bcd.hh:587-639 | For normalized numbers, a minuend not below a subtrahend above zero always fits. |
| `Complements.ShortMinuendFails` | include/dbwtl/util/bcd.hh:600-606 | 5 - 95 comes out as 0. |
| `Products.ProductNegative` | include/dbwtl/util/bcd.hh:645-662 | For a negative integer, not zero, the sum of the partial products is the product if and only if no zero digit of the multiplier stands above one that is not zero. |
| `Products.ProductOfNegativeZero` | include/dbwtl/util/bcd.hh:645-662 | For negative zero the sum is zero only where the multiplier is. |
| `Products.ProductExactIff` | include/dbwtl/util/bcd.hh:645-662 | The exact condition over all signs, with the sign of the sum. |
| `Bcds.Bcd.Sub` | include/dbwtl/util/bcd.hh:587-639 | The exact difference of the absolute values, normalized, if and only if the subtraction fits; then it is negative exactly if the minuend is the smaller. |
| `Bcds.Bcd.AddAssign` | include/dbwtl/util/bcd.hh:422-442 | Equal signs always give the exact sum; otherwise it is exact if and only if the subtraction fits, and the sign is positive exactly if the positive operand is not the smaller one, so also for a zero sum. |
| `Bcds.Bcd.SubAssign` | include/dbwtl/util/bcd.hh:444-466 | The exact condition, over all signs and sizes, under which the difference comes out, and its sign, also where it is zero; x - x is plain zero for a positive x. |
| `Bcds.Bcd.Mul` | include/dbwtl/util/bcd.hh:645-662 | The product comes out, with the receiver's sign, if and only if the receiver is positive, or the multiplier zero, or the receiver is not zero and no zero digit of the multiplier, on the common scale, stands above one that is not zero. |
| `Bcds.Bcd.Multiple` | include/dbwtl/util/bcd.hh:654-655 | The inner loop computes `Times`, for either sign; the product theorems give it its meaning. |
| `Bcds.Bcd.MulAssign` | include/dbwtl/util/bcd.hh:489-497 | The exact product for all operands and signs, normalized. |
| `BcdText.SetStrvalue` | include/dbwtl/util/bcd.hh:262-309 | Sets the number that was scanned, normalized, or says that the text is malformed or an assertion fails. |
| `BcdText.WrittenIsRead` | include/dbwtl/util/bcd.hh:262-309 | Digits in any grouping, and the radix with digits behind it, are read as the number they write: a positive one after a plus or nothing, a negative one after a minus. |
| `BcdText.StrIsRead` | include/dbwtl/util/bcd.hh:313-327 | Reading what `str` writes gives back every number exactly, for every locale with distinct non-digit characters. |
| `BcdText.StrWrites` | include/dbwtl/util/bcd.hh:313-327 | `str` writes the digits of the number without grouping, the radix between them where there is a scale, and a minus before them if and only if the number is negative. |
| `BcdText.RefusedIff` | include/dbwtl/util/bcd.hh:269-303 | A text is refused as malformed if and only if nothing follows its sign, or some character is no digit, no separator and not the first radix behind the first character. |
| `BcdText.SeparatorsMovePoint` | include/dbwtl/util/bcd.hh:286-305 | Each separator behind the radix moves the point one place to the left; with no digit left before it the assertion on the scale fails. |
| `BcdText.LeadingRadixLosesScale` | include/dbwtl/util/bcd.hh:286-305 | A text beginning with the radix is read as an integer. |
| `RecordSets.RecordSet.Next` | src/recordset.cc:122-141 | Steps the cursor, and is at the end exactly behind the last row. |
| `RecordSets.RecordSet.First` | src/recordset.cc:105-119 | The cursor stands on the first row, or at the end when there is none. |
| `RecordSets.RecordSet.SetPos` | src/recordset.cc:154-164 | Succeeds if and only if the row exists; otherwise nothing changes. |
| `RecordSets.RecordSet.Column` | src/recordset.cc:231-244 | The value of the current row, or an exception exactly when there is no row or no such column. |
| `RecordSets.RecordSet.Insert` | src/recordset.cc:376-397 | Appends the row; an exception exactly when the set is closed or the number of columns differs. |
| `CachedResults.CachedResult.Open` | src/cachedresult.cc:100-116 | A closed result gets an empty cache over the source rows from the current position on, an exception without a source, a failed assertion without columns; an open one stays as it is. |
| `CachedResults.CachedResult.Attach` | src/cachedresult.cc:65-71 | The source is replaced; an open result keeps its rows and goes on, over the new source's rows from its position, if and only if that source is positioned and has as many columns. |
| `CachedResults.CachedResult.CopyRecord` | src/cachedresult.cc:159-181 | Appends the source's current row to the cache. |
| `CachedResults.CachedResult.SetPos` | src/cachedresult.cc:207-226 | Fetches as far as needed, and positions, exactly as `SetPosView` says. |
| `CachedResults.CachedResult.Next` | src/cachedresult.cc:125-130 | Positions on the row behind the current one. |
| `CachedResults.CachedResult.Prev` | src/cachedresult.cc:229-239 | Steps back, with the assertion that fails on a stale position. |
| `CachedResults.CachedResult.Last` | src/cachedresult.cc:186-204 | Fetches all rows and stands on the last, if there is one. |
| `CachedResults.CachedResult.FetchMore` | src/cachedresult.cc:306-316 | Fetches up to 100 more rows and returns their number. |
| `CachedResults.CachedResult.FetchAll` | src/cachedresult.cc:326-336 | Fetches all rows; an exception exactly when there is no source. |
| `CachedResults.CachedResult.MoreAvail` | src/cachedresult.cc:319-322 | True exactly when the source is attached and has rows that are not cached. |
| `CachedResults.CachedResult.DetachSource` | src/cachedresult.cc:340-343 | Only the source is given up; the cache and its position stay. |
| `CachedResults.CachedResult.Close` | src/cachedresult.cc:152-155 | The cache is emptied and closed; the number of the current row stays. |
| `CachedResults.CachedResult.Column` | src/cachedresult.cc:250-253 | The value of the current row of the view. |
| `CachedResults.RunKeeps` | src/cachedresult.cc:66-343 | In every run, attaching other sources included, the cache only grows; while the source is not replaced the rows stay those of the source; a current row among the fetched ones stays among them. |
| `CachedResults.SetPosAgrees` | src/cachedresult.cc:207-226 | After any calls on any result, reopened and attached ones included, positioning on a row from 1 up succeeds if and only if that row is cached or the source still has it, and then every column is that row's value; a row once cached stays the same row, and with one source every row is. |
| `CachedResults.AttachKeepsSourceIff` | src/cachedresult.cc:65-71 | After attaching another source to an open result the cache stays a part of the first source, whatever is called, if and only if the new rows go on where the cache ends. |
| `CachedResults.LastAgrees` | src/cachedresult.cc:186-204 | After any calls, last succeeds if and only if there is a row, cached or still in the source; then every column is that of the last one, and next refuses. |
| `CachedResults.SetPosFetches` | src/cachedresult.cc:207-226 | Positioning fetches no more rows than it needs; a refused one leaves the position, with everything fetched; row 0 leaves the row, but next goes to the first. |
| `CachedResults.PrevAgrees` | src/cachedresult.cc:229-239 | Prev refuses on the first row and before it; elsewhere it goes one row back, and next returns. |
| `CachedResults.FetchAgrees` | src/cachedresult.cc:306-336 | fetchMore fetches a hundred rows or all that are left, fetchAll all of them; neither moves the position. |
| `CachedResults.DetachedStays` | src/cachedresult.cc:340-343 | After detach nothing more is fetched in any run, until another source is attached; the cache and the position stay. |
| `CachedResults.RunNeverAborts` | src/cachedresult.cc:207-239 | No run on a fresh result fails an assertion, except by asking for row 0 before there is a position. |
| `CachedResults.PrevUndoesNext` | src/cachedresult.cc:125-130 | Stepping back undoes stepping on. |
| `CachedResults.PrevCanAbortIff` | src/cachedresult.cc:229-239 | Some run makes stepping back fail its assertion if and only if the current row number is more than one beyond the fetched rows. |
| `CachedResults.ScanSeesAllIff` | src/cachedresult.cc:125-130 | A scan of an opened result with next meets every row in order if and only if its row number is 0; otherwise that many rows are skipped. |
| `CachedResults.Reopen` | src/cachedresult.cc:298-302 | A result that is positioned on row 2, closed and opened again still has row number 2, and nothing is fetched. |
| `CachedResults.PrevAfterReopen` | src/cachedresult.cc:229-239 | Stepping back on it fails the assertion. |
| `CachedResults.NextAfterReopen` | src/cachedresult.cc:125-130 | Stepping on from it goes to the third row of the new source. |

## Left out

- The scanner and parser of grammar files, options, reports, and the text of the generated file: text plumbing; a grammar is given as data.
- FindRulePrecedences: the precedence symbol of each rule is part of the grammar given.
- Error messages: a start symbol on a right-hand side is excluded by `Grammar.WellFormed`; a nonterminal without rules and a rule that is never reduced are not reported.
- Hash tables and free lists (x1 to x4): finite maps and sequences searched by content; configurations and states are named by numbers and items instead of pointers.
- Linked lists other than in `MSort`: action, configuration and link lists are sequence fields; sorting them links their elements into nodes and calls the list sort.
- Actions.ActionSort: actions that compare equal except for their address may end in either order.
- Stdlib.Qsort: stands for the C library's function; only that its result is a sorted permutation is used.
- ActTab.Acttab.Action: what an insertion does with a transaction that repeats a lookahead; no list with one active action a symbol makes one.
- ParserActions.FindActions: the grammar must be small enough that no list reaches 2^30 elements (`ActionsSortable`), which is what the list sort can hold.
- Wildcard tokens, fallback tokens and the error symbol, with the recovery code that depends on it: not configured in the model.
- The option that skips ResortStates: without it the counters that ReportTable reads are never set.
- NO_OFFSET is an absent value instead of a special integer, and the C types chosen for the arrays are unbounded integers, so right-hand sides of more than 255 symbols and table overflow are not modelled.
- Correctness.GeneratedIsSound: that packing was fitting is a hypothesis on the log of the run, not proved of every grammar, since for some it is false (`CrowdedParsers.CrowdAborts`); `Correctness.RoomyIsSound` replaces it by a comparison of sizes.
- Lempar.Parser.Parse: takes the number of loop turns as fuel, because the driver need not end (`EndlessParsers.EndlessNeverEnds`); the amount does not matter (`Lempar.FuelImmaterial`), the theorems say what holds whenever a call ends, and `Termination.FeedEnds` when it does.
- Correctness.GeneratedDecides: that the driver ends is not proved of grammars with a nonterminal on a right-hand side that neither vanishes nor begins with a token, nor of those with conflicts.
- EndlessParsers.EndlessNeverEnds: speaks of runs whose packing was fitting; that the packing of this grammar is fitting is not proved.
- The driver's fixed-depth stack, destructors and tracing.
- User code in reductions: taken to build the parse tree.
- Bcds.Bcd.SetValue: integers are unbounded, so the absolute value of the smallest machine integer is not modelled.
- Division, inverse, remainder, rescaling, and conversion from and to floating point: they rest on a convergence that is not established, or do not keep the value.
- BcdText.SetStrvalue: a computed scale below zero wraps around to a huge number in C++ and fails the same assertion as a scale that is too large.
- CachedResults.CachedResult.Attach: what an open result does with a source that is not positioned, or has another number of columns.
- CachedResults.CachedResult.Open: the source is another RecordSet, with its cursor behind the last row when it is at the end; column descriptors and column names are not modelled.
- Iterators into a record set are indices, so their invalidation by insertion is not modelled.
- RecordSet's bad state, `last` and `prev`, which the cache never uses.
- SQL drivers, variants, dates, string and stream classes: foreign calls, input/output and finite tables.
- Lalr: symbols that derive no token string are not excluded from the definition of a lookahead; leaves of its trees may be any symbols.
