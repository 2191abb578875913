/**
  The driver template: a shift/reduce machine over the generated tables.

  The functions say what one iteration of the parsing loop and one call of the
  parser do to the parser state; `Parser` is the object with the state, whose
  methods push and pop the stack in place.  The reduce code of the grammar is
  taken to build the parse tree, so the value on the stack beside a symbol is the
  tree for that symbol.  This is the configuration without an error symbol,
  fallback or wildcard tokens, and with the growing stack.
*/
module Lempar {
  import opened Grammars

  // ----- the generated tables --------------------------------------------------------

  datatype Tables = Tables(
    nstate: nat,              // YYNSTATE
    nrule: nat,               // YYNRULE
    action: seq<int>,         // yy_action
    lookahead: seq<int>,      // yy_lookahead
    shiftOfst: seq<int>,      // yy_shift_ofst; YY_SHIFT_COUNT is its last index
    shiftUseDflt: int,        // YY_SHIFT_USE_DFLT
    reduceOfst: seq<int>,     // yy_reduce_ofst
    reduceUseDflt: int,       // YY_REDUCE_USE_DFLT
    dflt: seq<int>,           // yy_default
    ruleInfo: seq<RuleInfo>)  // yyRuleInfo

  datatype RuleInfo = RuleInfo(lhs: nat, nrhs: nat)

  /** The arrays have matching sizes. */
  predicate Shaped(t: Tables) {
    && |t.action| == |t.lookahead|
    && |t.shiftOfst| <= t.nstate && |t.reduceOfst| <= t.nstate && |t.dflt| == t.nstate
    && |t.ruleInfo| == t.nrule
  }

  function FindShiftAction(t: Tables, stateno: nat, la: nat): int
    requires Shaped(t) && stateno < t.nstate
  {
    if stateno >= |t.shiftOfst| || t.shiftOfst[stateno] == t.shiftUseDflt then t.dflt[stateno]
    else
      var i := t.shiftOfst[stateno] + la;
      if i < 0 || i >= |t.action| || t.lookahead[i] != la then t.dflt[stateno] else t.action[i]
  }

  /** The assertions of yy_find_reduce_action hold. */
  predicate ReduceDefined(t: Tables, stateno: nat, la: nat)
    requires Shaped(t)
  {
    && stateno < |t.reduceOfst| && t.reduceOfst[stateno] != t.reduceUseDflt
    && var i := t.reduceOfst[stateno] + la;
       0 <= i < |t.action| && t.lookahead[i] == la
  }

  function FindReduceAction(t: Tables, stateno: nat, la: nat): int
    requires Shaped(t) && ReduceDefined(t, stateno, la)
  {
    t.action[t.reduceOfst[stateno] + la]
  }

  // ----- the parser state as a value ---------------------------------------------------

  datatype Entry = Entry(stateno: nat, major: nat, minor: Tree)

  /** What the reduction of a start rule leaves: the tokens shifted since the start, and their tree. */
  datatype Accept = Accept(tokens: seq<nat>, tree: Tree)

  /**
    The stack is empty between parses (yyidx < 0).  The rest records the history: the
    tokens shifted, the syntax errors, those of them that were reported, and the parses
    accepted.
  */
  datatype Conf = Conf(stack: seq<Entry>, errcnt: int, shifted: seq<nat>, errors: nat, reported: nat,
                       accepted: seq<Accept>)

  /** The result of one loop iteration; None is YYNOCODE.  Abort stands for a failed assertion. */
  datatype Outcome = Abort | Next(conf: Conf, major: Option<nat>)

  const EMPTY := Conf([], 0, [], 0, 0, [])

  function Minors(stack: seq<Entry>): seq<Tree> {
    seq(|stack|, i requires 0 <= i < |stack| => stack[i].minor)
  }

  function Top(c: Conf): Entry
    requires c.stack != []
  {
    c.stack[|c.stack| - 1]
  }

  function Push(c: Conf, e: Entry): Conf {
    c.(stack := c.stack + [e])
  }

  /** yy_reduce: pop the right-hand side, then shift the left-hand side or accept. */
  function Reduce(t: Tables, c: Conf, r: nat, major: nat): Outcome
    requires Shaped(t) && r < t.nrule && c.stack != []
  {
    var n, lhs := t.ruleInfo[r].nrhs, t.ruleInfo[r].lhs;
    if n >= |c.stack| then Abort
    else
      var k := |c.stack| - n;
      var rest, tree := c.stack[..k], Tree.Node(r, Minors(c.stack[k..]));
      if !ReduceDefined(t, rest[k - 1].stateno, lhs) then Abort
      else
        var act := FindReduceAction(t, rest[k - 1].stateno, lhs);
        if 0 <= act < t.nstate then
          Next(c.(stack := rest + [Entry(act, lhs, tree)]), Some(major))
        else if act == t.nstate + t.nrule + 1 then
          Next(c.(stack := [], accepted := c.accepted + [Accept(c.shifted, tree)]), Some(major))
        else Abort
  }

  /**
    A syntax error: it is reported unless another one was a few shifts ago; the token is
    dropped; at the end of the input the parse fails.
  */
  function SyntaxError(c: Conf, major: nat): Conf {
    c.(stack := if major == 0 then [] else c.stack, errcnt := 3, errors := c.errors + 1,
       reported := if c.errcnt <= 0 then c.reported + 1 else c.reported)
  }

  /** One iteration of the loop in Parse. */
  function Step(t: Tables, c: Conf, major: nat): Outcome
    requires Shaped(t)
  {
    if c.stack == [] || Top(c).stateno >= t.nstate then Abort
    else
      var act := FindShiftAction(t, Top(c).stateno, major);
      if 0 <= act < t.nstate then
        if major == 0 then Abort
        else
          var d := Push(c, Entry(act, major, Leaf(major)));
          Next(d.(errcnt := c.errcnt - 1, shifted := c.shifted + [major]), None)
      else if t.nstate <= act < t.nstate + t.nrule then
        Reduce(t, c, act - t.nstate, major)
      else if act == t.nstate + t.nrule then
        Next(SyntaxError(c, major), None)
      else Abort
  }

  /** The loop of Parse, for at most `fuel` iterations; None when the fuel runs out. */
  function Loop(t: Tables, c: Conf, major: nat, fuel: nat): Option<Outcome>
    requires Shaped(t)
    decreases fuel
  {
    if fuel == 0 then None
    else
      match Step(t, c, major)
      case Abort => Some(Abort)
      case Next(c', m) =>
        if m == None || c'.stack == [] then Some(Next(c', m)) else Loop(t, c', m.value, fuel - 1)
  }

  /** The state after `fuel` iterations that have not ended the loop. */
  function Turned(t: Tables, c: Conf, major: nat, fuel: nat): Conf
    requires Shaped(t) && Loop(t, c, major, fuel) == None
    decreases fuel
  {
    if fuel == 0 then c else Turned(t, Step(t, c, major).conf, major, fuel - 1)
  }

  lemma StepMajor(t: Tables, c: Conf, major: nat)
    requires Shaped(t) && Step(t, c, major).Next? && Step(t, c, major).major.Some?
    ensures Step(t, c, major).major == Some(major)
  {
  }

  /**
    The amount of fuel does not matter: more of it gives the same result, or goes on
    from where the fuel ran out.
  */
  lemma {:induction false} FuelImmaterial(t: Tables, c: Conf, major: nat, fuel: nat, more: nat)
    requires Shaped(t)
    ensures Loop(t, c, major, fuel).Some? ==> Loop(t, c, major, fuel + more) == Loop(t, c, major, fuel)
    ensures Loop(t, c, major, fuel) == None ==>
              Loop(t, c, major, fuel + more) == Loop(t, Turned(t, c, major, fuel), major, more)
    decreases fuel
  {
    hide Step;
    if fuel > 0 && Step(t, c, major).Next? && Step(t, c, major).major.Some? {
      StepMajor(t, c, major);
      FuelImmaterial(t, Step(t, c, major).conf, major, fuel - 1, more);
    }
  }

  /** (Re)initialise the parser, if necessary. */
  function Start(c: Conf): Conf {
    if c.stack == [] then Conf([Entry(0, 0, Leaf(0))], -1, [], 0, 0, c.accepted) else c
  }

  /** One call of Parse. */
  function Call(t: Tables, c: Conf, major: nat, fuel: nat): Option<Outcome>
    requires Shaped(t)
  {
    Loop(t, Start(c), major, fuel)
  }

  /** Feed the tokens one by one. */
  function Feed(t: Tables, c: Conf, tokens: seq<nat>, fuel: nat): Option<Outcome>
    requires Shaped(t)
    decreases |tokens|
  {
    if tokens == [] then Some(Next(c, None))
    else
      match Call(t, c, tokens[0], fuel)
      case None => None
      case Some(Abort) => Some(Abort)
      case Some(Next(c', _)) => Feed(t, c', tokens[1..], fuel)
  }

  lemma TurnedOnce(t: Tables, c: Conf, major: nat, fuel: nat)
    requires Shaped(t)
    ensures Loop(t, c, major, fuel) == None && fuel == 0 ==> Turned(t, c, major, fuel) == c
    ensures Loop(t, c, major, fuel) == None && fuel > 0 ==>
              && Step(t, c, major).Next? && Loop(t, Step(t, c, major).conf, major, fuel - 1) == None
              && Turned(t, c, major, fuel) == Turned(t, Step(t, c, major).conf, major, fuel - 1)
  {
    hide Step;
    if Step(t, c, major).Next? && Step(t, c, major).major.Some? { StepMajor(t, c, major); }
  }

  // ----- the parser object ------------------------------------------------------------

  class Parser {
    const t: Tables
    var yyidx: int              // where the newest entry is; -1 between parses
    var yyerrcnt: int           // while positive, a further syntax error goes unreported
    var yystack: array<Entry>   // the entries, oldest first; yystksz is the array's length
    ghost var shifted: seq<nat>      // tokens shifted since the parser was (re)initialised
    ghost var errors: nat            // syntax errors since then
    ghost var reported: nat          // those that were reported
    ghost var accepted: seq<Accept>  // the parses accepted so far

    ghost predicate Valid()
      reads this
    {
      Shaped(t) && -1 <= yyidx < yystack.Length && yystack.Length > 0
    }

    ghost function Contents(): Conf
      requires Valid()
      reads this, yystack
    {
      Conf(yystack[..yyidx + 1], yyerrcnt, shifted, errors, reported, accepted)
    }

    /** ParseAlloc */
    constructor (t: Tables)
      requires Shaped(t)
      ensures Valid() && Contents() == EMPTY && this.t == t && fresh(yystack)
    {
      this.t := t;
      yyidx, yyerrcnt := -1, 0;
      yystack := new Entry[100](_ => Entry(0, 0, Leaf(0)));
      accepted, shifted, errors, reported := [], [], 0, 0;
    }

    method YyGrowStack()
      requires Valid()
      modifies this`yystack
      ensures Valid() && Contents() == old(Contents()) && fresh(yystack)
      ensures yystack.Length == 2 * old(yystack.Length) + 100
    {
      var bigger := new Entry[yystack.Length * 2 + 100](_ => Entry(0, 0, Leaf(0)));
      forall i | 0 <= i < yystack.Length { bigger[i] := yystack[i]; }
      assert bigger[..yyidx + 1] == yystack[..yyidx + 1];
      yystack := bigger;
    }

    method YyFindShiftAction(la: nat) returns (act: int)
      requires Valid() && yyidx >= 0 && yystack[yyidx].stateno < t.nstate
      ensures act == FindShiftAction(t, Top(Contents()).stateno, la)
    {
      var stateno := yystack[yyidx].stateno;
      if stateno >= |t.shiftOfst| || t.shiftOfst[stateno] == t.shiftUseDflt { return t.dflt[stateno]; }
      var i := t.shiftOfst[stateno] + la;
      if i < 0 || i >= |t.action| || t.lookahead[i] != la { return t.dflt[stateno]; }
      return t.action[i];
    }

    method YyFindReduceAction(stateno: nat, la: nat) returns (act: int)
      requires Valid() && ReduceDefined(t, stateno, la)
      ensures act == FindReduceAction(t, stateno, la)
    {
      assert stateno < |t.reduceOfst|;
      var i := t.reduceOfst[stateno];
      assert i != t.reduceUseDflt;
      i := i + la;
      assert 0 <= i < |t.action|;
      assert t.lookahead[i] == la;
      return t.action[i];
    }

    method YyShift(newState: nat, major: nat, minor: Tree)
      requires Valid()
      modifies this`yyidx, this`yystack, yystack
      ensures Valid() && Contents() == Push(old(Contents()), Entry(newState, major, minor))
      ensures yystack == old(yystack) || fresh(yystack)
    {
      if yyidx + 1 >= yystack.Length { YyGrowStack(); }
      yyidx := yyidx + 1;
      yystack[yyidx] := Entry(newState, major, minor);
    }

    method YyPopAll()
      requires Valid()
      modifies this`yyidx
      ensures Valid() && Contents() == old(Contents()).(stack := [])
    {
      while yyidx >= 0
        invariant Valid() && yyidx <= old(yyidx)
      {
        yyidx := yyidx - 1;
      }
    }

    /** The values of the top n stack entries, as the reduce code sees them. */
    method TopMinors(n: nat) returns (kids: seq<Tree>)
      requires Valid() && n <= yyidx
      ensures kids == Minors(Contents().stack[|Contents().stack| - n..])
    {
      kids := [];
      for i := 0 to n
        invariant |kids| == i && forall k :: 0 <= k < i ==> kids[k] == yystack[yyidx + 1 - n + k].minor
      {
        kids := kids + [yystack[yyidx + 1 - n + i].minor];
      }
    }

    method YyReduce(r: nat, ghost major: nat)
      requires Valid() && yyidx >= 0 && r < t.nrule
      requires Reduce(t, Contents(), r, major).Next?
      modifies this`yyidx, this`yystack, this`accepted, yystack
      ensures Valid() && Contents() == Reduce(t, old(Contents()), r, major).conf
      ensures yystack == old(yystack) || fresh(yystack)
    {
      var goto, size := t.ruleInfo[r].lhs, t.ruleInfo[r].nrhs;
      var kids := TopMinors(size);
      yyidx := yyidx - size;
      var act := YyFindReduceAction(yystack[yyidx].stateno, goto);
      if 0 <= act < t.nstate {
        YyShift(act, goto, Tree.Node(r, kids));
      } else {
        assert act == t.nstate + t.nrule + 1;
        YyPopAll();
        accepted := accepted + [Accept(shifted, Tree.Node(r, kids))];
      }
    }

    /**
      A syntax error: report it if it is not too close to the last one, drop the token,
      fail at the end of the input.
    */
    method YyError(major: nat)
      requires Valid() && yyidx >= 0
      modifies this
      ensures Valid() && Contents() == SyntaxError(old(Contents()), major)
      ensures yystack == old(yystack)
    {
      if yyerrcnt <= 0 { reported := reported + 1; }
      yyerrcnt := 3;
      errors := errors + 1;
      if major == 0 { YyPopAll(); }
    }

    /** One iteration of the loop in Parse; false when the token has been used up (YYNOCODE). */
    method Iterate(major: nat) returns (again: bool)
      requires Valid() && yyidx >= 0 && Step(t, Contents(), major).Next?
      modifies this, yystack
      ensures Valid() && (yystack == old(yystack) || fresh(yystack))
      ensures Contents() == Step(t, old(Contents()), major).conf
      ensures Step(t, old(Contents()), major).major == if again then Some(major) else None
    {
      var act := YyFindShiftAction(major);
      if 0 <= act < t.nstate {
        assert major != 0;
        YyShift(act, major, Leaf(major));
        shifted := shifted + [major];
        yyerrcnt := yyerrcnt - 1;
        return false;
      } else if t.nstate <= act < t.nstate + t.nrule {
        YyReduce(act - t.nstate, major);
        return true;
      } else {
        assert act == t.nstate + t.nrule;
        YyError(major);
        return false;
      }
    }

    /** Feed one token to the parser; give up after `fuel` iterations. */
    method Parse(major: nat, fuel: nat) returns (done: bool)
      requires Valid() && Call(t, Contents(), major, fuel) != Some(Abort)
      modifies this, yystack
      ensures Valid() && (yystack == old(yystack) || fresh(yystack))
      ensures done <==> Call(t, old(Contents()), major, fuel).Some?
      ensures done ==> Contents() == Call(t, old(Contents()), major, fuel).value.conf
      ensures !done ==> Contents() == Turned(t, Start(old(Contents())), major, fuel)
    {
      hide Step, Turned;
      if yyidx < 0 {
        yyidx := 0;
        yyerrcnt := -1;
        yystack[0] := Entry(0, 0, Leaf(0));
        shifted, errors, reported := [], 0, 0;
      }
      assert Contents() == Start(old(Contents()));
      ghost var goal := Loop(t, Contents(), major, fuel);
      ghost var c := Contents();
      var left := fuel;
      while left > 0
        invariant Valid() && yyidx >= 0 && (yystack == old(yystack) || fresh(yystack))
        invariant Loop(t, Contents(), major, left) == goal
        invariant goal == None ==> Turned(t, Contents(), major, left) == Turned(t, c, major, fuel)
        decreases left
      {
        TurnedOnce(t, Contents(), major, left);
        var again := Iterate(major);
        if !again || yyidx < 0 { return true; }
        left := left - 1;
      }
      TurnedOnce(t, Contents(), major, 0);
      return false;
    }
  }
}
