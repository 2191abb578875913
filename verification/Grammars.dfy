/**
  Grammars as `lemon` sees them after the input file has been read, and the parse
  trees that give them a meaning.

  Terminals and nonterminals share one index space: 0 is the end marker "$",
  1 .. nterminal-1 are the tokens, nterminal .. nsymbol-1 the nonterminals.  A
  right-hand side may also contain a multi-terminal, which stands for any one of
  several tokens and has no index of its own.
*/
module Grammars {

  datatype Option<+T> = None | Some(value: T)

  datatype Symbol = Terminal(id: nat) | Nonterminal(id: nat) | Multi(subs: seq<nat>)

  datatype Assoc = LEFT | RIGHT | NONE | UNK

  datatype Rule = Rule(lhs: nat, rhs: seq<Symbol>, precsym: Option<nat>)

  datatype Grammar = Grammar(nterminal: nat, nsymbol: nat, start: nat, rules: seq<Rule>,
                             prec: seq<int>, assoc: seq<Assoc>)
  {
    predicate IsToken(a: nat) { 0 < a < nterminal }

    predicate IsNonterminal(a: nat) { nterminal <= a < nsymbol }

    predicate ValidSymbol(x: Symbol) {
      match x
      case Terminal(a) => IsToken(a)
      case Nonterminal(a) => IsNonterminal(a)
      case Multi(subs) => subs != [] && forall i :: 0 <= i < |subs| ==> IsToken(subs[i])
    }

    predicate ValidRule(r: Rule) {
      && IsNonterminal(r.lhs)
      && (forall i :: 0 <= i < |r.rhs| ==> ValidSymbol(r.rhs[i]) && r.rhs[i] != Nonterminal(start))
      && (r.precsym.Some? ==> r.precsym.value < nsymbol)
    }

    /** What the front end guarantees, plus the error-free start symbol: it occurs on no right-hand side. */
    ghost predicate WellFormed() {
      && 1 <= nterminal <= nsymbol
      && IsNonterminal(start)
      && (forall i :: 0 <= i < |rules| ==> ValidRule(rules[i]))
      && |prec| == |assoc| == nsymbol
      && (forall a :: 0 <= a < nsymbol && prec[a] >= 0 ==> assoc[a] != UNK)
    }
  }

  // ----- parse trees ---------------------------------------------------------------

  /** A tree over symbol codes; a leaf may be any symbol, so a tree also describes a partial derivation. */
  datatype Tree = Leaf(code: nat) | Node(rule: nat, kids: seq<Tree>)

  function Root(g: Grammar, t: Tree): nat {
    match t
    case Leaf(code) => code
    case Node(r, _) => if r < |g.rules| then g.rules[r].lhs else 0
  }

  function Roots(g: Grammar, ts: seq<Tree>): seq<nat> {
    seq(|ts|, i requires 0 <= i < |ts| => Root(g, ts[i]))
  }

  /** The code is one of the symbols that x stands for. */
  predicate Matches(x: Symbol, code: nat) {
    match x
    case Terminal(a) => code == a
    case Nonterminal(a) => code == a
    case Multi(subs) => code in subs
  }

  predicate MatchAll(xs: seq<Symbol>, codes: seq<nat>) {
    |xs| == |codes| && forall i :: 0 <= i < |xs| ==> Matches(xs[i], codes[i])
  }

  predicate ValidTree(g: Grammar, t: Tree)
    decreases t, 1
  {
    match t
    case Leaf(code) => true
    case Node(r, kids) => r < |g.rules| && MatchAll(g.rules[r].rhs, Roots(g, kids)) && ValidTrees(g, kids)
  }

  predicate ValidTrees(g: Grammar, ts: seq<Tree>)
    decreases ts, 0
  {
    forall i :: 0 <= i < |ts| ==> ValidTree(g, ts[i])
  }

  /** The leaves of a tree, left to right. */
  function Frontier(t: Tree): seq<nat>
    decreases t, 1
  {
    match t
    case Leaf(code) => [code]
    case Node(_, kids) => Frontiers(kids)
  }

  function Frontiers(ts: seq<Tree>): seq<nat>
    decreases ts, 0
  {
    if ts == [] then [] else Frontier(ts[0]) + Frontiers(ts[1..])
  }

  lemma {:induction false} FrontiersConcat(ts: seq<Tree>, us: seq<Tree>)
    ensures Frontiers(ts + us) == Frontiers(ts) + Frontiers(us)
  {
    hide Frontier, Frontiers;
    if ts == [] {
      assert ts + us == us;
      assert Frontiers([]) == [] by { FrontiersCons(Leaf(0), []); }
    } else {
      FrontiersConcat(ts[1..], us);
      assert ts + us == [ts[0]] + (ts[1..] + us) && ts == [ts[0]] + ts[1..];
      FrontiersCons(ts[0], ts[1..] + us);
      FrontiersCons(ts[0], ts[1..]);
    }
  }

  lemma FrontiersCons(t: Tree, ts: seq<Tree>)
    ensures Frontiers([]) == [] && Frontiers([t] + ts) == Frontier(t) + Frontiers(ts)
  {
    assert ([t] + ts)[1..] == ts;
  }

  lemma FrontiersSingle(t: Tree)
    ensures Frontiers([t]) == Frontier(t)
  {
    assert [t][1..] == [];
  }

  /** The symbol `code` derives the sentential form `form` in zero or more steps. */
  ghost predicate Derives(g: Grammar, code: nat, form: seq<nat>) {
    exists t :: ValidTree(g, t) && Root(g, t) == code && Frontier(t) == form
  }

  /** The token string is a sentence of the grammar. */
  ghost predicate Sentence(g: Grammar, w: seq<nat>) {
    && (forall i :: 0 <= i < |w| ==> g.IsToken(w[i]))
    && Derives(g, g.start, w)
  }
}
