/** Parse trees, both as the engine builds them and as the full grammar defines them. */
module LemonGrammar {
  import opened LemonTables

  datatype Token = Token(code: Symbol, text: string)

  /** The value of a stack entry.  The action of a rule is taken to build a node, so that a tree
      records exactly which actions ran on which values. */
  datatype Tree = Leaf(tok: Token) | Node(rule: nat, kids: seq<Tree>)

  function Root(t: Tables, p: Tree): Symbol
  {
    match p
    case Leaf(tok) => tok.code
    case Node(r, _) => if r < |t.rules| then t.rules[r].lhs else t.noCode
  }

  /** The tokens at the leaves, left to right. */
  function Yield(p: Tree): seq<Token>
    decreases p, 0
  {
    match p
    case Leaf(tok) => [tok]
    case Node(_, kids) => YieldAll(kids)
  }

  function YieldAll(ps: seq<Tree>): seq<Token>
    decreases ps, 1
  {
    if ps == [] then [] else YieldAll(ps[..|ps| - 1]) + Yield(ps[|ps| - 1])
  }

  lemma {:induction false} YieldAppend(ps: seq<Tree>, qs: seq<Tree>)
    ensures YieldAll(ps + qs) == YieldAll(ps) + YieldAll(qs)
    decreases |qs|
  {
    if qs == [] {
      assert ps + qs == ps;
    } else {
      var rest := qs[..|qs| - 1];
      assert (ps + qs)[..|ps + qs| - 1] == ps + rest;
      YieldAppend(ps, rest);
    }
  }

  // ---------------------------------------------------------------------------------------------
  // When a stack symbol may stand for a symbol of a rule

  /** A token stands for itself, for its fallback, or for the wildcard (never end of input). */
  predicate TokenStands(t: Tables, x: Symbol, y: Symbol) {
    x == y || (0 < x < t.terminals && y != 0 && (y == t.FallbackOf(x) || y == t.wildcard))
  }

  predicate UnitRemoved(t: Tables, r: nat) {
    r < |t.rules| && t.rules[r].optimizedOut && |t.rules[r].rhs| == 1
  }

  /** The removed unit rules in "chain", applied from y downwards, lead from y to x. */
  predicate Chain(t: Tables, chain: seq<nat>, x: Symbol, y: Symbol) {
    if chain == [] then TokenStands(t, x, y)
    else
      && UnitRemoved(t, chain[0])
      && t.rules[chain[0]].lhs == y
      && exists z | z in t.rules[chain[0]].rhs[0] :: Chain(t, chain[1..], x, z)
  }

  ghost predicate StandsFor(t: Tables, x: Symbol, alternatives: set<Symbol>) {
    exists y, chain | y in alternatives :: Chain(t, chain, x, y)
  }

  // ---------------------------------------------------------------------------------------------
  // Trees as the engine builds them

  ghost predicate KidsMatch(t: Tables, rhs: seq<set<Symbol>>, kids: seq<Tree>) {
    |kids| == |rhs| && forall i | 0 <= i < |rhs| :: StandsFor(t, Root(t, kids[i]), rhs[i])
  }

  ghost predicate Built(t: Tables, p: Tree)
    decreases p, 0
  {
    match p
    case Leaf(tok) => tok.code < t.terminals
    case Node(r, kids) => r < |t.rules| && KidsMatch(t, t.rules[r].rhs, kids) && BuiltAll(t, kids)
  }

  ghost predicate BuiltAll(t: Tables, ps: seq<Tree>)
    decreases ps, 1
  {
    forall i | 0 <= i < |ps| :: Built(t, ps[i])
  }

  // ---------------------------------------------------------------------------------------------
  // Derivation trees of the full grammar

  ghost predicate Derivation(t: Tables, p: Tree)
    decreases p
  {
    match p
    case Leaf(tok) => tok.code < t.terminals
    case Node(r, kids) =>
      && r < |t.rules|
      && |kids| == |t.rules[r].rhs|
      && (forall i | 0 <= i < |kids| :: Root(t, kids[i]) in t.rules[r].rhs[i])
      && (forall i | 0 <= i < |kids| :: Derivation(t, kids[i]))
  }

  /** The words agree in length and text; each code on the left stands for the one on the right. */
  predicate Substituted(t: Tables, w: seq<Token>, v: seq<Token>) {
    |w| == |v| && forall i | 0 <= i < |w| :: w[i].text == v[i].text && TokenStands(t, w[i].code, v[i].code)
  }

  /** Left-hand sides are non-terminals; every symbol of a right-hand side that is below "terminals" is one. */
  ghost predicate SymbolsSplit(t: Tables) {
    && 0 < t.wildcard < t.terminals
    && (forall x | 0 <= x < |t.fallback| :: t.fallback[x] < t.terminals)
    && forall r | 0 <= r < |t.rules| :: t.terminals <= t.rules[r].lhs
  }

  /** A tree the engine built turns into a derivation of y: tokens take the code they stood for and the
      removed unit rules are put back. */
  lemma {:induction false} Restore(t: Tables, p: Tree, y: Symbol, chain: seq<nat>) returns (q: Tree)
    requires SymbolsSplit(t) && Built(t, p) && Chain(t, chain, Root(t, p), y)
    ensures Derivation(t, q) && Root(t, q) == y && Substituted(t, Yield(p), Yield(q))
    decreases p, |chain|
  {
    if chain != [] {
      var r := chain[0];
      var z :| z in t.rules[r].rhs[0] && Chain(t, chain[1..], Root(t, p), z);
      var q' := Restore(t, p, z, chain[1..]);
      q := Node(r, [q']);
      assert [q'][..0] == [];
      assert YieldAll([q']) == YieldAll([]) + Yield(q') == Yield(q');
    } else {
      match p
      case Leaf(tok) =>
        q := Leaf(Token(y, tok.text));
      case Node(r, kids) =>
        var qs := RestoreAll(t, kids, t.rules[r].rhs);
        q := Node(r, qs);
    }
  }

  lemma {:induction false} RestoreAll(t: Tables, ps: seq<Tree>, rhs: seq<set<Symbol>>) returns (qs: seq<Tree>)
    requires SymbolsSplit(t) && BuiltAll(t, ps) && KidsMatch(t, rhs, ps)
    ensures |qs| == |rhs| && Substituted(t, YieldAll(ps), YieldAll(qs))
    ensures forall i | 0 <= i < |qs| :: Root(t, qs[i]) in rhs[i] && Derivation(t, qs[i])
    decreases ps
  {
    hide Chain, Substituted, TokenStands;
    if ps == [] {
      assert Substituted(t, [], []) by { NothingSubstituted(t); }
      qs := [];
    } else {
      var last := |ps| - 1;
      assert BuiltAll(t, ps[..last]) && KidsMatch(t, rhs[..last], ps[..last]);
      assert Built(t, ps[last]) && StandsFor(t, Root(t, ps[last]), rhs[last]);
      var front := RestoreAll(t, ps[..last], rhs[..last]);
      var y, chain :| y in rhs[last] && Chain(t, chain, Root(t, ps[last]), y);
      var q := Restore(t, ps[last], y, chain);
      qs := front + [q];
      assert qs[..last] == front;
      SubstitutedAppend(t, YieldAll(ps[..last]), Yield(ps[last]), YieldAll(front), Yield(q));
    }
  }

  lemma NothingSubstituted(t: Tables)
    ensures Substituted(t, [], [])
  {
  }

  lemma SubstitutedAppend(t: Tables, w1: seq<Token>, w2: seq<Token>, v1: seq<Token>, v2: seq<Token>)
    requires Substituted(t, w1, v1) && Substituted(t, w2, v2)
    ensures Substituted(t, w1 + w2, v1 + v2)
  {
  }
}
