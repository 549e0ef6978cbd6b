/** Acyclicity from a ranking of the symbols, which can be checked rule by rule. */
module LemonRanks {
  import opened LemonTables
  import opened LemonGrammar
  import opened LemonMachine
  import opened LemonTermination

  /** "empty" contains every symbol that derives the empty word. */
  ghost predicate ClosedEmpty(t: Tables, empty: set<Symbol>) {
    && (forall x | x in empty :: t.terminals <= x)
    && (forall r | 0 <= r < |t.rules| ::
          (forall i | 0 <= i < |t.rules[r].rhs| :: t.rules[r].rhs[i] * empty != {}) ==> t.rules[r].lhs in empty)
  }

  ghost predicate OthersEmpty(rule: Rule, i: nat, empty: set<Symbol>) {
    forall j | 0 <= j < |rule.rhs| && j != i :: rule.rhs[j] * empty != {}
  }

  /** A rank that drops from a rule's left-hand side to any symbol beside which the rest may be empty. */
  ghost predicate Ranked(t: Tables, empty: set<Symbol>, rank: Symbol -> nat) {
    && SymbolsSplit(t) && ClosedEmpty(t, empty)
    && forall r, i, y | 0 <= r < |t.rules| && 0 <= i < |t.rules[r].rhs| && y in t.rules[r].rhs[i]
                     && t.terminals <= y && OthersEmpty(t.rules[r], i, empty) :: rank(y) < rank(t.rules[r].lhs)
  }

  lemma {:induction false} ChainRank(t: Tables, empty: set<Symbol>, rank: Symbol -> nat, chain: seq<nat>, x: Symbol, y: Symbol)
    requires Ranked(t, empty, rank) && Chain(t, chain, x, y) && t.terminals <= x
    ensures t.terminals <= y && rank(x) <= rank(y) && (x in empty ==> y in empty)
    decreases |chain|
  {
    if chain != [] {
      var r := chain[0];
      var z :| z in t.rules[r].rhs[0] && Chain(t, chain[1..], x, z);
      ChainRank(t, empty, rank, chain[1..], x, z);
      assert OthersEmpty(t.rules[r], 0, empty);
      if x in empty {
        assert z in t.rules[r].rhs[0] * empty;
      }
    }
  }

  lemma {:induction false} YieldParts(ps: seq<Tree>, i: nat)
    requires i < |ps|
    ensures |Yield(ps[i])| <= |YieldAll(ps)|
    ensures |Yield(ps[i])| == |YieldAll(ps)| ==> forall j | 0 <= j < |ps| && j != i :: Yield(ps[j]) == []
  {
    var last := |ps| - 1;
    if i < last {
      YieldParts(ps[..last], i);
    } else if 0 < last {
      forall j | 0 <= j < last
        ensures |Yield(ps[j])| <= |YieldAll(ps[..last])|
      {
        YieldParts(ps[..last], j);
      }
    }
  }

  lemma {:induction false} EmptyYield(t: Tables, empty: set<Symbol>, rank: Symbol -> nat, p: Tree)
    requires Ranked(t, empty, rank) && Built(t, p) && Yield(p) == []
    ensures Root(t, p) in empty
    decreases p, 0
  {
    var kids, rule := p.kids, t.rules[p.rule];
    forall i | 0 <= i < |rule.rhs|
      ensures rule.rhs[i] * empty != {}
    {
      YieldParts(kids, i);
      EmptyKid(t, empty, rank, kids[i], rule.rhs[i]);
    }
  }

  lemma {:induction false} EmptyKid(t: Tables, empty: set<Symbol>, rank: Symbol -> nat, p: Tree, alternatives: set<Symbol>)
    requires Ranked(t, empty, rank) && Built(t, p) && Yield(p) == []
    requires StandsFor(t, Root(t, p), alternatives)
    ensures alternatives * empty != {}
    decreases p, 1
  {
    EmptyYield(t, empty, rank, p);
    var y, chain :| y in alternatives && Chain(t, chain, Root(t, p), y);
    ChainRank(t, empty, rank, chain, Root(t, p), y);
    assert y in alternatives * empty;
  }

  /** Where one child has all the tokens, the other positions of the rule may be empty. */
  lemma SpanningKid(t: Tables, empty: set<Symbol>, rank: Symbol -> nat, p: Tree, i: nat)
    requires Ranked(t, empty, rank) && Built(t, p) && p.Node?
    requires i < |p.kids| && |Yield(p.kids[i])| == |Yield(p)| && p.kids[i].Node?
    ensures rank(Root(t, p.kids[i])) < rank(Root(t, p))
  {
    var kids, rule := p.kids, t.rules[p.rule];
    YieldParts(kids, i);
    forall j | 0 <= j < |rule.rhs| && j != i
      ensures rule.rhs[j] * empty != {}
    {
      EmptyKid(t, empty, rank, kids[j], rule.rhs[j]);
    }
    assert OthersEmpty(rule, i, empty);
    assert StandsFor(t, Root(t, kids[i]), rule.rhs[i]);
    var y, chain :| y in rule.rhs[i] && Chain(t, chain, Root(t, kids[i]), y);
    NodeIsNonterminal(t, empty, rank, kids[i]);
    ChainRank(t, empty, rank, chain, Root(t, kids[i]), y);
  }

  lemma NodeIsNonterminal(t: Tables, empty: set<Symbol>, rank: Symbol -> nat, p: Tree)
    requires Ranked(t, empty, rank) && Built(t, p) && p.Node?
    ensures t.terminals <= Root(t, p)
  {
  }

  lemma {:induction false} SpanningFrom(t: Tables, ps: seq<Tree>, width: nat, a: Symbol) returns (i: nat)
    requires a in SpanningAll(t, ps, width)
    ensures i < |ps| && a in Spanning(t, ps[i]) && |Yield(ps[i])| == width
  {
    var last := |ps| - 1;
    if a in SpanningAll(t, ps[..last], width) {
      i := SpanningFrom(t, ps[..last], width, a);
    } else {
      i := last;
    }
  }

  lemma {:induction false} SpanningRank(t: Tables, empty: set<Symbol>, rank: Symbol -> nat, p: Tree, a: Symbol)
    requires Ranked(t, empty, rank) && Built(t, p) && p.Node? && a in SpanningAll(t, p.kids, |Yield(p)|)
    ensures rank(a) < rank(Root(t, p))
    decreases p
  {
    hide Ranked;
    var i := SpanningFrom(t, p.kids, |Yield(p)|, a);
    var kid := p.kids[i];
    SpanningKid(t, empty, rank, p, i);
    if a != Root(t, kid) {
      SpanningRank(t, empty, rank, kid, a);
    }
  }

  /** A ranked grammar has no symbol that derives itself. */
  lemma RankedIsAcyclic(t: Tables, empty: set<Symbol>, rank: Symbol -> nat)
    requires Ranked(t, empty, rank)
    ensures Acyclic(t)
  {
    forall p | Built(t, p) && p.Node?
      ensures Root(t, p) !in SpanningAll(t, p.kids, |Yield(p)|)
    {
      if Root(t, p) in SpanningAll(t, p.kids, |Yield(p)|) {
        SpanningRank(t, empty, rank, p, Root(t, p));
      }
    }
  }
}
