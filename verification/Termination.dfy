/** Each call of the parser makes finitely many reductions: in a grammar where no symbol derives itself,
    the forest over a given word has boundedly many nodes. */
module LemonTermination {
  import opened LemonTables
  import opened LemonGrammar
  import opened LemonMachine

  function Nodes(p: Tree): nat
    decreases p, 0
  {
    match p
    case Leaf(_) => 0
    case Node(_, kids) => 1 + NodesAll(kids)
  }

  function NodesAll(ps: seq<Tree>): nat
    decreases ps, 1
  {
    if ps == [] then 0 else NodesAll(ps[..|ps| - 1]) + Nodes(ps[|ps| - 1])
  }

  /** The left-hand sides of the nodes of p (p itself included) whose subtree has all the tokens of p. */
  ghost function Spanning(t: Tables, p: Tree): set<Symbol>
    decreases p, 0
  {
    match p
    case Leaf(_) => {}
    case Node(r, kids) => {Root(t, p)} + SpanningAll(t, kids, |Yield(p)|)
  }

  ghost function SpanningAll(t: Tables, ps: seq<Tree>, width: nat): set<Symbol>
    decreases ps, 1
  {
    if ps == [] then {}
    else
      var p := ps[|ps| - 1];
      SpanningAll(t, ps[..|ps| - 1], width) + if |Yield(p)| == width then Spanning(t, p) else {}
  }

  /** No symbol derives itself: below a node there is no node for the same symbol with the same tokens. */
  ghost predicate Acyclic(t: Tables) {
    forall p | Built(t, p) && p.Node? :: Root(t, p) !in SpanningAll(t, p.kids, |Yield(p)|)
  }

  ghost function Heads(t: Tables): set<Symbol> {
    set r | 0 <= r < |t.rules| :: t.rules[r].lhs
  }

  function Widest(rules: seq<Rule>): nat {
    if rules == [] then 0
    else
      var w := Widest(rules[1..]);
      if w < |rules[0].rhs| then |rules[0].rhs| else w
  }

  lemma {:induction false} WidestBounds(rules: seq<Rule>, r: nat)
    requires r < |rules|
    ensures |rules[r].rhs| <= Widest(rules)
  {
    if 0 < r {
      WidestBounds(rules[1..], r - 1);
    }
  }

  /** The most nodes in a tree of the given height when each node has at most m children. */
  function Full(m: nat, height: nat): nat {
    if height == 0 then 0 else 1 + m * Full(m, height - 1)
  }

  lemma ScaleRight(a: nat, x: nat, y: nat)
    requires x <= y
    ensures a * x <= a * y
  {
    var d := y - x;
    assert a * y == a * x + a * d;
  }

  lemma Scale(a: nat, b: nat, x: nat, y: nat)
    requires a <= b && x <= y
    ensures a * x <= b * y
  {
    ScaleRight(a, x, y);
    ScaleRight(y, a, b);
  }

  lemma {:induction false} FullMonotone(m: nat, h: nat, h': nat)
    requires h <= h'
    ensures Full(m, h) <= Full(m, h')
    decreases h'
  {
    if 0 < h {
      FullMonotone(m, h - 1, h' - 1);
      Scale(m, m, Full(m, h - 1), Full(m, h' - 1));
    }
  }

  function Levels(t: Tables, width: nat, unused: nat): nat {
    width * (|t.rules| + 1) + unused
  }

  lemma {:induction false} HeadsFew(t: Tables, n: nat)
    requires n <= |t.rules|
    ensures |set r | 0 <= r < n :: t.rules[r].lhs| <= n
  {
    if 0 < n {
      HeadsFew(t, n - 1);
      assert (set r | 0 <= r < n :: t.rules[r].lhs) == (set r | 0 <= r < n - 1 :: t.rules[r].lhs) + {t.rules[n - 1].lhs};
    }
  }

  lemma {:induction false} SpanningAreHeads(t: Tables, p: Tree)
    requires Built(t, p)
    ensures Spanning(t, p) <= Heads(t)
    decreases p, 0
  {
    if p.Node? {
      SpanningAllAreHeads(t, p.kids, |Yield(p)|);
    }
  }

  lemma {:induction false} SpanningAllAreHeads(t: Tables, ps: seq<Tree>, width: nat)
    requires BuiltAll(t, ps)
    ensures SpanningAll(t, ps, width) <= Heads(t)
    decreases ps, 1
  {
    if ps != [] {
      assert BuiltAll(t, ps[..|ps| - 1]) && Built(t, ps[|ps| - 1]);
      SpanningAllAreHeads(t, ps[..|ps| - 1], width);
      SpanningAreHeads(t, ps[|ps| - 1]);
    }
  }

  /** A tree whose spanning nodes are drawn from "unused" has bounded size. */
  lemma {:induction false} TreeBound(t: Tables, p: Tree, unused: set<Symbol>)
    requires Acyclic(t) && Built(t, p) && Spanning(t, p) <= unused <= Heads(t)
    ensures Nodes(p) <= Full(Widest(t.rules), Levels(t, |Yield(p)|, |unused|))
    decreases p, 0
  {
    if p.Node? {
      hide Acyclic, Built, Full, Levels, Spanning, SpanningAll, Widest, Root;
      var width := |Yield(p)|;
      var rest := unused - {Root(t, p)};
      NodeFacts(t, p);
      ForestBound(t, p.kids, width, rest);
      WidestBounds(t.rules, p.rule);
      OneMoreLevel(Widest(t.rules), |p.kids|, NodesAll(p.kids), Levels(t, width, |rest|));
      assert |unused| == |rest| + 1;
      LevelAbove(t, width, |rest|);
    }
  }

  lemma LevelAbove(t: Tables, width: nat, n: nat)
    ensures Levels(t, width, n + 1) == Levels(t, width, n) + 1
  {
  }

  lemma OneMoreLevel(m: nat, kids: nat, nodes: nat, level: nat)
    requires kids <= m && nodes <= kids * Full(m, level)
    ensures 1 + nodes <= Full(m, level + 1)
  {
    Scale(kids, m, Full(m, level), Full(m, level));
  }

  lemma NodeFacts(t: Tables, p: Tree)
    requires Acyclic(t) && Built(t, p) && p.Node?
    ensures BuiltAll(t, p.kids) && p.rule < |t.rules| && |p.kids| == |t.rules[p.rule].rhs|
    ensures Root(t, p) !in SpanningAll(t, p.kids, |Yield(p)|) && YieldAll(p.kids) == Yield(p)
    ensures Spanning(t, p) == {Root(t, p)} + SpanningAll(t, p.kids, |Yield(p)|)
  {
  }

  lemma {:induction false} ForestBound(t: Tables, ps: seq<Tree>, width: nat, unused: set<Symbol>)
    requires Acyclic(t) && BuiltAll(t, ps) && |YieldAll(ps)| <= width
    requires SpanningAll(t, ps, width) <= unused <= Heads(t)
    ensures NodesAll(ps) <= |ps| * Full(Widest(t.rules), Levels(t, width, |unused|))
    decreases ps, 1
  {
    if ps != [] {
      var front, p := ps[..|ps| - 1], ps[|ps| - 1];
      assert BuiltAll(t, front) && Built(t, p);
      ForestBound(t, front, width, unused);
      var m := Widest(t.rules);
      if |Yield(p)| == width {
        TreeBound(t, p, unused);
      } else {
        SpanningAreHeads(t, p);
        TreeBound(t, p, Heads(t));
        HeadsFew(t, |t.rules|);
        NarrowerIsLower(t, |Yield(p)|, width, |Heads(t)|, |unused|);
        FullMonotone(m, Levels(t, |Yield(p)|, |Heads(t)|), Levels(t, width, |unused|));
      }
      assert (|front| + 1) * Full(m, Levels(t, width, |unused|)) == |front| * Full(m, Levels(t, width, |unused|)) + Full(m, Levels(t, width, |unused|));
    }
  }

  lemma NarrowerIsLower(t: Tables, w: nat, w': nat, heads: nat, unused: nat)
    requires w < w' && heads <= |t.rules|
    ensures Levels(t, w, heads) <= Levels(t, w', unused)
  {
    assert (w + 1) * (|t.rules| + 1) <= w' * (|t.rules| + 1);
  }

  // ---------------------------------------------------------------------------------------------
  // The forest on the stack

  function Forest(k: Stack): seq<Tree>
    requires k != []
  {
    Minors(k[1..])
  }

  /** An upper bound on the nodes of any forest of fewer than "depth" trees over "width" tokens. */
  ghost function ForestLimit(t: Tables, width: nat): nat {
    t.depth * Full(Widest(t.rules), Levels(t, width, |t.rules|))
  }

  lemma StackBound(t: Tables, k: Stack, width: nat)
    requires Acyclic(t) && 1 <= |k| <= t.depth && ValuesOk(t, k) && |YieldAll(Forest(k))| <= width
    ensures NodesAll(Forest(k)) <= ForestLimit(t, width)
  {
    var ps := Forest(k);
    forall i | 0 <= i < |ps|
      ensures Built(t, ps[i])
    {
      assert ps[i] == k[i + 1].minor;
    }
    SpanningAllAreHeads(t, ps, width);
    ForestBound(t, ps, width, Heads(t));
    HeadsFew(t, |t.rules|);
    var m := Widest(t.rules);
    FullMonotone(m, Levels(t, width, |Heads(t)|), Levels(t, width, |t.rules|));
    Scale(|ps|, t.depth, Full(m, Levels(t, width, |Heads(t)|)), Full(m, Levels(t, width, |t.rules|)));
  }

  lemma {:induction false} NodesAppend(ps: seq<Tree>, qs: seq<Tree>)
    ensures NodesAll(ps + qs) == NodesAll(ps) + NodesAll(qs)
    decreases |qs|
  {
    if qs == [] {
      assert ps + qs == ps;
    } else {
      assert (ps + qs)[..|ps + qs| - 1] == ps + qs[..|qs| - 1];
      NodesAppend(ps, qs[..|qs| - 1]);
    }
  }

  lemma NodesOne(p: Tree)
    ensures NodesAll([p]) == Nodes(p) && YieldAll([p]) == Yield(p)
  {
    assert [p][..0] == [];
    assert YieldAll([]) + Yield(p) == Yield(p);
  }

  /** Shifting a token appends it to the frontier of the stack. */
  lemma ShiftYield(k: Stack, e: Entry)
    requires k != []
    ensures YieldAll(Forest(k + [e])) == YieldAll(Forest(k)) + Yield(e.minor)
    ensures NodesAll(Forest(k + [e])) == NodesAll(Forest(k)) + Nodes(e.minor)
  {
    assert Forest(k + [e]) == Forest(k) + [e.minor];
    YieldAppend(Forest(k), [e.minor]);
    NodesAppend(Forest(k), [e.minor]);
    NodesOne(e.minor);
  }

  /** Replacing the top m.. entries by one node over them keeps the frontier and adds one node. */
  lemma ReduceYield(k: Stack, m: nat, r: nat, e: Entry)
    requires 1 <= m <= |k| && e.minor == Node(r, Minors(k[m..]))
    ensures YieldAll(Forest(k[..m] + [e])) == YieldAll(Forest(k))
    ensures NodesAll(Forest(k[..m] + [e])) == NodesAll(Forest(k)) + 1
  {
    assert Forest(k) == Forest(k[..m]) + Minors(k[m..]);
    YieldAppend(Forest(k[..m]), Minors(k[m..]));
    NodesAppend(Forest(k[..m]), Minors(k[m..]));
    ShiftYield(k[..m], e);
  }

  // ---------------------------------------------------------------------------------------------
  // One call of the parser

  ghost predicate Ready(t: Tables, cert: Certificate) {
    Certified(t, cert) && Acyclic(t)
  }

  /** How many more reductions the tokens on the stack leave room for. */
  ghost function Room(t: Tables, k: Stack): int
    requires k != []
  {
    ForestLimit(t, |YieldAll(Forest(k))|) - NodesAll(Forest(k))
  }

  lemma StepProgress(t: Tables, cert: Certificate, k: Stack, tok: Token)
    requires Ready(t, cert) && StackOk(t, cert, k) && tok.code < t.terminals
    ensures var o := Step(t, cert, k, tok);
      && StackOk(t, cert, o.stack)
      && 0 <= Room(t, k)
      && (!o.done ==> 0 <= Room(t, o.stack) < Room(t, k))
  {
    StepKeeps(t, cert, k, tok);
    StackBound(t, k, |YieldAll(Forest(k))|);
    var o := Step(t, cert, k, tok);
    if !o.done {
      var r := Decide(t, cert, k, tok.code).rule;
      ReduceYield(k, |k| - |t.rules[r].rhs|, r, Top(o.stack));
      StackBound(t, o.stack, |YieldAll(Forest(k))|);
    }
  }

  datatype Result = Result(stack: Stack, events: seq<Event>)

  /** What one call of sqlite3Parser does. */
  ghost function Call(t: Tables, cert: Certificate, k: Stack, tok: Token): (c: Result)
    requires Ready(t, cert) && StackOk(t, cert, k) && tok.code < t.terminals
    ensures StackOk(t, cert, c.stack)
    decreases Room(t, k)
  {
    StepProgress(t, cert, k, tok);
    var o := Step(t, cert, k, tok);
    if o.done then Result(o.stack, o.events)
    else
      var rest := Call(t, cert, o.stack, tok);
      Result(rest.stack, o.events + rest.events)
  }

  function Reductions(log: seq<Event>): nat {
    if log == [] then 0 else (if log[0].Reduced? then 1 else 0) + Reductions(log[1..])
  }

  lemma {:induction false} ReductionsAppend(a: seq<Event>, b: seq<Event>)
    ensures Reductions(a + b) == Reductions(a) + Reductions(b)
  {
    if a == [] {
      assert a + b == b;
    } else {
      assert (a + b)[1..] == a[1..] + b;
      ReductionsAppend(a[1..], b);
    }
  }

  lemma {:induction false} UnwoundReduces(k: Stack)
    requires k != []
    ensures Reductions(Unwound(k)) == 0
    decreases |k|
  {
    if 1 < |k| {
      UnwoundReduces(k[..|k| - 1]);
      ReductionsAppend([Destroyed(Top(k).minor)], Unwound(k[..|k| - 1]));
    }
  }

  lemma TurnReductions(t: Tables, k: Stack, turn: Turn, tok: Token)
    requires Fits(t, k, turn)
    ensures var o := Perform(t, k, turn, tok); Reductions(o.events) == if o.done then 0 else 1
  {
    hide ReduceReady, ValuesOk;
    assert turn.Reduce? ==> ReduceReady(t, k, turn.rule);
    UnwoundReduces(k);
    ReductionsAppend(Unwound(k), [Overflowed]);
    if 1 < |k| {
      var rest := k[..|k| - 1];
      UnwoundReduces(rest);
      ReductionsAppend([Dropped(Top(k).minor)], Unwound(rest));
      ReductionsAppend([Dropped(Top(k).minor)] + Unwound(rest), [Overflowed]);
    }
  }

  /** A call makes at most as many reductions as the tokens on the stack leave room for. */
  lemma {:induction false} CallBounded(t: Tables, cert: Certificate, k: Stack, tok: Token)
    requires Ready(t, cert) && StackOk(t, cert, k) && tok.code < t.terminals
    ensures Reductions(Call(t, cert, k, tok).events) <= Room(t, k) <= ForestLimit(t, |YieldAll(Forest(k))|)
    decreases Room(t, k)
  {
    hide Certified, Acyclic, StackOk, Decide, Perform, Fits, ForestLimit;
    StepProgress(t, cert, k, tok);
    TurnReductions(t, k, Decide(t, cert, k, tok.code), tok);
    var o := Step(t, cert, k, tok);
    assert k != [] by { StackNonEmpty(t, cert, k); }
    if !o.done {
      CallBounded(t, cert, o.stack, tok);
      ReductionsAppend(o.events, Call(t, cert, o.stack, tok).events);
    }
  }

  lemma StackNonEmpty(t: Tables, cert: Certificate, k: Stack)
    requires StackOk(t, cert, k)
    ensures k != []
  {
  }
}
