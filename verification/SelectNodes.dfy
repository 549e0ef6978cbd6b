/** The Select nodes that the grammar actions link together, in place. */
module SelectNodes {
  import opened CompoundSelect

  class Select {
    var op: Op
    var body: Body
    var pPrior: Select?
    var pNext: Select?
    var multiValue: bool  // SF_MultiValue: a VALUES clause of several rows, to which no limit applies
    var compound: bool    // SF_Compound

    /** sqlite3SelectNew. */
    constructor (body: Body, multiValue: bool)
      ensures op == Plain && this.body == body && pPrior == null && pNext == null
      ensures this.multiValue == multiValue && !compound
    {
      this.op, this.body, this.multiValue := Plain, body, multiValue;
      pPrior, pNext, compound := null, null, false;
    }
  }

  /** The nodes along pPrior, from the head. */
  ghost predicate Chain(head: Select?, nodes: seq<Select>)
    reads nodes
  {
    && nodes != [] && head == nodes[0]
    && (forall i | 0 <= i < |nodes| - 1 :: nodes[i].pPrior == nodes[i + 1])
    && nodes[|nodes| - 1].pPrior == null
    && (forall i, j | 0 <= i < j < |nodes| :: nodes[i] != nodes[j])
  }

  ghost function Terms(nodes: seq<Select>): seq<Term>
    reads nodes
  {
    if nodes == [] then [] else [Term(nodes[0].op, nodes[0].body)] + Terms(nodes[1..])
  }

  lemma {:induction false} TermsAt(nodes: seq<Select>, i: nat)
    requires i < |nodes|
    ensures |Terms(nodes)| == |nodes| && Terms(nodes)[i] == Term(nodes[i].op, nodes[i].body)
  {
    if 0 < i {
      TermsAt(nodes[1..], i - 1);
    } else if 1 < |nodes| {
      TermsAt(nodes[1..], 0);
    }
  }

  /** pNext is the inverse of pPrior along the chain, and every node is marked as part of a compound. */
  ghost predicate DoublyLinked(nodes: seq<Select>)
    reads nodes
  {
    forall i | 0 <= i < |nodes| ::
      nodes[i].compound && nodes[i].pNext == if i == 0 then null else nodes[i - 1]
  }

  class Parse {
    const limit: int  // SQLITE_LIMIT_COMPOUND_SELECT
    var tooMany: bool // "too many terms in compound SELECT" has been reported
    var hasCompound: bool

    constructor (limit: int)
      ensures this.limit == limit && !tooMany && !hasCompound
    {
      this.limit, tooMany, hasCompound := limit, false, false;
    }

    /** parserDoubleLinkSelect. */
    method DoubleLink(p: Select, ghost nodes: seq<Select>)
      requires Chain(p, nodes)
      modifies this`tooMany, nodes`pNext, nodes`compound
      ensures Chain(p, nodes) && Terms(nodes) == old(Terms(nodes))
      ensures 1 < |nodes| ==> DoublyLinked(nodes)
      ensures |nodes| == 1 ==> p.pNext == old(p.pNext) && p.compound == old(p.compound)
      ensures tooMany <==> old(tooMany) || (1 < |nodes| && !p.multiValue && 0 < limit < |nodes|)
    {
      if p.pPrior != null {
        var next: Select? := null;
        var loop: Select? := p;
        var cnt := 0;
        while loop != null
          invariant cnt <= |nodes| && Chain(p, nodes) && tooMany == old(tooMany)
          invariant loop == if cnt < |nodes| then nodes[cnt] else null
          invariant next == if cnt == 0 then null else nodes[cnt - 1]
          invariant forall i | 0 <= i < cnt :: nodes[i].compound
          invariant 0 < cnt ==> nodes[0].pNext == null
          invariant forall i | 0 < i < cnt :: nodes[i].pNext == nodes[i - 1]
          decreases |nodes| - cnt
        {
          assert forall i | 0 <= i < cnt :: nodes[i] != loop;
          loop.pNext := next;
          loop.compound := true;
          next, loop, cnt := loop, loop.pPrior, cnt + 1;
        }
        if !p.multiValue && 0 < limit && limit < cnt {
          tooMany := true;
        }
      }
      SameTerms(nodes);
    }

    /** The content of a chain, as a subquery in a FROM clause holds it. */
    method Content(p: Select, ghost nodes: seq<Select>) returns (terms: seq<Term>)
      requires Chain(p, nodes)
      ensures terms == Terms(nodes)
    {
      terms := [];
      var loop: Select? := p;
      ghost var n := 0;
      while loop != null
        invariant n <= |nodes| && loop == if n < |nodes| then nodes[n] else null
        invariant Terms(nodes) == terms + Terms(nodes[n..])
        decreases |nodes| - n
      {
        terms := terms + [Term(loop.op, loop.body)];
        loop := loop.pPrior;
        n := n + 1;
      }
    }

    /** values ::= VALUES LP nexprlist RP. */
    method FirstRow(row: nat) returns (p: Select)
      ensures fresh(p) && Chain(p, [p]) && Terms([p]) == ValuesChain([row]) && !p.multiValue
    {
      p := new Select(Row(row), false);
    }

    /** values ::= values COMMA LP exprlist RP. */
    method NextRow(left: Select, ghost nodes: seq<Select>, row: nat) returns (p: Select)
      requires Chain(left, nodes)
      modifies left`multiValue
      ensures fresh(p) && Chain(p, [p] + nodes) && p.multiValue && !left.multiValue
      ensures Terms([p] + nodes) == [Term(All, Row(row))] + old(Terms(nodes))
    {
      p := new Select(Row(row), true);
      left.multiValue := false;
      p.op := All;
      p.pPrior := left;
      ExtendChain(p, left, nodes);
      SameTerms(nodes);
    }

    /** A right operand of several rows becomes "SELECT * FROM (rows)".  Its head has SF_MultiValue, so
        linking it reports nothing. */
    method Wrap(rhs: Select, ghost right: seq<Select>) returns (p: Select)
      requires Chain(rhs, right) && (1 < |right| ==> rhs.multiValue)
      modifies this`tooMany, right`pNext, right`compound
      ensures |right| == 1 ==> p == rhs
      ensures 1 < |right| ==> fresh(p) && DoublyLinked(right)
      ensures Chain(p, [p]) && p.body == RightBody(old(Terms(right)))
      ensures tooMany == old(tooMany) && Terms(right) == old(Terms(right))
    {
      p := rhs;
      TermsAt(right, 0);
      if rhs.pPrior != null {
        DoubleLink(rhs, right);
        var content := Content(rhs, right);
        p := new Select(Subquery(content), false);
        SameTerms(right);
      }
    }

    /** selectnowith ::= selectnowith multiselect_op oneselect. */
    method Compound(lhs: Select, ghost left: seq<Select>, op: Op, rhs: Select, ghost right: seq<Select>)
      returns (p: Select)
      requires Chain(lhs, left) && Chain(rhs, right)
      requires forall x | x in left :: x !in right
      requires 1 < |right| ==> rhs.multiValue
      modifies this, left, right
      ensures p !in left && Chain(p, [p] + left) && !p.multiValue && !lhs.multiValue
      ensures |right| == 1 ==> p == rhs
      ensures 1 < |right| ==> fresh(p)
      ensures Terms([p] + left) == [Term(op, RightBody(old(Terms(right))))] + old(Terms(left))
      ensures tooMany == old(tooMany) && hasCompound == (old(hasCompound) || op != All)
    {
      hide Terms, RightBody;
      p := Wrap(rhs, right);
      assert p !in left;
      p.op := op;
      p.pPrior := lhs;
      lhs.multiValue := false;
      p.multiValue := false;
      if op != All {
        hasCompound := true;
      }
      SameTerms(left);
      ExtendChain(p, lhs, left);
    }

    /** The nodes for one operand: a single node, or a row for each row of a VALUES clause. */
    method Operand(o: CompoundSelect.Operand) returns (p: Select, ghost nodes: seq<Select>)
      requires o.Values? ==> o.rows != []
      ensures Chain(p, nodes) && (forall i | 0 <= i < |nodes| :: fresh(nodes[i]))
      ensures Terms(nodes) == OperandChain(o) && |nodes| == Width(o)
      ensures p.multiValue <==> 1 < |nodes|
    {
      match o
      case Simple(id) =>
        p := new Select(Core(id), false);
        nodes := [p];
      case Values(rows) =>
        p := FirstRow(rows[0]);
        nodes := [p];
        assert rows[..1] == [rows[0]];
        for n := 1 to |rows|
          invariant Chain(p, nodes) && (forall i | 0 <= i < |nodes| :: fresh(nodes[i]))
          invariant Terms(nodes) == ValuesChain(rows[..n]) && |nodes| == n
          invariant fresh(p) && (p.multiValue <==> 1 < n)
        {
          hide Terms, Chain, ValuesChain;
          ValuesChainStep(rows, n);
          p := NextRow(p, nodes, rows[n]);
          nodes := [p] + nodes;
        }
        assert rows[..|rows|] == rows;
    }

    /** One operator and its right operand. */
    method AddOperand(lhs: Select, ghost left: seq<Select>, op: Op, o: CompoundSelect.Operand) returns (p: Select)
      requires Chain(lhs, left) && (o.Values? ==> o.rows != [])
      modifies this, left
      ensures fresh(p) && Chain(p, [p] + left) && !p.multiValue
      ensures Terms([p] + left) == [Term(op, RightBody(OperandChain(o)))] + old(Terms(left))
      ensures tooMany == old(tooMany) && hasCompound == (old(hasCompound) || op != All)
    {
      hide Terms, OperandChain, RightBody;
      var rhs; ghost var right;
      rhs, right := Operand(o);
      SameTerms(left);
      assert rhs == right[0];
      p := Compound(lhs, left, op, rhs, right);
    }

    /** selectnowith over a whole source. */
    method Join(s: Source) returns (p: Select, ghost nodes: seq<Select>)
      requires WellFormed(s)
      modifies this
      ensures Chain(p, nodes) && (forall i | 0 <= i < |nodes| :: fresh(nodes[i]))
      ensures Terms(nodes) == SourceChain(s.first, s.rest) && |nodes| == Width(s.first) + |s.rest|
      ensures p.multiValue <==> s.rest == [] && 1 < |nodes|
      ensures tooMany == old(tooMany) && hasCompound == (old(hasCompound) || Mixed(s.rest))
    {
      p, nodes := Operand(s.first);
      assert s.rest[..0] == [];
      for n := 0 to |s.rest|
        invariant Chain(p, nodes) && (forall i | 0 <= i < |nodes| :: fresh(nodes[i]))
        invariant Terms(nodes) == SourceChain(s.first, s.rest[..n]) && |nodes| == Width(s.first) + n
        invariant p.multiValue <==> n == 0 && 1 < |nodes|
        invariant tooMany == old(tooMany) && hasCompound == (old(hasCompound) || Mixed(s.rest[..n]))
      {
        hide Terms, Chain, SourceChain, OperandChain, RightBody, Mixed;
        SourceChainStep(s, n);
        MixedMore(s.rest, n);
        ghost var left := nodes;
        p := AddOperand(p, left, s.rest[n].0, s.rest[n].1);
        nodes := [p] + left;
      }
      assert s.rest[..|s.rest|] == s.rest;
    }

    /** select ::= with selectnowith.  The limit on the number of terms counts the rows of a leading VALUES
        clause one by one, but does not apply when there is nothing else. */
    method Build(s: Source) returns (p: Select, ghost nodes: seq<Select>)
      requires WellFormed(s)
      modifies this
      ensures Chain(p, nodes) && (1 < |nodes| ==> DoublyLinked(nodes))
      ensures Terms(nodes) == SourceChain(s.first, s.rest) && |nodes| == Width(s.first) + |s.rest|
      ensures tooMany <==> old(tooMany) || (s.rest != [] && 0 < limit < Width(s.first) + |s.rest|)
      ensures hasCompound == (old(hasCompound) || Mixed(s.rest))
    {
      p, nodes := Join(s);
      DoubleLink(p, nodes);
    }
  }

  /** Some operator is not UNION ALL. */
  predicate Mixed(rest: seq<(Op, CompoundSelect.Operand)>) {
    exists i :: 0 <= i < |rest| && rest[i].0 != All
  }

  lemma MixedMore(rest: seq<(Op, CompoundSelect.Operand)>, n: nat)
    requires n < |rest|
    ensures Mixed(rest[..n + 1]) <==> Mixed(rest[..n]) || rest[n].0 != All
  {
    if Mixed(rest[..n]) {
      var i :| 0 <= i < n && rest[..n][i].0 != All;
      assert rest[..n + 1][i].0 != All;
    }
    if rest[n].0 != All {
      assert rest[..n + 1][n].0 != All;
    }
    if Mixed(rest[..n + 1]) {
      var i :| 0 <= i < n + 1 && rest[..n + 1][i].0 != All;
      assert i < n ==> rest[..n][i].0 != All;
    }
  }

  lemma ValuesChainStep(rows: seq<nat>, n: nat)
    requires 0 < n < |rows|
    ensures ValuesChain(rows[..n + 1]) == [Term(All, Row(rows[n]))] + ValuesChain(rows[..n])
  {
    assert rows[..n + 1][..n] == rows[..n];
  }

  lemma SourceChainStep(s: Source, n: nat)
    requires WellFormed(s) && n < |s.rest|
    ensures SourceChain(s.first, s.rest[..n + 1]) ==
      [Term(s.rest[n].0, RightBody(OperandChain(s.rest[n].1)))] + SourceChain(s.first, s.rest[..n])
  {
    assert s.rest[..n + 1][..n] == s.rest[..n];
  }

  /** How many nodes an operand takes. */
  function Width(o: CompoundSelect.Operand): nat {
    if o.Values? then |o.rows| else 1
  }

  /** Terms depend only on the operators and bodies. */
  twostate lemma {:induction false} SameTerms(nodes: seq<Select>)
    requires forall i | 0 <= i < |nodes| :: nodes[i].op == old(nodes[i].op) && nodes[i].body == old(nodes[i].body)
    ensures Terms(nodes) == old(Terms(nodes))
  {
    if nodes != [] {
      SameTerms(nodes[1..]);
    }
  }

  lemma ExtendChain(p: Select, left: Select, nodes: seq<Select>)
    requires Chain(left, nodes) && p !in nodes && p.pPrior == left
    ensures Chain(p, [p] + nodes) && Terms([p] + nodes) == [Term(p.op, p.body)] + Terms(nodes)
  {
    assert ([p] + nodes)[1..] == nodes;
  }
}
