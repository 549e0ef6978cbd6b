/** Compound SELECTs: the chain of nodes that the actions build means what the source text means. */
module CompoundSelect {

  datatype Op = All | Union | Except | Intersect | Plain  // Plain: TK_SELECT, a node that is not combined

  /** What a node selects by itself: an ordinary SELECT, one row of a VALUES, or everything from a subquery. */
  datatype Body = Core(id: nat) | Row(id: nat) | Subquery(chain: seq<Term>)

  /** One node of a chain.  Chains are listed from the head, the term written last, along pPrior. */
  datatype Term = Term(op: Op, body: Body)

  datatype Operand = Simple(id: nat) | Values(rows: seq<nat>)

  /** "first op operand op operand ...", as written. */
  datatype Source = Source(first: Operand, rest: seq<(Op, Operand)>)

  type Bag = multiset<nat>

  /** What each SELECT and each VALUES row yields. */
  datatype Env = Env(core: nat -> Bag, row: nat -> nat)

  function Combine(op: Op, a: Bag, b: Bag): Bag {
    match op
    case All => a + b
    case Union => multiset(set x | x in a + b)
    case Except => multiset(set x | x in a && x !in b)
    case Intersect => multiset(set x | x in a && x in b)
    case Plain => b
  }

  /** UNION ALL keeps every occurrence; the other three yield each row once. */
  lemma CombineMeans(op: Op, a: Bag, b: Bag, x: nat)
    ensures Combine(All, a, b)[x] == a[x] + b[x]
    ensures op == Union || op == Except || op == Intersect ==> Combine(op, a, b)[x] <= 1
    ensures x in Combine(Union, a, b) <==> x in a || x in b
    ensures x in Combine(Except, a, b) <==> x in a && x !in b
    ensures x in Combine(Intersect, a, b) <==> x in a && x in b
  {
  }

  function Meaning(env: Env, b: Body): Bag
    decreases b
  {
    match b
    case Core(id) => env.core(id)
    case Row(id) => multiset{env.row(id)}
    case Subquery(chain) => Evaluate(env, chain)
  }

  /** A chain is evaluated along pPrior: a node combines what lies before it with its own rows. */
  function Evaluate(env: Env, chain: seq<Term>): Bag
    decreases chain
  {
    if chain == [] then multiset{}
    else
      var head := chain[0];
      assert head in chain && head.body < head;
      var own := Meaning(env, head.body);
      if |chain| == 1 then own else Combine(head.op, Evaluate(env, chain[1..]), own)
  }

  function RowsBag(env: Env, rows: seq<nat>): Bag {
    if rows == [] then multiset{} else RowsBag(env, rows[..|rows| - 1]) + multiset{env.row(rows[|rows| - 1])}
  }

  function OperandBag(env: Env, o: Operand): Bag {
    match o
    case Simple(id) => env.core(id)
    case Values(rows) => RowsBag(env, rows)
  }

  /** The meaning of the source: operators apply from left to right. */
  function SourceBag(env: Env, first: Operand, rest: seq<(Op, Operand)>): Bag
    decreases |rest|
  {
    if rest == [] then OperandBag(env, first)
    else
      var n := |rest| - 1;
      Combine(rest[n].0, SourceBag(env, first, rest[..n]), OperandBag(env, rest[n].1))
  }

  ghost predicate WellFormed(s: Source) {
    && (s.first.Values? ==> s.first.rows != [])
    && (forall i | 0 <= i < |s.rest| :: s.rest[i].0 != Plain && (s.rest[i].1.Values? ==> s.rest[i].1.rows != []))
  }

  // ---------------------------------------------------------------------------------------------
  // The chains that the actions build

  function ValuesChain(rows: seq<nat>): seq<Term>
    requires rows != []
  {
    var n := |rows| - 1;
    if n == 0 then [Term(Plain, Row(rows[0]))]
    else [Term(All, Row(rows[n]))] + ValuesChain(rows[..n])
  }

  function OperandChain(o: Operand): (chain: seq<Term>)
    requires o.Values? ==> o.rows != []
    ensures chain != []
  {
    match o
    case Simple(id) => [Term(Plain, Core(id))]
    case Values(rows) => ValuesChain(rows)
  }

  /** The right operand keeps its own body if it is a single node, and is wrapped if it is a chain. */
  function RightBody(chain: seq<Term>): Body
    requires chain != []
  {
    if |chain| == 1 then chain[0].body else Subquery(chain)
  }

  function SourceChain(first: Operand, rest: seq<(Op, Operand)>): (chain: seq<Term>)
    requires first.Values? ==> first.rows != []
    requires forall i | 0 <= i < |rest| :: rest[i].1.Values? ==> rest[i].1.rows != []
    ensures chain != []
    decreases |rest|
  {
    if rest == [] then OperandChain(first)
    else
      var n := |rest| - 1;
      [Term(rest[n].0, RightBody(OperandChain(rest[n].1)))] + SourceChain(first, rest[..n])
  }

  lemma {:induction false} ValuesMeaning(env: Env, rows: seq<nat>)
    requires rows != []
    ensures Evaluate(env, ValuesChain(rows)) == RowsBag(env, rows)
    ensures |ValuesChain(rows)| == |rows|
    decreases |rows|
  {
    var n := |rows| - 1;
    if n == 0 {
      assert rows[..0] == [];
      assert RowsBag(env, rows) == RowsBag(env, []) + multiset{env.row(rows[0])};
    } else {
      ValuesMeaning(env, rows[..n]);
      assert ValuesChain(rows)[1..] == ValuesChain(rows[..n]);
    }
  }

  lemma RightMeaning(env: Env, o: Operand)
    requires o.Values? ==> o.rows != []
    ensures Evaluate(env, OperandChain(o)) == OperandBag(env, o) == Meaning(env, RightBody(OperandChain(o)))
  {
    if o.Values? {
      ValuesMeaning(env, o.rows);
    }
  }

  /** Evaluating the chain gives what the source means, for every list of operands and operators. */
  lemma {:induction false} ChainMeansSource(env: Env, first: Operand, rest: seq<(Op, Operand)>)
    requires WellFormed(Source(first, rest))
    ensures Evaluate(env, SourceChain(first, rest)) == SourceBag(env, first, rest)
    decreases |rest|
  {
    if rest == [] {
      RightMeaning(env, first);
    } else {
      var n := |rest| - 1;
      assert WellFormed(Source(first, rest[..n]));
      ChainMeansSource(env, first, rest[..n]);
      RightMeaning(env, rest[n].1);
      var chain := SourceChain(first, rest);
      assert chain[1..] == SourceChain(first, rest[..n]);
    }
  }

  lemma EvaluateStep(env: Env, t: Term, rest: seq<Term>)
    ensures Evaluate(env, [t] + rest) ==
      if rest == [] then Meaning(env, t.body) else Combine(t.op, Evaluate(env, rest), Meaning(env, t.body))
  {
    assert ([t] + rest)[1..] == rest;
  }

  /** "core EXCEPT VALUES (a),(b)", had the rows been strung onto the left operand one by one. */
  const SPLICED: seq<Term> := [Term(All, Row(1))] + ([Term(Except, Row(0))] + [Term(Plain, Core(0))])

  lemma SplicedMeaning(env: Env)
    ensures Evaluate(env, SPLICED) == Combine(Except, env.core(0), multiset{env.row(0)}) + multiset{env.row(1)}
  {
    EvaluateStep(env, Term(All, Row(1)), [Term(Except, Row(0))] + [Term(Plain, Core(0))]);
    EvaluateStep(env, Term(Except, Row(0)), [Term(Plain, Core(0))]);
    EvaluateStep(env, Term(Plain, Core(0)), []);
    assert [Term(Plain, Core(0))] + [] == [Term(Plain, Core(0))];
  }

  /** Without the wrapping the rows of a right operand would be combined one by one with what stands on the
      left: under EXCEPT a row of the operand would then be added instead of taken away. */
  lemma WrappingMatters(env: Env)
    ensures ValuesChain([0, 1]) == [SPLICED[0], Term(Plain, Row(0))]
    ensures env.row(1) in Evaluate(env, SPLICED)
    ensures env.row(1) !in SourceBag(env, Simple(0), [(Except, Values([0, 1]))])
  {
    SplicedMeaning(env);
    var rows := [0, 1];
    assert rows[..1] == [0];
    var rest := [(Except, Values(rows))];
    assert rest[..0] == [];
    assert env.row(1) in RowsBag(env, rows);
  }
}
