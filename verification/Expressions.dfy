/** Expressions: the trees that the grammar actions build evaluate, in three-valued logic, as the source does. */
module Expressions {
  import opened Options

  datatype Value = Null | Num(n: int)

  datatype BinOp =
    | AND | OR | LT | LE | GT | GE | EQ | NE | IS | ISNOT | PLUS | MINUS | STAR
    | SLASH | REM | BITAND | BITOR | LSHIFT | RSHIFT | CONCAT
  datatype UnOp = NOT | BITNOT | UMINUS | UPLUS | ISNULL | NOTNULL

  // ---------------------------------------------------------------------------------------------
  // Values

  function Bool(b: bool): Value {
    Num(if b then 1 else 0)
  }

  predicate IsTrue(v: Value) {
    v.Num? && v.n != 0
  }

  predicate IsFalse(v: Value) {
    v == Num(0)
  }

  function Not(v: Value): Value {
    if v == Null then Null else Bool(v.n == 0)
  }

  function BinaryNum(op: BinOp, a: int, b: int): Value {
    match op
    case LT => Bool(a < b)
    case LE => Bool(a <= b)
    case GT => Bool(a > b)
    case GE => Bool(a >= b)
    case EQ => Bool(a == b)
    case NE => Bool(a != b)
    case PLUS => Num(a + b)
    case MINUS => Num(a - b)
    case _ => Num(a * b)
  }

  function Binary(op: BinOp, a: Value, b: Value): Value {
    if op == IS then Bool(a == b)
    else if op == ISNOT then Bool(a != b)
    else if op == AND && (IsFalse(a) || IsFalse(b)) then Bool(false)
    else if op == OR && (IsTrue(a) || IsTrue(b)) then Bool(true)
    else if a == Null || b == Null then Null
    else if op == AND then Bool(true)
    else if op == OR then Bool(false)
    else BinaryNum(op, a.n, b.n)
  }

  /** Membership: true if equal to some element, else unknown if a comparison was, else false. */
  function Member(a: Value, vs: seq<Value>): Value {
    if vs == [] then Bool(false)
    else if a != Null && a in vs then Bool(true)
    else if a == Null || Null in vs then Null
    else Bool(false)
  }

  function Negated(yes: bool, v: Value): Value {
    if yes then Not(v) else v
  }

  /** What the parser leaves to the engine that runs its trees: columns, what "text LIKE pattern ESCAPE escape"
      yields for each operator name, division, the bit operators and "||", signs, conversions to a type, and
      the choice of a collation. */
  datatype Env = Env(
    column: nat -> Value,
    like: (string, Value, Value, Option<Value>) -> Value,
    operator: (BinOp, Value, Value) -> Value,
    sign: (UnOp, Value) -> Value,
    cast: (string, Value) -> Value,
    collate: (string, Value) -> Value)

  function Unary(env: Env, op: UnOp, v: Value): Value {
    match op
    case NOT => Not(v)
    case ISNULL => Bool(v == Null)
    case NOTNULL => Bool(v != Null)
    case _ => env.sign(op, v)
  }

  function Operate(env: Env, op: BinOp, a: Value, b: Value): Value {
    if op in {SLASH, REM, BITAND, BITOR, LSHIFT, RSHIFT, CONCAT} then env.operator(op, a, b) else Binary(op, a, b)
  }

  // ---------------------------------------------------------------------------------------------
  // Source syntax

  datatype Source =
    | NullLit
    | Integer(i: int)
    | Column(id: nat)
    | Paren(e: Source)
    | Infix(infix: BinOp, l: Source, r: Source)  // all binary operators but IS
    | Prefix(op: UnOp, e: Source)                // NOT ~ - +
    | Postfix(op: UnOp, e: Source)               // ISNULL, NOTNULL, NOT NULL
    | Collate(e: Source, collation: string)
    | Cast(e: Source, typ: string)
    | IsOp(negated: bool, l: Source, r: Source)
    | LikeOp(negated: bool, name: string, text: Source, pattern: Source, escape: Option<Source>)
    | BetweenOp(negated: bool, e: Source, lo: Source, hi: Source)
    | InOp(negated: bool, e: Source, list: seq<Source>)
    | CaseOf(operand: Option<Source>, whens: seq<Source>, thens: seq<Source>, otherwise: Option<Source>)

  /** As many THEN as WHEN; the operators are those of their class. */
  ghost predicate Proper(s: Source)
    decreases s
  {
    match s
    case Paren(e) => Proper(e)
    case Collate(e, _) => Proper(e)
    case Cast(e, _) => Proper(e)
    case Infix(op, l, r) => op != IS && op != ISNOT && Proper(l) && Proper(r)
    case Prefix(op, e) => op != ISNULL && op != NOTNULL && Proper(e)
    case Postfix(op, e) => (op == ISNULL || op == NOTNULL) && Proper(e)
    case IsOp(_, l, r) => Proper(l) && Proper(r)
    case LikeOp(_, _, t, p, x) => Proper(t) && Proper(p) && (x.Some? ==> Proper(x.value))
    case BetweenOp(_, e, lo, hi) => Proper(e) && Proper(lo) && Proper(hi)
    case InOp(_, e, list) => Proper(e) && ProperAll(list)
    case CaseOf(x, ws, ts, o) =>
      && |ws| == |ts| && ws != [] && ProperAll(ws) && ProperAll(ts)
      && (x.Some? ==> Proper(x.value)) && (o.Some? ==> Proper(o.value))
    case _ => true
  }

  ghost predicate ProperAll(ss: seq<Source>)
    decreases ss
  {
    forall i | 0 <= i < |ss| :: Proper(ss[i])
  }

  /** Does a WHEN apply?  It is compared with the operand, or tested by itself. */
  predicate Chosen(base: Option<Value>, w: Value) {
    match base
    case None => IsTrue(w)
    case Some(b) => IsTrue(Binary(EQ, b, w))
  }

  /** The pairs are tried in order. */
  function Pick(base: Option<Value>, ws: seq<Value>, ts: seq<Value>, otherwise: Value): Value
    requires |ws| == |ts|
  {
    if ws == [] then otherwise
    else if Chosen(base, ws[0]) then ts[0]
    else Pick(base, ws[1..], ts[1..], otherwise)
  }

  function Sense(env: Env, s: Source): Value
    requires Proper(s)
    decreases s
  {
    match s
    case NullLit => Null
    case Integer(i) => Num(i)
    case Column(id) => env.column(id)
    case Paren(e) => Sense(env, e)
    case Infix(op, l, r) => Operate(env, op, Sense(env, l), Sense(env, r))
    case Collate(e, name) => env.collate(name, Sense(env, e))
    case Cast(e, typ) => env.cast(typ, Sense(env, e))
    case Prefix(op, e) => Unary(env, op, Sense(env, e))
    case Postfix(op, e) => Unary(env, op, Sense(env, e))
    case IsOp(neg, l, r) => Bool((Sense(env, l) == Sense(env, r)) != neg)
    case LikeOp(neg, name, t, p, x) =>
      var escape := if x.Some? then Some(Sense(env, x.value)) else None;
      Negated(neg, env.like(name, Sense(env, t), Sense(env, p), escape))
    case BetweenOp(neg, e, lo, hi) =>
      var v := Sense(env, e);
      Negated(neg, Binary(AND, Binary(GE, v, Sense(env, lo)), Binary(LE, v, Sense(env, hi))))
    case InOp(neg, e, list) => Negated(neg, Member(Sense(env, e), SenseAll(env, list)))
    case CaseOf(x, ws, ts, o) =>
      var base := if x.Some? then Some(Sense(env, x.value)) else None;
      Pick(base, SenseAll(env, ws), SenseAll(env, ts), if o.Some? then Sense(env, o.value) else Null)
  }

  function SenseAll(env: Env, ss: seq<Source>): (vs: seq<Value>)
    requires ProperAll(ss)
    ensures |vs| == |ss|
    decreases ss
  {
    if ss == [] then []
    else
      var n := |ss| - 1;
      assert ss[n] in ss;
      SenseAll(env, ss[..n]) + [Sense(env, ss[n])]
  }

  // ---------------------------------------------------------------------------------------------
  // The trees built by the actions

  datatype Expr =
    | ENull
    | EInteger(i: int)
    | EColumn(id: nat)
    | EUnary(op: UnOp, e: Expr)
    | EBinary(infix: BinOp, l: Expr, r: Expr)
    | ECollate(e: Expr, collation: string)
    | ECast(e: Expr, typ: string)
    | EFunction(name: string, args: seq<Expr>)
    | EBetween(e: Expr, args: seq<Expr>)
    | EIn(e: Expr, args: seq<Expr>)
    | ECase(operand: Option<Expr>, args: seq<Expr>)

  /** exprNot. */
  function ExprNot(doNot: bool, e: Expr): Expr {
    if doNot then EUnary(NOT, e) else e
  }

  /** binaryToUnaryIfNull: y is the right operand, a the IS node over it. */
  function BinaryToUnaryIfNull(y: Expr, a: Expr, op: UnOp): Expr
    requires a.EBinary?
  {
    if y == ENull then EUnary(op, a.l) else a
  }

  /** The list of a CASE: WHEN and THEN alternate, and an ELSE comes last. */
  function Flatten(ws: seq<Expr>, ts: seq<Expr>, otherwise: Option<Expr>): seq<Expr>
    requires |ws| == |ts|
  {
    Pairs(ws, ts) + if otherwise.Some? then [otherwise.value] else []
  }

  function Pairs(ws: seq<Expr>, ts: seq<Expr>): seq<Expr>
    requires |ws| == |ts|
  {
    if ws == [] then [] else var n := |ws| - 1; Pairs(ws[..n], ts[..n]) + [ws[n]] + [ts[n]]
  }

  /** LIKE as a call: the pattern comes first, the escape last. */
  function LikeCall(name: string, t: Expr, p: Expr, x: Option<Expr>): Expr {
    EFunction(name, [p, t] + if x.Some? then [x.value] else [])
  }

  /** IN with a list: empty, of one element, or longer. */
  function InTree(neg: bool, x: Expr, args: seq<Expr>): Expr {
    if args == [] then EInteger(if neg then 1 else 0)
    else if |args| == 1 then EBinary(if neg then NE else EQ, x, args[0])
    else ExprNot(neg, EIn(x, args))
  }

  function Build(s: Source): Expr
    requires Proper(s)
    decreases s
  {
    match s
    case NullLit => ENull
    case Integer(i) => EInteger(i)
    case Column(id) => EColumn(id)
    case Paren(e) => Build(e)
    case Collate(e, name) => ECollate(Build(e), name)
    case Cast(e, typ) => ECast(Build(e), typ)
    case Infix(op, l, r) => EBinary(op, Build(l), Build(r))
    case Prefix(op, e) => EUnary(op, Build(e))
    case Postfix(op, e) => EUnary(op, Build(e))
    case IsOp(neg, l, r) =>
      var y := Build(r);
      var a := EBinary(if neg then ISNOT else IS, Build(l), y);
      BinaryToUnaryIfNull(y, a, if neg then NOTNULL else ISNULL)
    case LikeOp(neg, name, t, p, x) =>
      ExprNot(neg, LikeCall(name, Build(t), Build(p), if x.Some? then Some(Build(x.value)) else None))
    case BetweenOp(neg, e, lo, hi) => ExprNot(neg, EBetween(Build(e), [Build(lo), Build(hi)]))
    case InOp(neg, e, list) => InTree(neg, Build(e), BuildAll(list))
    case CaseOf(x, ws, ts, o) =>
      ECase(if x.Some? then Some(Build(x.value)) else None,
            Flatten(BuildAll(ws), BuildAll(ts), if o.Some? then Some(Build(o.value)) else None))
  }

  function BuildAll(ss: seq<Source>): (es: seq<Expr>)
    requires ProperAll(ss)
    ensures |es| == |ss|
    decreases ss
  {
    if ss == [] then []
    else
      var n := |ss| - 1;
      assert ss[n] in ss;
      BuildAll(ss[..n]) + [Build(ss[n])]
  }

  /** The flat list of a CASE: two by two, and a single one at the end is the ELSE. */
  function PickFlat(base: Option<Value>, vs: seq<Value>): Value {
    if vs == [] then Null
    else if |vs| == 1 then vs[0]
    else if Chosen(base, vs[0]) then vs[1]
    else PickFlat(base, vs[2..])
  }

  /** Evaluation of a tree.  The arguments of a LIKE function are pattern, text and escape. */
  function Eval(env: Env, e: Expr): Value
    decreases e
  {
    match e
    case ENull => Null
    case EInteger(i) => Num(i)
    case EColumn(id) => env.column(id)
    case EUnary(op, x) => Unary(env, op, Eval(env, x))
    case EBinary(op, l, r) => Operate(env, op, Eval(env, l), Eval(env, r))
    case ECollate(x, name) => env.collate(name, Eval(env, x))
    case ECast(x, typ) => env.cast(typ, Eval(env, x))
    case EFunction(name, args) =>
      var vs := EvalAll(env, args);
      if |vs| == 2 then env.like(name, vs[1], vs[0], None)
      else if |vs| == 3 then env.like(name, vs[1], vs[0], Some(vs[2]))
      else Null
    case EBetween(x, args) =>
      var v, vs := Eval(env, x), EvalAll(env, args);
      if |vs| == 2 then Binary(AND, Binary(GE, v, vs[0]), Binary(LE, v, vs[1])) else Null
    case EIn(x, args) => Member(Eval(env, x), EvalAll(env, args))
    case ECase(x, args) => PickFlat(if x.Some? then Some(Eval(env, x.value)) else None, EvalAll(env, args))
  }

  function EvalAll(env: Env, es: seq<Expr>): (vs: seq<Value>)
    ensures |vs| == |es|
    decreases es
  {
    if es == [] then []
    else
      var n := |es| - 1;
      EvalAll(env, es[..n]) + [Eval(env, es[n])]
  }

  // ---------------------------------------------------------------------------------------------
  // CASE

  lemma {:induction false} EvalAppend(env: Env, a: seq<Expr>, b: seq<Expr>)
    ensures EvalAll(env, a + b) == EvalAll(env, a) + EvalAll(env, b)
    decreases |b|
  {
    if b == [] {
      assert a + b == a;
    } else {
      assert (a + b)[..|a + b| - 1] == a + b[..|b| - 1];
      EvalAppend(env, a, b[..|b| - 1]);
    }
  }

  lemma NoArgs(env: Env)
    ensures EvalAll(env, []) == []
  {
  }

  lemma EvalOne(env: Env, e: Expr)
    ensures EvalAll(env, [e]) == [Eval(env, e)]
  {
    assert [e][..0] == [];
    assert EvalAll(env, []) + [Eval(env, e)] == [Eval(env, e)];
  }

  function PairValues(ws: seq<Value>, ts: seq<Value>): seq<Value>
    requires |ws| == |ts|
  {
    if ws == [] then [] else [ws[0], ts[0]] + PairValues(ws[1..], ts[1..])
  }

  lemma {:induction false} PairValuesSnoc(ws: seq<Value>, ts: seq<Value>, w: Value, v: Value)
    requires |ws| == |ts|
    ensures PairValues(ws + [w], ts + [v]) == PairValues(ws, ts) + [w, v]
  {
    if ws == [] {
      assert PairValues([w], [v]) == [w, v] + PairValues([], []);
    } else {
      assert (ws + [w])[1..] == ws[1..] + [w] && (ts + [v])[1..] == ts[1..] + [v];
      PairValuesSnoc(ws[1..], ts[1..], w, v);
    }
  }

  lemma {:induction false} PairsEval(env: Env, ws: seq<Expr>, ts: seq<Expr>)
    requires |ws| == |ts|
    ensures EvalAll(env, Pairs(ws, ts)) == PairValues(EvalAll(env, ws), EvalAll(env, ts))
    decreases |ws|
  {
    if ws != [] {
      var n := |ws| - 1;
      PairsEval(env, ws[..n], ts[..n]);
      EvalAppend(env, Pairs(ws[..n], ts[..n]), [ws[n]]);
      EvalAppend(env, Pairs(ws[..n], ts[..n]) + [ws[n]], [ts[n]]);
      EvalOne(env, ws[n]);
      EvalOne(env, ts[n]);
      PairValuesSnoc(EvalAll(env, ws[..n]), EvalAll(env, ts[..n]), Eval(env, ws[n]), Eval(env, ts[n]));
      var front := PairValues(EvalAll(env, ws[..n]), EvalAll(env, ts[..n]));
      assert front + [Eval(env, ws[n])] + [Eval(env, ts[n])] == front + [Eval(env, ws[n]), Eval(env, ts[n])];
    }
  }

  lemma {:induction false} PickFlatIsPick(base: Option<Value>, ws: seq<Value>, ts: seq<Value>, otherwise: Option<Value>)
    requires |ws| == |ts|
    ensures PickFlat(base, PairValues(ws, ts) + if otherwise.Some? then [otherwise.value] else []) ==
            Pick(base, ws, ts, if otherwise.Some? then otherwise.value else Null)
    decreases |ws|
  {
    var tail := if otherwise.Some? then [otherwise.value] else [];
    if ws == [] {
      assert PairValues(ws, ts) + tail == tail;
    } else {
      var flat := PairValues(ws, ts) + tail;
      assert flat[2..] == PairValues(ws[1..], ts[1..]) + tail;
      PickFlatIsPick(base, ws[1..], ts[1..], otherwise);
    }
  }

  /** Evaluating the flat list tries the pairs in order and falls back on the ELSE. */
  lemma FlatCase(env: Env, base: Option<Value>, ws: seq<Expr>, ts: seq<Expr>, o: Option<Expr>)
    requires |ws| == |ts|
    ensures PickFlat(base, EvalAll(env, Flatten(ws, ts, o))) ==
            Pick(base, EvalAll(env, ws), EvalAll(env, ts), if o.Some? then Eval(env, o.value) else Null)
  {
    PairsEval(env, ws, ts);
    PickFlatIsPick(base, EvalAll(env, ws), EvalAll(env, ts), if o.Some? then Some(Eval(env, o.value)) else None);
    if o.Some? {
      EvalAppend(env, Pairs(ws, ts), [o.value]);
      EvalOne(env, o.value);
    } else {
      assert Flatten(ws, ts, o) == Pairs(ws, ts);
      var vs := PairValues(EvalAll(env, ws), EvalAll(env, ts));
      assert vs + [] == vs;
    }
  }

  /** Reading the flat list back by parity. */
  function Evens(es: seq<Expr>): seq<Expr> {
    seq(|es| / 2, i requires 0 <= i < |es| / 2 => es[2 * i])
  }

  function Odds(es: seq<Expr>): seq<Expr> {
    seq(|es| / 2, i requires 0 <= i < |es| / 2 => es[2 * i + 1])
  }

  lemma {:induction false} PairsAt(ws: seq<Expr>, ts: seq<Expr>)
    requires |ws| == |ts|
    ensures |Pairs(ws, ts)| == 2 * |ws|
    ensures forall i | 0 <= i < |ws| :: Pairs(ws, ts)[2 * i] == ws[i] && Pairs(ws, ts)[2 * i + 1] == ts[i]
    decreases |ws|
  {
    if ws != [] {
      var n := |ws| - 1;
      PairsAt(ws[..n], ts[..n]);
      forall i | 0 <= i < |ws|
        ensures Pairs(ws, ts)[2 * i] == ws[i] && Pairs(ws, ts)[2 * i + 1] == ts[i]
      {
        if i < n {
          assert Pairs(ws[..n], ts[..n])[2 * i] == ws[..n][i];
        }
      }
    }
  }

  /** The flat list has odd length exactly when there is an ELSE, and determines the source. */
  lemma FlattenReversible(ws: seq<Expr>, ts: seq<Expr>, o: Option<Expr>)
    requires |ws| == |ts|
    ensures var flat := Flatten(ws, ts, o);
      && Evens(flat) == ws && Odds(flat) == ts
      && (|flat| % 2 == 1 <==> o.Some?)
      && (o.Some? ==> flat != [] && flat[|flat| - 1] == o.value)
  {
    PairsAt(ws, ts);
    var flat := Flatten(ws, ts, o);
    forall i | 0 <= i < |ws|
      ensures flat[2 * i] == ws[i] && flat[2 * i + 1] == ts[i]
    {
      assert flat[2 * i] == Pairs(ws, ts)[2 * i] && flat[2 * i + 1] == Pairs(ws, ts)[2 * i + 1];
    }
  }

  // ---------------------------------------------------------------------------------------------
  // The rewritings

  lemma NoElement(a: Value, neg: bool)
    ensures Negated(neg, Member(a, [])) == Num(if neg then 1 else 0)
  {
  }

  lemma OneElement(a: Value, x: Value)
    ensures Member(a, [x]) == Binary(EQ, a, x)
    ensures Not(Member(a, [x])) == Binary(NE, a, x)
  {
  }

  lemma NotEval(env: Env, doNot: bool, e: Expr)
    ensures Eval(env, ExprNot(doNot, e)) == Negated(doNot, Eval(env, e))
  {
  }

  lemma TwoArgs(env: Env, a: Expr, b: Expr)
    ensures EvalAll(env, [a, b]) == [Eval(env, a), Eval(env, b)]
  {
    assert [a, b] == [a] + [b];
    EvalAppend(env, [a], [b]);
    EvalOne(env, a);
    EvalOne(env, b);
  }

  /** Every expression, whatever the rewritings below it, evaluates as its source means. */
  lemma {:induction false} BuildPreserves(env: Env, s: Source)
    requires Proper(s)
    ensures Eval(env, Build(s)) == Sense(env, s)
    decreases s
  {
    hide Unary, Not, Binary, Operate, Member, Pick, PickFlat, Flatten, InTree, LikeCall, SenseAll, BuildAll;
    match s
    case Paren(e) => BuildPreserves(env, e);
    case Collate(e, _) => BuildPreserves(env, e);
    case Cast(e, _) => BuildPreserves(env, e);
    case Infix(op, l, r) =>
      BuildPreserves(env, l);
      BuildPreserves(env, r);
    case Prefix(op, e) => BuildPreserves(env, e);
    case Postfix(op, e) => BuildPreserves(env, e);
    case IsOp(neg, l, r) =>
      BuildPreserves(env, l);
      BuildPreserves(env, r);
      IsPreserves(env, neg, l, r);
    case LikeOp(neg, name, t, p, x) =>
      BuildPreserves(env, t);
      BuildPreserves(env, p);
      if x.Some? {
        BuildPreserves(env, x.value);
      }
      LikePreserves(env, neg, name, t, p, x);
    case BetweenOp(neg, e, lo, hi) =>
      BuildPreserves(env, e);
      BuildPreserves(env, lo);
      BuildPreserves(env, hi);
      TwoArgs(env, Build(lo), Build(hi));
      NotEval(env, neg, EBetween(Build(e), [Build(lo), Build(hi)]));
    case InOp(neg, e, list) =>
      BuildPreserves(env, e);
      BuildAllPreserves(env, list);
      InPreserves(env, neg, e, list);
    case CaseOf(x, ws, ts, o) =>
      BuildAllPreserves(env, ws);
      BuildAllPreserves(env, ts);
      if x.Some? {
        BuildPreserves(env, x.value);
      }
      if o.Some? {
        BuildPreserves(env, o.value);
      }
      CasePreserves(env, x, ws, ts, o);
    case _ =>
  }

  lemma IsPreserves(env: Env, neg: bool, l: Source, r: Source)
    requires Proper(IsOp(neg, l, r))
    requires Eval(env, Build(l)) == Sense(env, l) && Eval(env, Build(r)) == Sense(env, r)
    ensures Eval(env, Build(IsOp(neg, l, r))) == Sense(env, IsOp(neg, l, r))
  {
    hide EvalAll, Member, PickFlat, Pick, Flatten, InTree, LikeCall;
    IsEval(env, neg, Build(l), Build(r));
  }

  lemma IsEval(env: Env, neg: bool, l: Expr, r: Expr)
    ensures var a := EBinary(if neg then ISNOT else IS, l, r);
      Eval(env, BinaryToUnaryIfNull(r, a, if neg then NOTNULL else ISNULL)) == Bool((Eval(env, l) == Eval(env, r)) != neg)
  {
    hide EvalAll, Member, PickFlat;
  }

  lemma LikePreserves(env: Env, neg: bool, name: string, t: Source, p: Source, x: Option<Source>)
    requires Proper(LikeOp(neg, name, t, p, x))
    requires Eval(env, Build(t)) == Sense(env, t) && Eval(env, Build(p)) == Sense(env, p)
    requires x.Some? ==> Eval(env, Build(x.value)) == Sense(env, x.value)
    ensures Eval(env, Build(LikeOp(neg, name, t, p, x))) == Sense(env, LikeOp(neg, name, t, p, x))
  {
    hide Eval, EvalAll, Unary, Not;
    var escape := if x.Some? then Some(Build(x.value)) else None;
    LikeEval(env, name, Build(t), Build(p), escape);
    NotEval(env, neg, LikeCall(name, Build(t), Build(p), escape));
  }

  lemma LikeEval(env: Env, name: string, t: Expr, p: Expr, x: Option<Expr>)
    ensures Eval(env, LikeCall(name, t, p, x)) ==
      env.like(name, Eval(env, t), Eval(env, p), if x.Some? then Some(Eval(env, x.value)) else None)
  {
    hide EvalAll, Unary, Not, Binary, Operate, Member, PickFlat;
    LikeArgs(env, t, p, x);
  }

  lemma LikeArgs(env: Env, t: Expr, p: Expr, x: Option<Expr>)
    ensures EvalAll(env, [p, t] + if x.Some? then [x.value] else []) ==
      [Eval(env, p), Eval(env, t)] + if x.Some? then [Eval(env, x.value)] else []
  {
    hide Eval;
    TwoArgs(env, p, t);
    if x.Some? {
      EvalAppend(env, [p, t], [x.value]);
      EvalOne(env, x.value);
    } else {
      assert [p, t] + [] == [p, t];
    }
  }

  lemma InPreserves(env: Env, neg: bool, e: Source, list: seq<Source>)
    requires Proper(InOp(neg, e, list))
    requires Eval(env, Build(e)) == Sense(env, e) && EvalAll(env, BuildAll(list)) == SenseAll(env, list)
    ensures Eval(env, Build(InOp(neg, e, list))) == Sense(env, InOp(neg, e, list))
  {
    hide Eval, Sense, Build, BuildAll, EvalAll, SenseAll, Proper;
    BuildIn(neg, e, list);
    SenseIn(env, neg, e, list);
    InEval(env, neg, Build(e), BuildAll(list));
  }

  lemma BuildIn(neg: bool, e: Source, list: seq<Source>)
    requires Proper(InOp(neg, e, list))
    ensures Proper(e) && ProperAll(list) && Build(InOp(neg, e, list)) == InTree(neg, Build(e), BuildAll(list))
  {
  }

  lemma SenseIn(env: Env, neg: bool, e: Source, list: seq<Source>)
    requires Proper(InOp(neg, e, list))
    ensures Proper(e) && ProperAll(list)
    ensures Sense(env, InOp(neg, e, list)) == Negated(neg, Member(Sense(env, e), SenseAll(env, list)))
  {
  }

  lemma InEval(env: Env, neg: bool, x: Expr, args: seq<Expr>)
    ensures Eval(env, InTree(neg, x, args)) == Negated(neg, Member(Eval(env, x), EvalAll(env, args)))
  {
    hide Unary, Not, Binary, Member, EvalAll, PickFlat;
    if args == [] {
      assert EvalAll(env, []) == [] by { NoArgs(env); }
      NoElement(Eval(env, x), neg);
    } else if |args| == 1 {
      assert args == [args[0]];
      EvalOne(env, args[0]);
      OneElement(Eval(env, x), Eval(env, args[0]));
    } else {
      NotEval(env, neg, EIn(x, args));
    }
  }

  lemma CasePreserves(env: Env, x: Option<Source>, ws: seq<Source>, ts: seq<Source>, o: Option<Source>)
    requires Proper(CaseOf(x, ws, ts, o))
    requires EvalAll(env, BuildAll(ws)) == SenseAll(env, ws) && EvalAll(env, BuildAll(ts)) == SenseAll(env, ts)
    requires x.Some? ==> Eval(env, Build(x.value)) == Sense(env, x.value)
    requires o.Some? ==> Eval(env, Build(o.value)) == Sense(env, o.value)
    ensures Eval(env, Build(CaseOf(x, ws, ts, o))) == Sense(env, CaseOf(x, ws, ts, o))
  {
    hide Eval, Sense, Build, BuildAll, EvalAll, SenseAll, Proper, Flatten, PickFlat, Pick;
    ProperCase(x, ws, ts, o);
    var base := if x.Some? then Some(Build(x.value)) else None;
    var otherwise := if o.Some? then Some(Build(o.value)) else None;
    BuildCase(x, ws, ts, o);
    SenseCase(env, x, ws, ts, o);
    CaseEval(env, base, BuildAll(ws), BuildAll(ts), otherwise);
  }

  lemma ProperCase(x: Option<Source>, ws: seq<Source>, ts: seq<Source>, o: Option<Source>)
    requires Proper(CaseOf(x, ws, ts, o))
    ensures |ws| == |ts| && ProperAll(ws) && ProperAll(ts)
    ensures (x.Some? ==> Proper(x.value)) && (o.Some? ==> Proper(o.value))
  {
  }

  lemma BuildCase(x: Option<Source>, ws: seq<Source>, ts: seq<Source>, o: Option<Source>)
    requires Proper(CaseOf(x, ws, ts, o))
    ensures Build(CaseOf(x, ws, ts, o)) ==
      ECase(if x.Some? then Some(Build(x.value)) else None,
            Flatten(BuildAll(ws), BuildAll(ts), if o.Some? then Some(Build(o.value)) else None))
  {
    hide Flatten;
  }

  lemma SenseCase(env: Env, x: Option<Source>, ws: seq<Source>, ts: seq<Source>, o: Option<Source>)
    requires Proper(CaseOf(x, ws, ts, o))
    ensures Sense(env, CaseOf(x, ws, ts, o)) ==
      Pick(if x.Some? then Some(Sense(env, x.value)) else None, SenseAll(env, ws), SenseAll(env, ts),
           if o.Some? then Sense(env, o.value) else Null)
  {
    hide Pick;
  }

  lemma CaseEval(env: Env, x: Option<Expr>, ws: seq<Expr>, ts: seq<Expr>, o: Option<Expr>)
    requires |ws| == |ts|
    ensures Eval(env, ECase(x, Flatten(ws, ts, o))) ==
      Pick(if x.Some? then Some(Eval(env, x.value)) else None, EvalAll(env, ws), EvalAll(env, ts),
           if o.Some? then Eval(env, o.value) else Null)
  {
    hide Flatten, PickFlat, Pick;
    FlatCase(env, if x.Some? then Some(Eval(env, x.value)) else None, ws, ts, o);
  }

  lemma {:induction false} BuildAllPreserves(env: Env, ss: seq<Source>)
    requires ProperAll(ss)
    ensures EvalAll(env, BuildAll(ss)) == SenseAll(env, ss)
    decreases ss
  {
    if ss != [] {
      var n := |ss| - 1;
      assert ss[n] in ss;
      BuildAllPreserves(env, ss[..n]);
      BuildPreserves(env, ss[n]);
      var es := BuildAll(ss);
      assert es[..n] == BuildAll(ss[..n]) && es[n] == Build(ss[n]);
    }
  }

  // ---------------------------------------------------------------------------------------------
  // The form of the trees

  /** The rewritten forms themselves: a null literal on the right of IS, an empty list, a list of one. */
  lemma RewrittenForms(neg: bool, e: Source, x: Source)
    requires Proper(e) && Proper(x)
    ensures Build(IsOp(neg, e, NullLit)) == EUnary(if neg then NOTNULL else ISNULL, Build(e))
    ensures Build(InOp(neg, e, [])) == EInteger(if neg then 1 else 0)
    ensures Build(InOp(neg, e, [x])) == EBinary(if neg then NE else EQ, Build(e), Build(x))
  {
    assert BuildAll([]) == [];
    assert [x][..0] == [] && BuildAll([x]) == [] + [Build(x)];
  }

  /** Nothing is left of what the actions rewrite: no IN with fewer than two elements, no IS with a null literal
      on the right; LIKE calls have two or three arguments, BETWEEN two, CASE at least a pair. */
  ghost predicate Rewritten(e: Expr)
    decreases e
  {
    match e
    case EUnary(_, x) => Rewritten(x)
    case EBinary(op, l, r) => Rewritten(l) && Rewritten(r) && (op == IS || op == ISNOT ==> r != ENull)
    case ECollate(x, _) => Rewritten(x)
    case ECast(x, _) => Rewritten(x)
    case EFunction(_, args) => 2 <= |args| <= 3 && RewrittenAll(args)
    case EBetween(x, args) => Rewritten(x) && |args| == 2 && RewrittenAll(args)
    case EIn(x, args) => Rewritten(x) && 2 <= |args| && RewrittenAll(args)
    case ECase(x, args) => (x.Some? ==> Rewritten(x.value)) && 2 <= |args| && RewrittenAll(args)
    case _ => true
  }

  ghost predicate RewrittenAll(es: seq<Expr>)
    decreases es
  {
    forall i | 0 <= i < |es| :: Rewritten(es[i])
  }

  lemma {:induction false} BuildRewrites(s: Source)
    requires Proper(s)
    ensures Rewritten(Build(s))
    decreases s
  {
    hide InTree, LikeCall, Flatten, BuildAll, BinaryToUnaryIfNull;
    match s
    case Paren(e) => BuildRewrites(e);
    case Collate(e, _) => BuildRewrites(e);
    case Cast(e, _) => BuildRewrites(e);
    case Infix(_, l, r) =>
      BuildRewrites(l);
      BuildRewrites(r);
    case Prefix(_, e) => BuildRewrites(e);
    case Postfix(_, e) => BuildRewrites(e);
    case IsOp(neg, l, r) =>
      BuildRewrites(l);
      BuildRewrites(r);
      IsRewritten(neg, Build(l), Build(r));
    case LikeOp(neg, name, t, p, x) =>
      BuildRewrites(t);
      BuildRewrites(p);
      if x.Some? {
        BuildRewrites(x.value);
      }
      LikeRewritten(neg, name, Build(t), Build(p), if x.Some? then Some(Build(x.value)) else None);
    case BetweenOp(neg, e, lo, hi) =>
      BuildRewrites(e);
      BuildRewrites(lo);
      BuildRewrites(hi);
      BetweenRewritten(neg, Build(e), Build(lo), Build(hi));
    case InOp(neg, e, list) =>
      BuildRewrites(e);
      BuildAllRewrites(list);
      BuildIn(neg, e, list);
      InRewritten(neg, Build(e), BuildAll(list));
    case CaseOf(x, ws, ts, o) =>
      BuildAllRewrites(ws);
      BuildAllRewrites(ts);
      if x.Some? {
        BuildRewrites(x.value);
      }
      if o.Some? {
        BuildRewrites(o.value);
      }
      BuildCase(x, ws, ts, o);
      FlattenRewritten(BuildAll(ws), BuildAll(ts), if o.Some? then Some(Build(o.value)) else None);
    case _ =>
  }

  lemma IsRewritten(neg: bool, l: Expr, r: Expr)
    requires Rewritten(l) && Rewritten(r)
    ensures Rewritten(BinaryToUnaryIfNull(r, EBinary(if neg then ISNOT else IS, l, r), if neg then NOTNULL else ISNULL))
  {
  }

  lemma LikeRewritten(neg: bool, name: string, t: Expr, p: Expr, x: Option<Expr>)
    requires Rewritten(t) && Rewritten(p) && (x.Some? ==> Rewritten(x.value))
    ensures Rewritten(ExprNot(neg, LikeCall(name, t, p, x)))
  {
  }

  lemma BetweenRewritten(neg: bool, x: Expr, lo: Expr, hi: Expr)
    requires Rewritten(x) && Rewritten(lo) && Rewritten(hi)
    ensures Rewritten(ExprNot(neg, EBetween(x, [lo, hi])))
  {
  }

  lemma InRewritten(neg: bool, x: Expr, args: seq<Expr>)
    requires Rewritten(x) && RewrittenAll(args)
    ensures Rewritten(InTree(neg, x, args))
  {
  }

  lemma FlattenRewritten(ws: seq<Expr>, ts: seq<Expr>, o: Option<Expr>)
    requires |ws| == |ts| && RewrittenAll(ws) && RewrittenAll(ts) && (o.Some? ==> Rewritten(o.value))
    ensures RewrittenAll(Flatten(ws, ts, o)) && 2 * |ws| <= |Flatten(ws, ts, o)|
  {
    hide Rewritten;
    PairsAt(ws, ts);
    var flat := Flatten(ws, ts, o);
    forall i | 0 <= i < |flat|
      ensures Rewritten(flat[i])
    {
      if i < 2 * |ws| {
        var h := i / 2;
        assert flat[i] == if i == 2 * h then ws[h] else ts[h];
      }
    }
  }

  lemma {:induction false} BuildAllRewrites(ss: seq<Source>)
    requires ProperAll(ss)
    ensures RewrittenAll(BuildAll(ss))
    decreases ss
  {
    if ss != [] {
      var n := |ss| - 1;
      assert ss[n] in ss;
      BuildAllRewrites(ss[..n]);
      BuildRewrites(ss[n]);
      var es := BuildAll(ss);
      assert es == BuildAll(ss[..n]) + [Build(ss[n])];
      assert forall i | 0 <= i < n :: Rewritten(BuildAll(ss[..n])[i]);
    }
  }

  // ---------------------------------------------------------------------------------------------
  // The NOT of a LIKE travels in the top bit of the operator token's length

  function MarkNot(n: bv32, doNot: bool): bv32 {
    if doNot then n | 0x80000000 else n
  }

  /** The mark can be read back and the length restored exactly for lengths below 2^31. */
  lemma MarkReadBack(n: bv32, doNot: bool)
    ensures (MarkNot(n, doNot) & 0x80000000 != 0) == doNot && MarkNot(n, doNot) & 0x7FFFFFFF == n
      <==> n < 0x80000000
  {
    TopBit(n);
    if doNot {
      Marked(n);
    }
  }

  lemma TopBit(n: bv32)
    ensures n & 0x80000000 == 0 <==> n < 0x80000000
    ensures n & 0x7FFFFFFF == n <==> n < 0x80000000
  {
  }

  lemma Marked(n: bv32)
    ensures (n | 0x80000000) & 0x80000000 == 0x80000000
    ensures (n | 0x80000000) & 0x7FFFFFFF == n & 0x7FFFFFFF
  {
  }
}
