/** Text spans of expressions: from the first byte of the first token to the last byte of the last one. */
module Spans {
  import opened Options

  /** A token: where it starts in the text, and its length. */
  datatype Token = Token(z: nat, n: nat)

  function End(t: Token): nat {
    t.z + t.n
  }

  /** How a rule comes by its result: at once over the slot of its first symbol, or by way of a copy. */
  datatype Via = InPlace | Copied

  /** Expressions by the way their span is formed; "inner" and "middle" are tokens of parts whose own span
      plays no role. */
  datatype Expr =
    | Single(t: Token, single: Via)                              // identifier, literal, variable; CURRENT_TIME, #1
    | Enclosed(first: Token, inner: seq<Token>, last: Token, enclosed: Via)  // (e), (select), x.y, CAST(..), CASE..END; f(..), (e, e)
    | Infix(l: Expr, middle: seq<Token>, r: Expr)                // binary operators, LIKE .. ESCAPE, BETWEEN .. AND
    | Postfix(e: Expr, middle: seq<Token>, last: Token)          // ISNULL, NOT NULL, COLLATE id, IN (list), IN (select)
    | Prefix(op: Token, e: Expr)                                 // NOT ~ - +
    | InTable(e: Expr, middle: seq<Token>, name: Token, schema: Option<(Token, Token)>, args: Option<Args>)  // IN t, IN s.t(..)

  datatype Args = Args(lp: Token, inner: seq<Token>, rp: Token)

  function Names(name: Token, schema: Option<(Token, Token)>): seq<Token> {
    [name] + if schema.Some? then [schema.value.0, schema.value.1] else []
  }

  function ArgTokens(args: Option<Args>): seq<Token> {
    if args.Some? then [args.value.lp] + args.value.inner + [args.value.rp] else []
  }

  function Tokens(x: Expr): (ts: seq<Token>)
    ensures ts != []
    decreases x
  {
    match x
    case Single(t, _) => [t]
    case Enclosed(a, inner, b, _) => [a] + inner + [b]
    case Infix(l, middle, r) => Tokens(l) + middle + Tokens(r)
    case Postfix(e, middle, last) => Tokens(e) + middle + [last]
    case Prefix(op, e) => [op] + Tokens(e)
    case InTable(e, middle, name, schema, args) =>
      Tokens(e) + middle + Names(name, schema) + ArgTokens(args)
  }

  function Last(ts: seq<Token>): Token
    requires ts != []
  {
    ts[|ts| - 1]
  }

  /** The tokens stand one after the other in the text and are not empty. */
  ghost predicate InText(ts: seq<Token>) {
    && (forall i | 0 <= i < |ts| :: 0 < ts[i].n)
    && (forall i, j | 0 <= i < j < |ts| :: End(ts[i]) <= ts[j].z)
  }

  datatype Span = Span(zStart: nat, zEnd: nat)

  /** The span as the actions compute it, bottom up. */
  function SpanOf(x: Expr): Span
    decreases x
  {
    match x
    case Single(t, _) => Span(t.z, End(t))
    case Enclosed(a, _, b, _) => Span(a.z, End(b))
    case Infix(l, _, r) => Span(SpanOf(l).zStart, SpanOf(r).zEnd)
    case Postfix(e, _, last) => Span(SpanOf(e).zStart, End(last))
    case Prefix(op, e) => Span(op.z, SpanOf(e).zEnd)
    case InTable(e, _, name, schema, _) =>
      Span(SpanOf(e).zStart, if schema.Some? then End(schema.value.1) else End(name))
  }

  /** The expression ends in the arguments of a table-valued function on the right of IN. */
  predicate EndsInArguments(x: Expr) {
    match x
    case Infix(_, _, r) => EndsInArguments(r)
    case Prefix(_, e) => EndsInArguments(e)
    case InTable(_, _, _, _, args) => args.Some?
    case _ => false
  }

  /** How many tokens those arguments have, their parentheses included. */
  function Cut(x: Expr): nat {
    match x
    case Infix(_, _, r) => Cut(r)
    case Prefix(_, e) => Cut(e)
    case InTable(_, _, _, _, args) => |ArgTokens(args)|
    case _ => 0
  }

  lemma {:induction false} CutMeans(x: Expr)
    ensures 0 < Cut(x) <==> EndsInArguments(x)
    ensures Cut(x) < |Tokens(x)|
  {
    match x
    case Infix(_, _, r) => CutMeans(r);
    case Prefix(_, e) => CutMeans(e);
    case _ =>
  }

  /** In every case the span ends with the last token before such arguments. */
  lemma {:induction false} SpanEnds(x: Expr)
    ensures Cut(x) < |Tokens(x)| && SpanOf(x).zEnd == End(Tokens(x)[|Tokens(x)| - 1 - Cut(x)])
  {
    hide End, Names, ArgTokens;
    CutMeans(x);
    match x
    case Infix(l, middle, r) =>
      SpanEnds(r);
      FromTheEnd(Tokens(l) + middle, Tokens(r), Cut(r));
    case Prefix(op, e) =>
      SpanEnds(e);
      FromTheEnd([op], Tokens(e), Cut(e));
    case InTable(e, middle, name, schema, args) =>
      NamesEnd(name, schema);
      TableEnds(Tokens(e) + middle, Names(name, schema), ArgTokens(args));
    case _ =>
  }

  lemma TableEnds(front: seq<Token>, names: seq<Token>, args: seq<Token>)
    requires names != []
    ensures var ts := front + names + args; ts[|ts| - 1 - |args|] == Last(names)
  {
  }

  lemma NamesEnd(name: Token, schema: Option<(Token, Token)>)
    ensures Names(name, schema) != []
    ensures Last(Names(name, schema)) == if schema.Some? then schema.value.1 else name
  {
  }

  lemma FromTheEnd(a: seq<Token>, b: seq<Token>, k: nat)
    requires k < |b|
    ensures (a + b)[|a + b| - 1 - k] == b[|b| - 1 - k]
  {
  }

  /** A span always starts right.  It ends right unless the expression ends in such arguments, and then it
      is too short. */
  lemma {:induction false} SpanExact(x: Expr)
    requires InText(Tokens(x))
    ensures SpanOf(x).zStart == Tokens(x)[0].z
    ensures SpanOf(x).zEnd == End(Last(Tokens(x))) <==> !EndsInArguments(x)
    ensures SpanOf(x).zEnd <= End(Last(Tokens(x)))
    decreases x
  {
    hide InText, End;
    var ts := Tokens(x);
    match x
    case Infix(l, middle, r) =>
      EndsOf(Tokens(l), middle, Tokens(r));
      Part(ts, [], Tokens(l), middle + Tokens(r));
      Part(ts, Tokens(l) + middle, Tokens(r), []);
      SpanExact(l);
      SpanExact(r);
    case Postfix(e, middle, last) =>
      EndsOf(Tokens(e), middle, [last]);
      Part(ts, [], Tokens(e), middle + [last]);
      SpanExact(e);
    case Prefix(op, e) =>
      EndsOf([op], [], Tokens(e));
      Part(ts, [op], Tokens(e), []);
      SpanExact(e);
    case InTable(e, middle, name, schema, args) =>
      Part(ts, [], Tokens(e), middle + Names(name, schema) + ArgTokens(args));
      SpanExact(e);
      InTableEnd(x);
    case _ =>
  }

  lemma InTableEnd(x: Expr)
    requires x.InTable? && InText(Tokens(x))
    ensures SpanOf(x).zEnd == End(Last(Tokens(x))) <==> x.args.None?
    ensures SpanOf(x).zEnd <= End(Last(Tokens(x)))
  {
    var ts, front := Tokens(x), Tokens(x.e) + x.middle;
    var names, rest := Names(x.name, x.schema), ArgTokens(x.args);
    assert ts == front + names + rest;
    var at := |front| + |names| - 1;
    assert ts[at] == names[|names| - 1];
    assert SpanOf(x).zEnd == End(ts[at]);
  }

  lemma EndsOf(a: seq<Token>, b: seq<Token>, c: seq<Token>)
    requires a != [] && c != []
    ensures (a + b + c)[0] == a[0] && Last(a + b + c) == Last(c)
    ensures b == [] ==> a + b + c == a + c
    ensures [] + a + (b + c) == a + b + c == a + b + c + []
  {
  }

  lemma Part(ts: seq<Token>, a: seq<Token>, b: seq<Token>, c: seq<Token>)
    requires InText(ts) && ts == a + b + c
    ensures InText(b)
  {
    forall i | 0 <= i < |b|
      ensures b[i] == ts[|a| + i]
    {
    }
  }

  // ---------------------------------------------------------------------------------------------
  // The stack slot, which holds a token before an action and a span after it

  /** The three words of the union, read as a token (z, n) or as an expression with its span
      (pExpr, zStart, zEnd). */
  class Slot {
    var word0: nat
    var word1: nat
    var word2: nat

    function AsToken(): Token
      reads this
    {
      Token(word0, word1)
    }

    function AsSpan(): Span
      reads this
    {
      Span(word1, word2)
    }
  }

  /** spanSet.  The output may share its slot with the start token.  With the end token it may not, for
      writing zStart destroys the length: the result is then right only by coincidence. */
  method SpanSet(out: Slot, start: Slot, end: Slot)
    modifies out
    ensures out.AsSpan().zStart == old(start.AsToken().z)
    ensures out.AsSpan().zEnd == old(End(end.AsToken())) <==>
      out != end || old(start.AsToken().z) == old(end.AsToken().n)
  {
    out.word1 := start.word0;
    out.word2 := end.word0 + end.word1;
  }

  /** spanExpr takes the token by value, so the slot can be overwritten at once. */
  method SpanExpr(out: Slot, t: Token, node: nat)
    modifies out
    ensures out.AsSpan() == Span(t.z, End(t)) && out.word0 == node
  {
    out.word0 := node;
    out.word1 := t.z;
    out.word2 := t.z + t.n;
  }

  /** spanBinaryExpr: the left operand's slot becomes the result. */
  method SpanBinaryExpr(left: Slot, right: Slot, node: nat)
    requires left != right
    modifies left
    ensures left.AsSpan() == Span(old(left.AsSpan().zStart), right.AsSpan().zEnd) && left.word0 == node
  {
    left.word0 := node;
    left.word2 := right.word2;
  }

  /** spanUnaryPostfix. */
  method SpanUnaryPostfix(operand: Slot, post: Slot, node: nat)
    requires operand != post
    modifies operand
    ensures operand.AsSpan() == Span(old(operand.AsSpan().zStart), End(post.AsToken())) && operand.word0 == node
  {
    operand.word0 := node;
    operand.word2 := post.word0 + post.word1;
  }

  /** spanUnaryPrefix: the slot of the operator becomes the result; its position is read before the node is
      written over it. */
  method SpanUnaryPrefix(out: Slot, operand: Slot, pre: Slot, node: nat)
    requires out != operand
    modifies out
    ensures out.AsSpan() == Span(old(pre.AsToken().z), operand.AsSpan().zEnd) && out.word0 == node
  {
    out.word1 := pre.word0;
    out.word0 := node;
    out.word2 := operand.word2;
  }

  /** expr ::= expr in_op nm dbnm paren_exprlist: the schema token has a null position when absent, which is
      modelled by 0, so names do not start at 0. */
  method SpanInTable(left: Slot, name: Slot, schema: Slot, node: nat)
    requires left != name && left != schema
    modifies left
    ensures left.AsSpan() == Span(old(left.AsSpan().zStart),
      if schema.AsToken().z != 0 then End(schema.AsToken()) else End(name.AsToken()))
    ensures left.word0 == node
  {
    left.word0 := node;
    left.word2 := if schema.word0 != 0 then schema.word0 + schema.word1 else name.word0 + name.word1;
  }

  // ---------------------------------------------------------------------------------------------
  // The actions run bottom up on the slots of the stack

  /** The name of a schema does not start at the null position. */
  predicate Placed(x: Expr) {
    match x
    case Infix(l, _, r) => Placed(l) && Placed(r)
    case Postfix(e, _, _) => Placed(e)
    case Prefix(_, e) => Placed(e)
    case InTable(e, _, _, schema, _) => Placed(e) && (schema.Some? ==> schema.value.1.z != 0)
    case _ => true
  }

  function Larger(a: nat, b: nat): nat {
    if a < b then b else a
  }

  /** How many stack entries the expression may take, one for each token between its parts. */
  function Room(x: Expr): (n: nat)
    ensures 0 < n
  {
    match x
    case Single(_, _) => 1
    case Enclosed(_, inner, _, _) => |inner| + 2
    case Infix(l, middle, r) => Larger(Room(l), 1 + |middle| + Room(r))
    case Postfix(e, middle, _) => Larger(Room(e), |middle| + 2)
    case Prefix(_, e) => 1 + Room(e)
    case InTable(e, middle, _, _, _) => Larger(Room(e), |middle| + 3)
  }

  ghost predicate Separate(stack: seq<Slot>) {
    forall i, j | 0 <= i < j < |stack| :: stack[i] != stack[j]
  }

  /** Shifting a token. */
  method Put(slot: Slot, t: Token)
    modifies slot
    ensures slot.AsToken() == t
  {
    slot.word0, slot.word1 := t.z, t.n;
  }

  /** The span of one token, or from one token to another, written over the slot of the first. */
  method SetFrom(first: Slot, last: Slot, via: Via)
    requires via == InPlace ==> first != last
    modifies first
    ensures first.AsSpan() == Span(old(first.AsToken().z), old(End(last.AsToken())))
  {
    if via == InPlace {
      SpanSet(first, first, last);
    } else {
      var lhs := new Slot;
      SpanSet(lhs, first, last);
      first.word0, first.word1, first.word2 := lhs.word0, lhs.word1, lhs.word2;
    }
  }

  /** Shift the tokens of x from entry "at" upwards and run the actions as the parts are complete.  Every rule
      leaves its result in the entry of its first symbol, and nothing below that entry is written.  The span is
      SpanOf(x), so it is right but for arguments on the right of IN. */
  method Reduce(stack: seq<Slot>, at: nat, x: Expr)
    requires Separate(stack) && at + Room(x) <= |stack| && Placed(x)
    modifies stack[at..]
    ensures stack[at].AsSpan() == SpanOf(x)
    ensures InText(Tokens(x)) ==>
      && stack[at].AsSpan().zStart == Tokens(x)[0].z
      && (stack[at].AsSpan().zEnd == End(Last(Tokens(x))) <==> !EndsInArguments(x))
    decreases x
  {
    hide InText, Tokens, EndsInArguments;
    var node: nat := *;
    match x {
      case Single(t, via) =>
        Put(stack[at], t);
        if via == InPlace {
          SpanExpr(stack[at], t, node);
        } else {
          SetFrom(stack[at], stack[at], via);
        }
      case Enclosed(a, inner, b, via) =>
        Put(stack[at], a);
        Put(stack[at + 1 + |inner|], b);
        SetFrom(stack[at], stack[at + 1 + |inner|], via);
      case Infix(l, middle, r) =>
        Reduce(stack, at, l);
        Reduce(stack, at + 1 + |middle|, r);
        SpanBinaryExpr(stack[at], stack[at + 1 + |middle|], node);
      case Postfix(e, middle, last) =>
        Reduce(stack, at, e);
        Put(stack[at + 1 + |middle|], last);
        SpanUnaryPostfix(stack[at], stack[at + 1 + |middle|], node);
      case Prefix(op, e) =>
        Put(stack[at], op);
        Reduce(stack, at + 1, e);
        SpanUnaryPrefix(stack[at], stack[at + 1], stack[at], node);
      case InTable(e, middle, name, schema, args) =>
        Reduce(stack, at, e);
        Put(stack[at + 1 + |middle|], name);
        Put(stack[at + 2 + |middle|], if schema.Some? then schema.value.1 else Token(0, 0));
        SpanInTable(stack[at], stack[at + 1 + |middle|], stack[at + 2 + |middle|], node);
    }
    if InText(Tokens(x)) {
      SpanExact(x);
    }
  }

  /** "e IN t(a)": the span stops before the arguments. */
  lemma ArgumentsAreCut() returns (x: Expr)
    ensures InText(Tokens(x)) && Placed(x) && EndsInArguments(x)
    ensures Tokens(x) == [Token(1, 1), Token(3, 2), Token(6, 1), Token(7, 1), Token(8, 1), Token(9, 1)]
    ensures SpanOf(x) == Span(1, 7) && End(Last(Tokens(x))) == 10
  {
    x := InTable(Single(Token(1, 1), InPlace), [Token(3, 2)], Token(6, 1), None,
      Some(Args(Token(7, 1), [Token(8, 1)], Token(9, 1))));
  }
}
