/** The parser object of parse.c: an array of entries, overwritten in place, and the index of its top. */
module LemonParser {
  import opened LemonTables
  import opened LemonGrammar
  import opened LemonMachine
  import opened LemonTermination
  import opened LemonRuns
  import opened LemonOwnership

  class Parser {
    const t: Tables
    ghost const cert: Certificate
    const yystack: array<Entry>
    var yytos: int
    ghost var log: Log  // the actions, destructor calls and messages so far

    /** The index is within the stack; nothing yet about the contents. */
    ghost predicate InBounds()
      reads this
    {
      Ready(t, cert) && yystack.Length == t.depth && 0 <= yytos < t.depth
    }

    ghost function Contents(): Stack
      reads this, yystack
      requires 0 <= yytos < yystack.Length
    {
      yystack[..yytos + 1]
    }

    ghost predicate Valid()
      reads this, yystack
    {
      InBounds() && StackOk(t, cert, Contents())
    }

    /** sqlite3ParserAlloc. */
    constructor (t: Tables, ghost cert: Certificate)
      requires Ready(t, cert)
      ensures Valid() && fresh(yystack) && this.t == t && this.cert == cert
      ensures Contents() == [BASE] && log == []
    {
      this.t := t;
      this.cert := cert;
      yystack := new Entry[t.depth](_ => BASE);
      yytos := 0;
      log := [];
    }

    /** yy_pop_parser_stack.  Never called on the base entry. */
    method Pop()
      requires InBounds() && 0 < yytos
      modifies this`yytos, this`log
      ensures InBounds() && yytos == old(yytos) - 1
      ensures log == old(log) + [Destroyed(yystack[old(yytos)].minor)]
    {
      var top := yystack[yytos];
      yytos := yytos - 1;
      log := log + [Destroyed(top.minor)];
    }

    method PopAll()
      requires InBounds()
      modifies this`yytos, this`log
      ensures InBounds() && yytos == 0
      ensures log == old(log) + Unwound(old(Contents()))
    {
      while 0 < yytos
        invariant InBounds() && yytos <= old(yytos)
        invariant log + Unwound(Contents()) == old(log) + Unwound(old(Contents()))
      {
        ghost var k := Contents();
        Pop();
        assert k[..|k| - 1] == Contents();
      }
    }

    /** yyStackOverflow: one entry is given up first, then the rest is popped. */
    method StackOverflow()
      requires Ready(t, cert) && yystack.Length == t.depth && 1 <= yytos <= t.depth
      modifies this`yytos, this`log
      ensures InBounds() && yytos == 0
      ensures log == old(log) + Unwound(yystack[..old(yytos)]) + [Overflowed]
    {
      yytos := yytos - 1;
      PopAll();
      log := log + [Overflowed];
    }

    /** yy_shift. */
    method Shift(action: nat, tok: Token)
      requires Valid() && Fits(t, Contents(), Turn.Shift(action))
      modifies this`yytos, this`log, yystack
      ensures InBounds()
      ensures var o := ShiftStep(t, old(Contents()), action, tok);
        Contents() == o.stack && log == old(log) + o.events
    {
      ghost var k := Contents();
      yytos := yytos + 1;
      if t.depth <= yytos {
        assert yystack[..yytos] == k;
        StackOverflow();
        assert Contents() == k[..1];
        return;
      }
      var newState := action;
      if t.MaxShift() < newState {
        newState := newState + (t.MinReduce() - t.minShiftReduce);
      }
      yystack[yytos] := Entry(newState, tok.code, Leaf(tok));
      log := log + [Shifted(tok)];
      assert Contents() == k + [Entry(newState, tok.code, Leaf(tok))];
    }

    /** yy_reduce.  The action writes its result through the stack pointer, at the place of the first
        entry it pops, or just above the top when the rule is empty. */
    method Reduce(rule: nat)
      requires Valid() && Fits(t, Contents(), Turn.Reduce(rule))
      modifies this`yytos, this`log, yystack
      ensures InBounds()
      ensures CanReduce(t, old(Contents()), rule)
      ensures var o := ReduceStep(t, old(Contents()), rule);
        Contents() == o.stack && log == old(log) + o.events
    {
      hide Certified, Acyclic, StackOk, KidsMatch, ValuesOk, Fits, Unwound, Goto;
      FitsReduce(t, Contents(), rule);
      ghost var k := Contents();
      var size := |t.rules[rule].rhs|;
      if size == 0 {
        if t.depth - 1 <= yytos {
          log := log + [Dropped(yystack[yytos].minor)];
          assert yystack[..yytos] == k[..|k| - 1];
          StackOverflow();
          assert Contents() == k[..1];
          return;
        }
      }
      assert !t.rules[rule].optimizedOut;
      var msp := yytos;
      var args := Minors(yystack[msp + 1 - size..msp + 1]);
      assert args == Minors(k[|k| - size..]);
      yystack[msp + 1 - size] := yystack[msp + 1 - size].(minor := Node(rule, args));
      assert yystack[..msp + 1 - size] == k[..|k| - size];
      var goto := t.rules[rule].lhs;
      var act := FindReduceAction(t, yystack[msp - size].stateno, goto);
      if act <= t.MaxShiftReduce() {
        if t.MaxShift() < act {
          act := act + (t.MinReduce() - t.minShiftReduce);
        }
        msp := msp - (size - 1);
        yytos := msp;
        yystack[msp] := Entry(act, goto, yystack[msp].minor);
        log := log + [Reduced(rule, args)];
        assert Contents() == k[..|k| - size] + [Entry(act, goto, Node(rule, args))];
      } else {
        yytos := yytos - size;
        assert yytos == 0 by { FitsAccept(t, k, rule); }
        log := log + [Accepted(rule, args)];
      }
    }

    /** sqlite3Parser: feed one token. */
    method Parse(tok: Token)
      requires Valid() && tok.code < t.terminals
      modifies this`yytos, this`log, yystack
      ensures Valid()
      ensures var c := Call(t, cert, old(Contents()), tok);
        Contents() == c.stack && log == old(log) + c.events
    {
      hide Certified, Acyclic, StackOk, Fits, Decide, Perform, Room, Step;
      ghost var c := Call(t, cert, Contents(), tok);
      ghost var so: Log := [];
      var going := true;
      while going
        invariant InBounds() && StackOk(t, cert, Contents()) && log == old(log) + so
        invariant going ==>
          var rest := Call(t, cert, Contents(), tok); c.stack == rest.stack && c.events == so + rest.events
        invariant !going ==> c.stack == Contents() && c.events == so
        decreases going, if going then Room(t, Contents()) else 0
      {
        ghost var k := Contents();
        StepProgress(t, cert, k, tok);
        ghost var o := Step(t, cert, k, tok);
        going := OneTurn(tok);
        so := so + o.events;
      }
    }

    /** One turn of the loop; the result says whether to go round again. */
    method OneTurn(tok: Token) returns (again: bool)
      requires Valid() && tok.code < t.terminals
      modifies this`yytos, this`log, yystack
      ensures InBounds()
      ensures var o := Step(t, cert, old(Contents()), tok);
        Contents() == o.stack && log == old(log) + o.events && again == !o.done
    {
      hide Certified, Acyclic, StackOk;
      ghost var turn := Decide(t, cert, Contents(), tok.code);
      DoneMeans(t, Contents(), turn, tok);
      var act := Lookup(tok.code);
      var used := false;
      if act <= t.MaxShiftReduce() {
        Shift(act, tok);
        used := true;
      } else if act <= t.MaxReduce() {
        Reduce(act - t.MinReduce());
      } else {
        log := log + [SyntaxError(tok)];
        used := true;
      }
      again := !used && 0 < yytos;
    }

    method Lookup(x: Symbol) returns (act: nat)
      requires Valid() && x < t.terminals
      ensures TurnFor(t, act) == Decide(t, cert, Contents(), x)
      ensures t.MinReduce() <= act || act <= t.MaxShiftReduce()
    {
      ActionPossible(t, cert, Contents(), x);
      ghost var rounds;
      act, rounds := FindShiftAction(t, yystack[yytos].stateno, x);
    }

    /** sqlite3ParserFree: every live value is destroyed. */
    method Free()
      requires Valid()
      modifies this`yytos, this`log
      ensures InBounds() && yytos == 0
      ensures log == old(log) + Unwound(old(Contents()))
    {
      PopAll();
    }
  }

  /** A parser fed a word call by call holds exactly the stack and log of the run. */
  method ParseAll(t: Tables, ghost cert: Certificate, toks: seq<Token>) returns (p: Parser)
    requires Ready(t, cert) && Tokens(t, toks)
    ensures fresh(p) && fresh(p.yystack) && p.Valid() && p.t == t && p.cert == cert
    ensures StackOk(t, cert, [BASE])
    ensures var c := Run(t, cert, [BASE], toks); p.Contents() == c.stack && p.log == c.events
  {
    hide Certified, Acyclic, StackOk, Call;
    p := new Parser(t, cert);
    assert toks[..|toks|] == toks;
    for i := 0 to |toks|
      invariant p.Valid() && p.t == t && p.cert == cert && fresh(p) && fresh(p.yystack)
      invariant var c := Run(t, cert, [BASE], toks[..i]); p.Contents() == c.stack && p.log == c.events
    {
      p.Parse(toks[i]);
      assert toks[..i + 1][..i] == toks[..i];
    }
  }

  lemma FitsAccept(t: Tables, k: Stack, r: nat)
    requires Fits(t, k, Turn.Reduce(r)) && CanReduce(t, k, r) && Accepting(t, k, r)
    ensures |k| == 1 + |t.rules[r].rhs|
  {
  }

  /** A parser fed any word and then freed: for every value, the uses by actions and the destructor calls,
      with the entries dropped by an overflow inside a reduce, add up to the times it was put on the stack. */
  method ParseAndFree(t: Tables, ghost cert: Certificate, toks: seq<Token>) returns (p: Parser)
    requires Ready(t, cert) && Tokens(t, toks)
    ensures p.yytos == 0
    ensures forall v :: Times(Made, v, p.log) == Times(Consumed, v, p.log) + Times(Killed, v, p.log) + Times(Lost, v, p.log)
  {
    p := ParseAll(t, cert, toks);
    p.Free();
    forall v
      ensures Times(Made, v, p.log) == Times(Consumed, v, p.log) + Times(Killed, v, p.log) + Times(Lost, v, p.log)
    {
      var c := Run(t, cert, [BASE], toks);
      FreeSettles(t, cert, [BASE], toks, v);
      UnwoundBalances(v, c.stack);
      TimesAppend(Lost, v, c.events, Unwound(c.stack));
    }
  }
}
