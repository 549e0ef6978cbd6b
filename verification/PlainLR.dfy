/** A textbook LR machine: no numbering of actions, no stack limit, and after a shift-reduce a real state
    whose only action is that reduce.  The engine runs in step with it until it overflows. */
module PlainLR {
  import opened Options
  import opened LemonTables
  import opened LemonGrammar
  import opened LemonMachine
  import opened LemonTermination
  import opened LemonRuns

  /** A numbered state, or the state reached by shifting the last symbol of a rule. */
  datatype State = Numbered(n: nat) | Complete(rule: nat)

  datatype Action = Go(next: State) | By(rule: nat) | Accept | Reject

  datatype Item = Item(state: State, sym: Symbol, value: Tree)

  datatype Plain = Plain(stack: seq<Item>, events: Log, done: bool)

  function Meaning(t: Tables, a: nat): Action {
    if a <= t.MaxShift() then Go(Numbered(a))
    else if t.minShiftReduce <= a <= t.MaxShiftReduce() then Go(Complete(a - t.minShiftReduce))
    else if t.MinReduce() <= a <= t.MaxReduce() then By(a - t.MinReduce())
    else if a == t.AcceptAction() then Accept
    else Reject
  }

  function ActionOn(t: Tables, s: State, x: Symbol): Action {
    match s
    case Complete(r) => By(r)
    case Numbered(n) =>
      if n < |t.shiftOfst| && |t.lookahead| == |t.action| && |t.defaults| == |t.shiftOfst| then
        Meaning(t, ShiftAction(t, n, x))
      else Reject
  }

  function GotoOn(t: Tables, s: State, x: Symbol): Action {
    if s.Numbered? && |t.lookahead| == |t.action| && Goto(t, s.n, x).Some? then Meaning(t, Goto(t, s.n, x).value)
    else Reject
  }

  function Values(p: seq<Item>): seq<Tree> {
    seq(|p|, i requires 0 <= i < |p| => p[i].value)
  }

  function Turnover(t: Tables, p: seq<Item>, tok: Token): Plain {
    if p == [] then Plain(p, [], true)
    else
      match ActionOn(t, p[|p| - 1].state, tok.code)
      case Go(next) => Plain(p + [Item(next, tok.code, Leaf(tok))], [Shifted(tok)], true)
      case By(r) =>
        if r < |t.rules| && |t.rules[r].rhs| < |p| then
          var m := |p| - |t.rules[r].rhs|;
          var args := Values(p[m..]);
          match GotoOn(t, p[m - 1].state, t.rules[r].lhs)
          case Go(next) => Plain(p[..m] + [Item(next, t.rules[r].lhs, Node(r, args))], [Reduced(r, args)], false)
          case _ => Plain(p[..m], [Accepted(r, args)], true)
        else Plain(p, [], true)
      case _ => Plain(p, [SyntaxError(tok)], true)
  }

  datatype Worked = Worked(stack: seq<Item>, events: Log)

  /** Work on one token until it is used, if that takes at most "fuel" turns. */
  function Consume(t: Tables, p: seq<Item>, tok: Token, fuel: nat): Option<Worked>
    decreases fuel
  {
    if fuel == 0 then None
    else
      var o := Turnover(t, p, tok);
      if o.done then Some(Worked(o.stack, o.events))
      else
        match Consume(t, o.stack, tok, fuel - 1)
        case None => None
        case Some(rest) => Some(Worked(rest.stack, o.events + rest.events))
  }

  function ConsumeAll(t: Tables, p: seq<Item>, toks: seq<Token>, fuel: nat): Option<Worked>
    decreases |toks|
  {
    if toks == [] then Some(Worked(p, []))
    else
      var n := |toks| - 1;
      match ConsumeAll(t, p, toks[..n], fuel)
      case None => None
      case Some(before) =>
        match Consume(t, before.stack, toks[n], fuel)
        case None => None
        case Some(now) => Some(Worked(now.stack, before.events + now.events))
  }

  // ---------------------------------------------------------------------------------------------
  // The engine's stack, read as a stack of the plain machine

  function ReadEntry(t: Tables, e: Entry): Item {
    Item(if e.stateno < t.MinReduce() then Numbered(e.stateno) else Complete(e.stateno - t.MinReduce()),
         e.major, e.minor)
  }

  function Read(t: Tables, k: Stack): seq<Item> {
    seq(|k|, i requires 0 <= i < |k| => ReadEntry(t, k[i]))
  }

  lemma ReadParts(t: Tables, k: Stack, m: nat, e: Entry)
    requires m <= |k|
    ensures Read(t, k)[..m] == Read(t, k[..m]) && Values(Read(t, k)[m..]) == Minors(k[m..])
    ensures Read(t, k + [e]) == Read(t, k) + [ReadEntry(t, e)]
  {
  }

  /** What yy_shift and yy_reduce store for an action reads back as the state the action meant. */
  lemma StoredReads(t: Tables, a: nat, x: Symbol, v: Tree)
    requires t.Shaped() && a <= t.MaxShiftReduce() && (a <= t.MaxShift() || t.minShiftReduce <= a)
    ensures var item := ReadEntry(t, Entry(Stored(t, a), x, v));
      Meaning(t, a) == Go(item.state) && item.sym == x && item.value == v
  {
  }

  predicate Overflows(log: Log) {
    exists i :: 0 <= i < |log| && log[i].Overflowed?
  }

  lemma OverflowsAppend(a: Log, b: Log)
    ensures Overflows(a + b) <==> Overflows(a) || Overflows(b)
  {
    assert forall i | 0 <= i < |a| :: (a + b)[i] == a[i];
    assert forall i | 0 <= i < |b| :: (a + b)[|a| + i] == b[i];
    if Overflows(a + b) {
      var i :| 0 <= i < |a + b| && (a + b)[i].Overflowed?;
      assert if i < |a| then a[i].Overflowed? else b[i - |a|].Overflowed?;
    }
  }

  lemma DecideReads(t: Tables, cert: Certificate, k: Stack, x: Symbol)
    requires Certified(t, cert) && StackOk(t, cert, k) && x < t.terminals
    ensures var turn := Decide(t, cert, k, x);
      ActionOn(t, ReadEntry(t, Top(k)).state, x) ==
        if turn.Shift? then Meaning(t, turn.action) else if turn.Reduce? then By(turn.rule) else Reject
    ensures Decide(t, cert, k, x).Shift? ==>
      var a := Decide(t, cert, k, x).action; a <= t.MaxShiftReduce() && (a <= t.MaxShift() || t.minShiftReduce <= a)
  {
    hide Fits, ReduceReady, Covers, Reducible;
    ActionPossible(t, cert, k, x);
  }

  lemma GotoReads(t: Tables, cert: Certificate, k: Stack, r: nat)
    requires Certified(t, cert) && StackOk(t, cert, k) && ReduceReady(t, k, r)
    requires Top(k).stateno < |cert| || 0 < |t.rules[r].rhs|
    ensures var u := k[|k| - 1 - |t.rules[r].rhs|];
      var a := Goto(t, u.stateno, t.rules[r].lhs).value;
      && GotoOn(t, ReadEntry(t, u).state, t.rules[r].lhs) == Meaning(t, a)
      && (a <= t.MaxShiftReduce() ==> a <= t.MaxShift() || t.minShiftReduce <= a)
      && (t.MaxShiftReduce() < a ==> Meaning(t, a) == Accept)
  {
    var u := k[|k| - 1 - |t.rules[r].rhs|].stateno;
    assert u < |cert|;
    assert GotoOk(t, cert, u, t.rules[r].lhs, Goto(t, u, t.rules[r].lhs).value);
  }

  /** Where the plain machine shifts, with the state that the engine's action means. */
  lemma ShiftAgrees(t: Tables, k: Stack, a: nat, tok: Token)
    requires t.Shaped() && k != [] && |k| < t.depth
    requires a <= t.MaxShiftReduce() && (a <= t.MaxShift() || t.minShiftReduce <= a)
    requires ActionOn(t, ReadEntry(t, Top(k)).state, tok.code) == Meaning(t, a)
    ensures var o := ShiftStep(t, k, a, tok); Turnover(t, Read(t, k), tok) == Plain(Read(t, o.stack), o.events, o.done)
  {
    hide ActionOn, Meaning, ReadEntry, Stored;
    StoredReads(t, a, tok.code, Leaf(tok));
    ReadParts(t, k, |k|, Entry(Stored(t, a), tok.code, Leaf(tok)));
  }

  /** Where it reduces, the goto being what the engine's goto means. */
  lemma ReduceAgrees(t: Tables, k: Stack, r: nat, tok: Token)
    requires CanReduce(t, k, r) && |k| <= t.depth && (t.rules[r].rhs == [] ==> |k| < t.depth)
    requires ActionOn(t, ReadEntry(t, Top(k)).state, tok.code) == By(r)
    requires var u := k[|k| - 1 - |t.rules[r].rhs|];
      var a := Goto(t, u.stateno, t.rules[r].lhs).value;
      && GotoOn(t, ReadEntry(t, u).state, t.rules[r].lhs) == Meaning(t, a)
      && (a <= t.MaxShiftReduce() ==> a <= t.MaxShift() || t.minShiftReduce <= a)
      && (t.MaxShiftReduce() < a ==> Meaning(t, a) == Accept)
    ensures var o := ReduceStep(t, k, r); Turnover(t, Read(t, k), tok) == Plain(Read(t, o.stack), o.events, o.done)
  {
    hide ActionOn, Meaning, ReadEntry, Stored, GotoOn, Goto;
    var m := |k| - |t.rules[r].rhs|;
    var a := Goto(t, k[m - 1].stateno, t.rules[r].lhs).value;
    var v := Node(r, Minors(k[m..]));
    ReadParts(t, k, m, BASE);
    if a <= t.MaxShiftReduce() {
      StoredReads(t, a, t.rules[r].lhs, v);
      ReadParts(t, k[..m], m, Entry(Stored(t, a), t.rules[r].lhs, v));
    }
  }

  /** Turn by turn the two machines do the same. */
  lemma TurnAgrees(t: Tables, cert: Certificate, k: Stack, tok: Token)
    requires Certified(t, cert) && StackOk(t, cert, k) && tok.code < t.terminals
    requires !Overflows(Step(t, cert, k, tok).events)
    ensures var o := Step(t, cert, k, tok);
      Turnover(t, Read(t, k), tok) == Plain(Read(t, o.stack), o.events, o.done)
  {
    hide Certified, StackOk, Decide, Fits, Overflows, Goto, GotoOn, ActionOn, Meaning, ReadEntry, ShiftStep, ReduceStep;
    var turn := Decide(t, cert, k, tok.code);
    DecideReads(t, cert, k, tok.code);
    ShapeKnown(t, cert, k);
    NoOverflow(t, k, turn, tok);
    match turn
    case Shift(a) =>
      ShiftAgrees(t, k, a, tok);
    case Reduce(r) =>
      hide Turnover;
      FitsReduce(t, k, r);
      GotoReads(t, cert, k, r);
      ReduceAgrees(t, k, r, tok);
    case Fail =>
  }

  lemma ShapeKnown(t: Tables, cert: Certificate, k: Stack)
    requires Certified(t, cert) && StackOk(t, cert, k)
    ensures t.Shaped() && k != [] && |cert| == |t.shiftOfst| && |k| <= t.depth
  {
  }

  lemma NoOverflow(t: Tables, k: Stack, turn: Turn, tok: Token)
    requires Fits(t, k, turn) && !Overflows(Perform(t, k, turn, tok).events)
    ensures turn.Shift? ==> |k| < t.depth
    ensures turn.Reduce? ==> turn.rule < |t.rules| && (t.rules[turn.rule].rhs == [] ==> |k| < t.depth)
  {
    var events := Perform(t, k, turn, tok).events;
    assert !events[|events| - 1].Overflowed?;
  }

  /** One call: the plain machine uses the token within as many turns as the engine has room for. */
  lemma {:induction false} CallAgrees(t: Tables, cert: Certificate, k: Stack, tok: Token, fuel: nat)
    requires Ready(t, cert) && StackOk(t, cert, k) && tok.code < t.terminals
    requires !Overflows(Call(t, cert, k, tok).events) && Room(t, k) < fuel
    ensures var c := Call(t, cert, k, tok);
      Consume(t, Read(t, k), tok, fuel) == Some(Worked(Read(t, c.stack), c.events))
    decreases Room(t, k)
  {
    hide Certified, Acyclic, StackOk, Decide, Perform, Fits, Room, Turnover, Read, Overflows;
    StepProgress(t, cert, k, tok);
    var o := Step(t, cert, k, tok);
    if o.done {
      TurnAgrees(t, cert, k, tok);
    } else {
      var rest := Call(t, cert, o.stack, tok);
      OverflowsAppend(o.events, rest.events);
      TurnAgrees(t, cert, k, tok);
      CallAgrees(t, cert, o.stack, tok, fuel - 1);
    }
  }

  lemma {:induction false} MoreFuel(t: Tables, p: seq<Item>, tok: Token, fuel: nat, more: nat)
    requires Consume(t, p, tok, fuel).Some? && fuel <= more
    ensures Consume(t, p, tok, more) == Consume(t, p, tok, fuel)
    decreases fuel
  {
    var o := Turnover(t, p, tok);
    if !o.done {
      MoreFuel(t, o.stack, tok, fuel - 1, more - 1);
    }
  }

  /** Whole runs: as long as the engine does not overflow, the plain machine makes the same shifts,
      reductions, accepts and errors in the same order, and ends on the same stack. */
  lemma {:induction false} RunAgrees(t: Tables, cert: Certificate, k: Stack, toks: seq<Token>) returns (enough: nat)
    requires Ready(t, cert) && StackOk(t, cert, k) && Tokens(t, toks)
    requires !Overflows(Run(t, cert, k, toks).events)
    ensures var c := Run(t, cert, k, toks);
      forall fuel: nat | enough <= fuel ::
        ConsumeAll(t, Read(t, k), toks, fuel) == Some(Worked(Read(t, c.stack), c.events))
    decreases |toks|
  {
    hide Certified, Acyclic, StackOk, Call, Room, Read, Overflows, Consume;
    if toks == [] {
      enough := 0;
    } else {
      var n := |toks| - 1;
      var before := Run(t, cert, k, toks[..n]);
      var now := Call(t, cert, before.stack, toks[n]);
      OverflowsAppend(before.events, now.events);
      enough := RunAgrees(t, cert, k, toks[..n]);
      ShapeKnown(t, cert, before.stack);
      var room := Room(t, before.stack);
      if enough <= room {
        enough := room + 1;
      }
      forall fuel: nat | enough <= fuel
        ensures ConsumeAll(t, Read(t, k), toks, fuel) == Some(Worked(Read(t, now.stack), before.events + now.events))
      {
        CallAgrees(t, cert, before.stack, toks[n], fuel);
      }
    }
  }
}
