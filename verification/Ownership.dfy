/** Ownership of semantic values: what is put on the stack is consumed by one action or destroyed once,
    except for the one entry that an overflow inside a reduce drops. */
module LemonOwnership {
  import opened LemonTables
  import opened LemonGrammar
  import opened LemonMachine
  import opened LemonTermination
  import opened LemonRuns

  /** Values an event puts on the stack. */
  function Made(e: Event): multiset<Tree> {
    match e
    case Shifted(tok) => multiset{Leaf(tok)}
    case Reduced(r, args) => multiset{Node(r, args)}
    case _ => multiset{}
  }

  /** Values handed to a reduce action. */
  function Consumed(e: Event): multiset<Tree> {
    match e
    case Reduced(_, args) => multiset(args)
    case Accepted(_, args) => multiset(args)
    case _ => multiset{}
  }

  function Killed(e: Event): multiset<Tree> {
    match e
    case Destroyed(v) => multiset{v}
    case _ => multiset{}
  }

  function Lost(e: Event): multiset<Tree> {
    match e
    case Dropped(v) => multiset{v}
    case _ => multiset{}
  }

  /** How often value v occurs in what f extracts from the events of a log. */
  function Times(f: Event -> multiset<Tree>, v: Tree, log: Log): nat {
    if log == [] then 0 else Times(f, v, log[..|log| - 1]) + f(log[|log| - 1])[v]
  }

  lemma {:induction false} TimesAppend(f: Event -> multiset<Tree>, v: Tree, a: Log, b: Log)
    ensures Times(f, v, a + b) == Times(f, v, a) + Times(f, v, b)
    decreases |b|
  {
    if b == [] {
      assert a + b == a;
    } else {
      assert (a + b)[..|a + b| - 1] == a + b[..|b| - 1];
      TimesAppend(f, v, a, b[..|b| - 1]);
    }
  }

  function Spent(v: Tree, log: Log): nat {
    Times(Consumed, v, log) + Times(Killed, v, log) + Times(Lost, v, log)
  }

  /** How many live stack entries hold v. */
  function Live(v: Tree, k: Stack): nat
    requires k != []
  {
    multiset(Forest(k))[v]
  }

  /** The books for value v balance between two stacks and the events in between. */
  ghost predicate Balanced(v: Tree, before: Stack, events: Log, after: Stack)
    requires before != [] && after != []
  {
    Live(v, before) + Times(Made, v, events) == Live(v, after) + Spent(v, events)
  }

  lemma BalancedChain(v: Tree, a: Stack, e: Log, b: Stack, f: Log, c: Stack)
    requires a != [] && b != [] && c != [] && Balanced(v, a, e, b) && Balanced(v, b, f, c)
    ensures Balanced(v, a, e + f, c)
  {
    hide Live, Times;
    TimesAppend(Made, v, e, f);
    TimesAppend(Consumed, v, e, f);
    TimesAppend(Killed, v, e, f);
    TimesAppend(Lost, v, e, f);
  }

  lemma OneEvent(v: Tree, e: Event)
    ensures Times(Made, v, [e]) == Made(e)[v] && Times(Lost, v, [e]) == Lost(e)[v]
    ensures Spent(v, [e]) == Consumed(e)[v] + Killed(e)[v] + Lost(e)[v]
  {
    TimesOne(Made, v, e);
    TimesOne(Consumed, v, e);
    TimesOne(Killed, v, e);
    TimesOne(Lost, v, e);
  }

  lemma TimesOne(f: Event -> multiset<Tree>, v: Tree, e: Event)
    ensures Times(f, v, [e]) == f(e)[v]
  {
    assert [e][..0] == [];
    assert Times(f, v, [e]) == Times(f, v, []) + f(e)[v];
  }

  lemma LivePush(v: Tree, k: Stack, e: Entry)
    requires k != []
    ensures Live(v, k + [e]) == Live(v, k) + multiset{e.minor}[v]
  {
    assert Forest(k + [e]) == Forest(k) + [e.minor];
  }

  lemma LiveSplit(v: Tree, k: Stack, m: nat)
    requires 1 <= m <= |k|
    ensures Live(v, k) == Live(v, k[..m]) + multiset(Minors(k[m..]))[v]
  {
    assert Forest(k) == Forest(k[..m]) + Minors(k[m..]);
  }

  lemma LiveBase(v: Tree, k: Stack)
    requires |k| == 1
    ensures Live(v, k) == 0
  {
    assert Forest(k) == [];
  }

  lemma {:induction false} UnwoundBalances(v: Tree, k: Stack)
    requires k != []
    ensures Balanced(v, k, Unwound(k), k[..1]) && Times(Lost, v, Unwound(k)) == 0
    decreases |k|
  {
    LiveBase(v, k[..1]);
    if 1 < |k| {
      var rest := k[..|k| - 1];
      var e := Destroyed(Top(k).minor);
      LivePush(v, rest, Top(k));
      assert k == rest + [Top(k)];
      OneEvent(v, e);
      assert Balanced(v, k, [e], rest);
      UnwoundBalances(v, rest);
      assert rest[..1] == k[..1];
      BalancedChain(v, k, [e], rest, Unwound(rest), k[..1]);
      TimesAppend(Lost, v, [e], Unwound(rest));
    } else {
      assert k == k[..1];
    }
  }

  /** The one situation in which an entry leaves the stack without its destructor. */
  predicate LosesTop(t: Tables, k: Stack, turn: Turn) {
    turn.Reduce? && turn.rule < |t.rules| && t.rules[turn.rule].rhs == [] && |k| == t.depth
  }

  lemma OverflowBalances(v: Tree, k: Stack)
    requires k != []
    ensures Balanced(v, k, Unwound(k) + [Overflowed], k[..1])
    ensures Times(Lost, v, Unwound(k) + [Overflowed]) == 0
  {
    UnwoundBalances(v, k);
    OneEvent(v, Overflowed);
    BalancedChain(v, k, Unwound(k), k[..1], [Overflowed], k[..1]);
    TimesAppend(Lost, v, Unwound(k), [Overflowed]);
  }

  lemma ReduceOverflowBalances(v: Tree, k: Stack, events: Log)
    requires 1 < |k|
    requires events == [Dropped(Top(k).minor)] + Unwound(k[..|k| - 1]) + [Overflowed]
    ensures Balanced(v, k, events, k[..1])
    ensures Times(Lost, v, events) == multiset{Top(k).minor}[v]
  {
    hide Times, Live, Unwound;
    var rest := k[..|k| - 1];
    var e := Dropped(Top(k).minor);
    OneEvent(v, e);
    LivePush(v, rest, Top(k));
    assert k == rest + [Top(k)];
    OverflowBalances(v, rest);
    assert rest[..1] == k[..1];
    BalancedChain(v, k, [e], rest, Unwound(rest) + [Overflowed], k[..1]);
    TimesAppend(Lost, v, [e], Unwound(rest) + [Overflowed]);
    assert events == [e] + (Unwound(rest) + [Overflowed]);
  }

  /** One turn balances, and loses a value exactly when an empty rule is reduced on a full stack. */
  lemma TurnBalances(t: Tables, k: Stack, turn: Turn, tok: Token, v: Tree)
    requires Fits(t, k, turn)
    ensures var o := Perform(t, k, turn, tok);
      && o.stack != [] && Balanced(v, k, o.events, o.stack)
      && Times(Lost, v, o.events) == if LosesTop(t, k, turn) then multiset{Top(k).minor}[v] else 0
  {
    hide Fits, ReduceStep, Times, Live;
    var o := Perform(t, k, turn, tok);
    assert k != [] by { FitsNonEmpty(t, k, turn); }
    match turn
    case Shift(a) =>
      if t.depth <= |k| {
        OverflowBalances(v, k);
      } else {
        LivePush(v, k, Top(o.stack));
        OneEvent(v, Shifted(tok));
      }
    case Reduce(r) =>
      ReduceBalances(t, k, r, tok, v);
    case Fail =>
      OneEvent(v, SyntaxError(tok));
  }

  lemma FitsNonEmpty(t: Tables, k: Stack, turn: Turn)
    requires Fits(t, k, turn)
    ensures k != []
  {
  }

  lemma ReduceBalances(t: Tables, k: Stack, r: nat, tok: Token, v: Tree)
    requires Fits(t, k, Reduce(r))
    ensures var o := Perform(t, k, Reduce(r), tok);
      && o.stack != [] && Balanced(v, k, o.events, o.stack)
      && Times(Lost, v, o.events) == if LosesTop(t, k, Reduce(r)) then multiset{Top(k).minor}[v] else 0
  {
    hide Fits, Perform, Times, Live, Balanced, Built, Root, Unwound;
    ReduceCases(t, k, r, tok);
    var o := Perform(t, k, Reduce(r), tok);
    var m := |k| - |t.rules[r].rhs|;
    if m == |k| == t.depth {
      ReduceOverflowBalances(v, k, o.events);
    } else if o.done {
      ReduceToAccept(t, k, r, tok);
      AcceptedBalances(v, k, r);
    } else {
      ReducedBalances(v, k, m, r, o.stack);
    }
  }

  lemma AcceptedBalances(v: Tree, k: Stack, r: nat)
    requires k != []
    ensures var events := [Accepted(r, Minors(k[1..]))];
      Balanced(v, k, events, k[..1]) && Times(Lost, v, events) == 0
  {
    hide Times, Live;
    LiveSplit(v, k, 1);
    LiveBase(v, k[..1]);
    OneEvent(v, Accepted(r, Minors(k[1..])));
  }

  lemma ReducedBalances(v: Tree, k: Stack, m: nat, r: nat, k': Stack)
    requires 1 <= m <= |k| && |k'| == m + 1 && k'[..m] == k[..m] && k'[m].minor == Node(r, Minors(k[m..]))
    ensures var events := [Reduced(r, Minors(k[m..]))];
      Balanced(v, k, events, k') && Times(Lost, v, events) == 0
  {
    hide Times, Live;
    LiveSplit(v, k, m);
    LivePush(v, k[..m], k'[m]);
    assert k' == k[..m] + [k'[m]];
    OneEvent(v, Reduced(r, Minors(k[m..])));
  }

  lemma {:induction false} CallBalances(t: Tables, cert: Certificate, k: Stack, tok: Token, v: Tree)
    requires Ready(t, cert) && StackOk(t, cert, k) && tok.code < t.terminals
    ensures var c := Call(t, cert, k, tok); Balanced(v, k, c.events, c.stack)
    decreases Room(t, k)
  {
    hide Certified, Acyclic, Decide, Perform, Fits, Balanced;
    StepProgress(t, cert, k, tok);
    TurnBalances(t, k, Decide(t, cert, k, tok.code), tok, v);
    var o := Step(t, cert, k, tok);
    if !o.done {
      CallBalances(t, cert, o.stack, tok, v);
      var rest := Call(t, cert, o.stack, tok);
      BalancedChain(v, k, o.events, o.stack, rest.events, rest.stack);
    }
  }

  /** Over every run and for every value: made = still live + consumed by an action + destroyed + dropped. */
  lemma {:induction false} RunBalances(t: Tables, cert: Certificate, k: Stack, toks: seq<Token>, v: Tree)
    requires Ready(t, cert) && StackOk(t, cert, k) && Tokens(t, toks)
    ensures var c := Run(t, cert, k, toks); Balanced(v, k, c.events, c.stack)
    decreases |toks|
  {
    hide Certified, Acyclic, Call;
    if toks != [] {
      var n := |toks| - 1;
      RunBalances(t, cert, k, toks[..n], v);
      var before := Run(t, cert, k, toks[..n]);
      CallBalances(t, cert, before.stack, toks[n], v);
      var now := Call(t, cert, before.stack, toks[n]);
      BalancedChain(v, k, before.events, before.stack, now.events, now.stack);
    }
  }

  /** A parser that is run on any tokens and then freed has used or destroyed each value exactly as often
      as it was put on the stack, but for the entries that an overflow inside a reduce dropped. */
  lemma FreeSettles(t: Tables, cert: Certificate, k: Stack, toks: seq<Token>, v: Tree)
    requires Ready(t, cert) && |k| == 1 && StackOk(t, cert, k) && Tokens(t, toks)
    ensures var c := Run(t, cert, k, toks);
      var log := c.events + Unwound(c.stack);
      Times(Made, v, log) == Times(Consumed, v, log) + Times(Killed, v, log) + Times(Lost, v, c.events)
  {
    hide Certified, Acyclic, Run;
    var c := Run(t, cert, k, toks);
    RunBalances(t, cert, k, toks, v);
    UnwoundBalances(v, c.stack);
    BalancedChain(v, k, c.events, c.stack, Unwound(c.stack), c.stack[..1]);
    TimesAppend(Lost, v, c.events, Unwound(c.stack));
    LiveBase(v, k);
    LiveBase(v, c.stack[..1]);
  }

  // ---------------------------------------------------------------------------------------------
  // When a run loses values

  predicate IsDrop(e: Event) {
    e.Dropped?
  }

  predicate IsOverflow(e: Event) {
    e.Overflowed?
  }

  /** How many events of the log are of kind p. */
  function Tally(p: Event -> bool, log: Log): nat {
    if log == [] then 0 else Tally(p, log[..|log| - 1]) + if p(log[|log| - 1]) then 1 else 0
  }

  lemma {:induction false} TallyAppend(p: Event -> bool, a: Log, b: Log)
    ensures Tally(p, a + b) == Tally(p, a) + Tally(p, b)
    decreases |b|
  {
    if b == [] {
      assert a + b == a;
    } else {
      assert (a + b)[..|a + b| - 1] == a + b[..|b| - 1];
      TallyAppend(p, a, b[..|b| - 1]);
    }
  }

  lemma TallyOne(p: Event -> bool, e: Event)
    ensures Tally(p, [e]) == if p(e) then 1 else 0
  {
    assert [e][..0] == [];
    assert Tally(p, [e]) == Tally(p, []) + if p(e) then 1 else 0;
  }

  lemma {:induction false} UnwoundTally(p: Event -> bool, k: Stack)
    requires k != [] && forall v :: !p(Destroyed(v))
    ensures Tally(p, Unwound(k)) == 0
    decreases |k|
  {
    if 1 < |k| {
      UnwoundTally(p, k[..|k| - 1]);
      TallyOne(p, Destroyed(Top(k).minor));
      TallyAppend(p, [Destroyed(Top(k).minor)], Unwound(k[..|k| - 1]));
    }
  }

  lemma OverflowTally(p: Event -> bool, k: Stack)
    requires k != [] && forall v :: !p(Destroyed(v))
    ensures Tally(p, Unwound(k) + [Overflowed]) == if p(Overflowed) then 1 else 0
  {
    UnwoundTally(p, k);
    TallyOne(p, Overflowed);
    TallyAppend(p, Unwound(k), [Overflowed]);
  }

  lemma ReduceOverflowTally(p: Event -> bool, k: Stack)
    requires 1 < |k| && forall v :: !p(Destroyed(v))
    ensures Tally(p, [Dropped(Top(k).minor)] + Unwound(k[..|k| - 1]) + [Overflowed]) ==
      (if p(Dropped(Top(k).minor)) then 1 else 0) + if p(Overflowed) then 1 else 0
  {
    hide Tally, Unwound;
    var d, rest := Dropped(Top(k).minor), k[..|k| - 1];
    OverflowTally(p, rest);
    TallyOne(p, d);
    TallyAppend(p, [d], Unwound(rest) + [Overflowed]);
    assert [d] + Unwound(rest) + [Overflowed] == [d] + (Unwound(rest) + [Overflowed]);
  }

  /** One turn drops one entry if it reduces an empty rule on a full stack, else none; and then it overflows. */
  lemma TurnDrops(t: Tables, k: Stack, turn: Turn, tok: Token)
    requires Fits(t, k, turn)
    ensures var log := Perform(t, k, turn, tok).events;
      Tally(IsDrop, log) == (if LosesTop(t, k, turn) then 1 else 0) && Tally(IsDrop, log) <= Tally(IsOverflow, log)
  {
    hide Tally, Unwound, Fits, Perform;
    FitsNonEmpty(t, k, turn);
    if turn.Reduce? {
      var r := turn.rule;
      ReduceCases(t, k, r, tok);
      var args := Minors(k[|k| - |t.rules[r].rhs|..]);
      if LosesTop(t, k, turn) {
        ReduceOverflowTally(IsDrop, k);
        ReduceOverflowTally(IsOverflow, k);
      } else {
        TallyOne(IsDrop, Accepted(r, args));
        TallyOne(IsDrop, Reduced(r, args));
      }
    } else {
      OtherEvents(t, k, turn, tok);
      OverflowTally(IsDrop, k);
      TallyOne(IsDrop, Shifted(tok));
      TallyOne(IsDrop, SyntaxError(tok));
    }
  }

  lemma OtherEvents(t: Tables, k: Stack, turn: Turn, tok: Token)
    requires Fits(t, k, turn) && !turn.Reduce? && k != []
    ensures Perform(t, k, turn, tok).events in {Unwound(k) + [Overflowed], [Shifted(tok)], [SyntaxError(tok)]}
  {
  }

  /** The turns of a call that reduce an empty rule on a full stack. */
  ghost function CallLosses(t: Tables, cert: Certificate, k: Stack, tok: Token): nat
    requires Ready(t, cert) && StackOk(t, cert, k) && tok.code < t.terminals
    decreases Room(t, k)
  {
    StepProgress(t, cert, k, tok);
    var o := Step(t, cert, k, tok);
    (if LosesTop(t, k, Decide(t, cert, k, tok.code)) then 1 else 0)
    + if o.done then 0 else CallLosses(t, cert, o.stack, tok)
  }

  lemma NoLoss(t: Tables, cert: Certificate, k: Stack, tok: Token)
    requires Ready(t, cert) && StackOk(t, cert, k) && tok.code < t.terminals
    requires !Step(t, cert, k, tok).done && !LosesTop(t, k, Decide(t, cert, k, tok.code))
    ensures StackOk(t, cert, Step(t, cert, k, tok).stack)
    ensures CallLosses(t, cert, k, tok) == CallLosses(t, cert, Step(t, cert, k, tok).stack, tok)
  {
    hide Certified, Acyclic, Decide, Perform, Fits, LosesTop;
    StepProgress(t, cert, k, tok);
  }

  ghost function RunLosses(t: Tables, cert: Certificate, k: Stack, toks: seq<Token>): nat
    requires Ready(t, cert) && StackOk(t, cert, k) && Tokens(t, toks)
    decreases |toks|
  {
    if toks == [] then 0
    else
      var n := |toks| - 1;
      RunLosses(t, cert, k, toks[..n]) + CallLosses(t, cert, Run(t, cert, k, toks[..n]).stack, toks[n])
  }

  lemma {:induction false} CallDrops(t: Tables, cert: Certificate, k: Stack, tok: Token)
    requires Ready(t, cert) && StackOk(t, cert, k) && tok.code < t.terminals
    ensures var log := Call(t, cert, k, tok).events;
      Tally(IsDrop, log) == CallLosses(t, cert, k, tok) && Tally(IsDrop, log) <= Tally(IsOverflow, log)
    decreases Room(t, k)
  {
    hide Certified, Acyclic, StackOk, Decide, Perform, Fits, Tally, LosesTop;
    StepProgress(t, cert, k, tok);
    TurnDrops(t, k, Decide(t, cert, k, tok.code), tok);
    var o := Step(t, cert, k, tok);
    if !o.done {
      CallDrops(t, cert, o.stack, tok);
      var rest := Call(t, cert, o.stack, tok);
      TallyAppend(IsDrop, o.events, rest.events);
      TallyAppend(IsOverflow, o.events, rest.events);
    }
  }

  /** Some value is missing from the books exactly if some entry was dropped. */
  lemma {:induction false} LostIsDropped(log: Log) returns (v: Tree)
    ensures Tally(IsDrop, log) == 0 ==> forall u :: Times(Lost, u, log) == 0
    ensures 0 < Tally(IsDrop, log) ==> 0 < Times(Lost, v, log)
  {
    v := Leaf(Token(0, ""));
    if log != [] {
      var n := |log| - 1;
      v := LostIsDropped(log[..n]);
      if log[n].Dropped? {
        v := log[n].value;
      }
    }
  }

  /** Over every run: the entries dropped are the turns that reduce an empty rule on a full stack, at most one
      for each overflow; and a value goes missing exactly if there is such a turn. */
  lemma {:induction false} RunDrops(t: Tables, cert: Certificate, k: Stack, toks: seq<Token>)
    requires Ready(t, cert) && StackOk(t, cert, k) && Tokens(t, toks)
    ensures var log := Run(t, cert, k, toks).events;
      && Tally(IsDrop, log) == RunLosses(t, cert, k, toks) <= Tally(IsOverflow, log)
      && (0 < RunLosses(t, cert, k, toks) <==> exists v :: 0 < Times(Lost, v, log))
    decreases |toks|
  {
    hide Certified, Acyclic, StackOk, Call, CallLosses;
    if toks != [] {
      hide Tally, Times;
      var n := |toks| - 1;
      RunDrops(t, cert, k, toks[..n]);
      var before := Run(t, cert, k, toks[..n]);
      CallDrops(t, cert, before.stack, toks[n]);
      var now := Call(t, cert, before.stack, toks[n]);
      TallyAppend(IsDrop, before.events, now.events);
      TallyAppend(IsOverflow, before.events, now.events);
    }
    var v := LostIsDropped(Run(t, cert, k, toks).events);
  }
}
