/** Whole runs of the parser: what it accepts has a derivation, and no semantic value is lost or used twice. */
module LemonRuns {
  import opened LemonTables
  import opened LemonGrammar
  import opened LemonMachine
  import opened LemonTermination

  type Log = seq<Event>

  ghost predicate Tokens(t: Tables, toks: seq<Token>) {
    forall i | 0 <= i < |toks| :: toks[i].code < t.terminals
  }

  /** Feed the tokens one call at a time. */
  ghost function Run(t: Tables, cert: Certificate, k: Stack, toks: seq<Token>): (c: Result)
    requires Ready(t, cert) && StackOk(t, cert, k) && Tokens(t, toks)
    ensures StackOk(t, cert, c.stack)
    decreases |toks|
  {
    if toks == [] then Result(k, [])
    else
      var n := |toks| - 1;
      var before := Run(t, cert, k, toks[..n]);
      var now := Call(t, cert, before.stack, toks[n]);
      Result(now.stack, before.events + now.events)
  }

  // ---------------------------------------------------------------------------------------------
  // Soundness

  function Pending(w: seq<Token>, e: Event): seq<Token> {
    match e
    case Shifted(tok) => w + [tok]
    case Accepted(_, _) => []
    case Overflowed => []
    case _ => w
  }

  /** The tokens shifted since the stack was last emptied by an accept or an overflow. */
  function Frontier(log: Log): seq<Token> {
    if log == [] then [] else Pending(Frontier(log[..|log| - 1]), log[|log| - 1])
  }

  lemma FrontierSnoc(log: Log, e: Event)
    ensures Frontier(log + [e]) == Pending(Frontier(log), e)
  {
    assert (log + [e])[..|log + [e]| - 1] == log;
  }

  /** Each accept in the log comes with a tree for the start symbol over exactly the pending tokens. */
  ghost predicate AcceptsTrees(t: Tables, log: Log) {
    forall i | 0 <= i < |log| && log[i].Accepted? ::
      var p := Node(log[i].rule, log[i].args);
      Built(t, p) && Root(t, p) == t.start && Yield(p) == Frontier(log[..i])
  }

  lemma AcceptsTreesExtend(t: Tables, log: Log, more: Log)
    requires AcceptsTrees(t, log)
    requires forall i | 0 <= i < |more| :: !more[i].Accepted?
    ensures AcceptsTrees(t, log + more)
  {
    forall i | 0 <= i < |log + more| && (log + more)[i].Accepted?
      ensures (log + more)[i] == log[i] && (log + more)[..i] == log[..i]
    {
    }
  }

  lemma {:induction false} UnwoundOnlyDestroys(k: Stack, i: nat)
    requires k != [] && i < |Unwound(k)|
    ensures Unwound(k)[i].Destroyed?
  {
    if 0 < i {
      UnwoundOnlyDestroys(k[..|k| - 1], i - 1);
    }
  }

  lemma OverflowSound(t: Tables, k: Stack, live: Stack, dropped: Log, log: Log)
    requires k != [] && live != [] && AcceptsTrees(t, log)
    requires forall i | 0 <= i < |dropped| :: dropped[i].Dropped?
    ensures var events := dropped + Unwound(live) + [Overflowed];
      AcceptsTrees(t, log + events) && Frontier(log + events) == [] == YieldAll(Forest(k[..1]))
  {
    var events := dropped + Unwound(live) + [Overflowed];
    forall i | 0 <= i < |Unwound(live)|
      ensures Unwound(live)[i].Destroyed?
    {
      UnwoundOnlyDestroys(live, i);
    }
    AcceptsTreesExtend(t, log, events);
    FrontierSnoc(log + dropped + Unwound(live), Overflowed);
    assert log + events == log + dropped + Unwound(live) + [Overflowed];
  }

  /** The three ways a reduce can end. */
  lemma ReduceCases(t: Tables, k: Stack, r: nat, tok: Token)
    requires Fits(t, k, Reduce(r))
    ensures r < |t.rules| && |t.rules[r].rhs| < |k|
    ensures var o := Perform(t, k, Reduce(r), tok);
      var m := |k| - |t.rules[r].rhs|;
      if m == |k| == t.depth then
        1 < |k| && o == Outcome(k[..1], [Dropped(Top(k).minor)] + Unwound(k[..|k| - 1]) + [Overflowed], true)
      else if o.done then
        o.events == [Accepted(r, Minors(k[m..]))]
      else
        && o.events == [Reduced(r, Minors(k[m..]))]
        && |o.stack| == m + 1 && o.stack[..m] == k[..m] && o.stack[m].minor == Node(r, Minors(k[m..]))
  {
    hide KidsMatch, ValuesOk;
  }

  lemma ReduceSound(t: Tables, k: Stack, r: nat, tok: Token, log: Log)
    requires Fits(t, k, Reduce(r))
    requires AcceptsTrees(t, log) && YieldAll(Forest(k)) == Frontier(log)
    ensures var o := Perform(t, k, Reduce(r), tok);
      AcceptsTrees(t, log + o.events) && YieldAll(Forest(o.stack)) == Frontier(log + o.events)
  {
    hide AcceptsTrees, Perform, Fits, Frontier, Unwound, Built, Root, Yield;
    ReduceCases(t, k, r, tok);
    var m := |k| - |t.rules[r].rhs|;
    var o := Perform(t, k, Reduce(r), tok);
    if m == |k| == t.depth {
      OverflowSound(t, k, k[..|k| - 1], [Dropped(Top(k).minor)], log);
    } else if o.done {
      ReduceToAccept(t, k, r, tok);
      AcceptedSound(t, k, r, log);
    } else {
      ReducedSound(t, k, m, r, o.stack, log);
    }
  }

  lemma ReducedSound(t: Tables, k: Stack, m: nat, r: nat, k': Stack, log: Log)
    requires 1 <= m <= |k| && |k'| == m + 1 && k'[..m] == k[..m] && k'[m].minor == Node(r, Minors(k[m..]))
    requires AcceptsTrees(t, log) && YieldAll(Forest(k)) == Frontier(log)
    ensures var events := [Reduced(r, Minors(k[m..]))];
      AcceptsTrees(t, log + events) && YieldAll(Forest(k')) == Frontier(log + events)
  {
    hide AcceptsTrees, Frontier, YieldAll, Forest;
    var args := Minors(k[m..]);
    ReduceYield(k, m, r, k'[m]);
    assert k' == k[..m] + [k'[m]];
    FrontierSnoc(log, Reduced(r, args));
    AcceptsTreesExtend(t, log, [Reduced(r, args)]);
  }

  lemma AcceptedSound(t: Tables, k: Stack, r: nat, log: Log)
    requires 1 <= |k| && Built(t, Node(r, Forest(k))) && Root(t, Node(r, Forest(k))) == t.start
    requires AcceptsTrees(t, log) && YieldAll(Forest(k)) == Frontier(log)
    ensures var events := [Accepted(r, Forest(k))];
      AcceptsTrees(t, log + events) && Frontier(log + events) == [] == YieldAll(Forest(k[..1]))
  {
    hide AcceptsTrees, Frontier;
    FrontierSnoc(log, Accepted(r, Forest(k)));
    AcceptExtends(t, log, r, Forest(k));
  }

  /** An accepting reduce takes everything above the base. */
  lemma ReduceToAccept(t: Tables, k: Stack, r: nat, tok: Token)
    requires Fits(t, k, Reduce(r)) && Perform(t, k, Reduce(r), tok).done
    requires |t.rules[r].rhs| != 0 || |k| != t.depth
    ensures var o := Perform(t, k, Reduce(r), tok);
      var args := Minors(k[|k| - |t.rules[r].rhs|..]);
      && o == Outcome(k[..1], [Accepted(r, args)], true)
      && Forest(k) == args && Forest(o.stack) == []
      && Built(t, Node(r, args)) && Root(t, Node(r, args)) == t.start
  {
    hide KidsMatch;
    assert BuiltAll(t, Minors(k[1..]));
  }

  lemma AcceptExtends(t: Tables, log: Log, r: nat, args: seq<Tree>)
    requires AcceptsTrees(t, log)
    requires Built(t, Node(r, args)) && Root(t, Node(r, args)) == t.start && YieldAll(args) == Frontier(log)
    ensures AcceptsTrees(t, log + [Accepted(r, args)])
  {
    var q := log + [Accepted(r, args)];
    forall i | 0 <= i < |q| && q[i].Accepted?
      ensures Built(t, Node(q[i].rule, q[i].args)) && Root(t, Node(q[i].rule, q[i].args)) == t.start
      ensures Yield(Node(q[i].rule, q[i].args)) == Frontier(q[..i])
    {
      assert i < |log| ==> q[i] == log[i] && q[..i] == log[..i];
      assert i == |log| ==> q[..i] == log;
    }
  }

  /** One turn keeps the two invariants of the log. */
  lemma TurnSound(t: Tables, k: Stack, turn: Turn, tok: Token, log: Log)
    requires Fits(t, k, turn)
    requires AcceptsTrees(t, log) && YieldAll(Forest(k)) == Frontier(log)
    ensures var o := Perform(t, k, turn, tok);
      AcceptsTrees(t, log + o.events) && YieldAll(Forest(o.stack)) == Frontier(log + o.events)
  {
    hide AcceptsTrees, Fits, ShiftStep, ReduceStep, Frontier;
    match turn
    case Shift(a) =>
      assert k != [] by { FitsStack(t, k, turn); }
      ShiftSound(t, k, a, tok, log);
    case Reduce(r) =>
      ReduceSound(t, k, r, tok, log);
    case Fail =>
      FrontierSnoc(log, SyntaxError(tok));
      AcceptsTreesExtend(t, log, [SyntaxError(tok)]);
  }

  lemma FitsStack(t: Tables, k: Stack, turn: Turn)
    requires Fits(t, k, turn)
    ensures k != []
  {
  }

  lemma ShiftSound(t: Tables, k: Stack, a: nat, tok: Token, log: Log)
    requires k != [] && AcceptsTrees(t, log) && YieldAll(Forest(k)) == Frontier(log)
    ensures var o := ShiftStep(t, k, a, tok);
      o.stack != [] && AcceptsTrees(t, log + o.events) && YieldAll(Forest(o.stack)) == Frontier(log + o.events)
  {
    hide AcceptsTrees, Frontier, Unwound, Stored;
    if t.depth <= |k| {
      OverflowSound(t, k, k, [], log);
      assert [] + Unwound(k) + [Overflowed] == Unwound(k) + [Overflowed];
    } else {
      FrontierSnoc(log, Shifted(tok));
      ShiftYield(k, Entry(Stored(t, a), tok.code, Leaf(tok)));
      AcceptsTreesExtend(t, log, [Shifted(tok)]);
    }
  }

  lemma {:induction false} CallSound(t: Tables, cert: Certificate, k: Stack, tok: Token, log: Log)
    requires Ready(t, cert) && StackOk(t, cert, k) && tok.code < t.terminals
    requires AcceptsTrees(t, log) && YieldAll(Forest(k)) == Frontier(log)
    ensures var c := Call(t, cert, k, tok);
      AcceptsTrees(t, log + c.events) && YieldAll(Forest(c.stack)) == Frontier(log + c.events)
    decreases Room(t, k)
  {
    hide Certified, StackOk, Acyclic, AcceptsTrees, Decide, Perform, Fits;
    StepProgress(t, cert, k, tok);
    TurnSound(t, k, Decide(t, cert, k, tok.code), tok, log);
    var o := Step(t, cert, k, tok);
    if !o.done {
      CallSound(t, cert, o.stack, tok, log + o.events);
      var rest := Call(t, cert, o.stack, tok);
      assert log + (o.events + rest.events) == log + o.events + rest.events;
    }
  }

  /** In every run the frontier of the stack is the tokens shifted and not yet accepted or abandoned, and
      whatever was accepted was a tree over exactly those tokens. */
  lemma {:induction false} RunSound(t: Tables, cert: Certificate, k: Stack, toks: seq<Token>)
    requires Ready(t, cert) && |k| == 1 && StackOk(t, cert, k) && Tokens(t, toks)
    ensures var c := Run(t, cert, k, toks);
      AcceptsTrees(t, c.events) && YieldAll(Forest(c.stack)) == Frontier(c.events)
    decreases |toks|
  {
    hide Certified, StackOk, Acyclic, Call;
    if toks != [] {
      var n := |toks| - 1;
      RunSound(t, cert, k, toks[..n]);
      var before := Run(t, cert, k, toks[..n]);
      CallSound(t, cert, before.stack, toks[n], before.events);
    }
  }

  // ---------------------------------------------------------------------------------------------
  // How a call uses its token

  /** Nothing went wrong and nothing was accepted. */
  predicate Uneventful(log: Log) {
    forall i | 0 <= i < |log| :: log[i].Shifted? || log[i].Reduced?
  }

  lemma UneventfulParts(a: Log, b: Log)
    requires Uneventful(a + b)
    ensures Uneventful(a) && Uneventful(b)
  {
    assert forall i | 0 <= i < |a| :: a[i] == (a + b)[i];
    assert forall i | 0 <= i < |b| :: b[i] == (a + b)[|a| + i];
  }

  /** A turn logs one event, or, on overflow, a series of pops and the overflow. */
  lemma TurnEvents(t: Tables, k: Stack, turn: Turn, tok: Token)
    requires Fits(t, k, turn)
    ensures var o := Perform(t, k, turn, tok);
      && o.events != []
      && (!o.done ==> |o.events| == 1 && o.events[0].Reduced?)
      && (o.done ==>
            || o.events == [Shifted(tok)]
            || o.events == [SyntaxError(tok)]
            || (|o.events| == 1 && o.events[0].Accepted?)
            || (o.events[|o.events| - 1].Overflowed? && forall i | 0 <= i < |o.events| :: !o.events[i].Accepted?))
  {
    hide ReduceReady, ValuesOk;
    assert turn.Reduce? ==> ReduceReady(t, k, turn.rule);
    forall i | 0 <= i < |Unwound(k)|
      ensures Unwound(k)[i].Destroyed?
    {
      UnwoundOnlyDestroys(k, i);
    }
    if 1 < |k| {
      var rest := k[..|k| - 1];
      forall i | 0 <= i < |Unwound(rest)|
        ensures Unwound(rest)[i].Destroyed?
      {
        UnwoundOnlyDestroys(rest, i);
      }
    }
  }

  /** A call whose events are all shifts and reductions has shifted exactly its token. */
  lemma {:induction false} CallUses(t: Tables, cert: Certificate, k: Stack, tok: Token, log: Log)
    requires Ready(t, cert) && StackOk(t, cert, k) && tok.code < t.terminals
    requires Uneventful(Call(t, cert, k, tok).events)
    ensures Frontier(log + Call(t, cert, k, tok).events) == Frontier(log) + [tok]
    decreases Room(t, k)
  {
    hide Certified, StackOk, Acyclic, Decide, Perform, Fits;
    StepProgress(t, cert, k, tok);
    TurnEvents(t, k, Decide(t, cert, k, tok.code), tok);
    var o := Step(t, cert, k, tok);
    var c := Call(t, cert, k, tok);
    if o.done {
      assert !c.events[|c.events| - 1].Overflowed?;
      FrontierSnoc(log, Shifted(tok));
    } else {
      var rest := Call(t, cert, o.stack, tok);
      UneventfulParts(o.events, rest.events);
      FrontierSnoc(log, o.events[0]);
      CallUses(t, cert, o.stack, tok, log + o.events);
      assert log + c.events == log + o.events + rest.events;
    }
  }

  lemma {:induction false} UneventfulRun(t: Tables, cert: Certificate, k: Stack, toks: seq<Token>)
    requires Ready(t, cert) && |k| == 1 && StackOk(t, cert, k) && Tokens(t, toks)
    requires Uneventful(Run(t, cert, k, toks).events)
    ensures Frontier(Run(t, cert, k, toks).events) == toks
    decreases |toks|
  {
    hide Certified, StackOk, Acyclic, Call;
    if toks != [] {
      var n := |toks| - 1;
      var before := Run(t, cert, k, toks[..n]);
      var now := Call(t, cert, before.stack, toks[n]);
      UneventfulParts(before.events, now.events);
      UneventfulRun(t, cert, k, toks[..n]);
      CallUses(t, cert, before.stack, toks[n], before.events);
    }
  }

  /** Up to an accept a call only reduces, so the pending tokens are those of the calls before. */
  lemma {:induction false} AcceptFrontier(t: Tables, cert: Certificate, k: Stack, tok: Token, log: Log, i: nat)
    requires Ready(t, cert) && StackOk(t, cert, k) && tok.code < t.terminals
    requires var c := Call(t, cert, k, tok); i < |c.events| && c.events[i].Accepted?
    ensures Frontier((log + Call(t, cert, k, tok).events)[..|log| + i]) == Frontier(log)
    decreases Room(t, k)
  {
    hide Certified, StackOk, Acyclic, Decide, Perform, Fits;
    StepProgress(t, cert, k, tok);
    TurnEvents(t, k, Decide(t, cert, k, tok.code), tok);
    var o := Step(t, cert, k, tok);
    var c := Call(t, cert, k, tok);
    if o.done {
      assert (log + c.events)[..|log|] == log;
    } else {
      var rest := Call(t, cert, o.stack, tok);
      FrontierSnoc(log, o.events[0]);
      assert rest.events[i - 1] == c.events[i];
      AcceptFrontier(t, cert, o.stack, tok, log + o.events, i - 1);
      assert log + c.events == log + o.events + rest.events;
    }
  }

  ghost predicate Accepts(log: Log) {
    exists i :: 0 <= i < |log| && log[i].Accepted?
  }

  /** Soundness.  Feed a fresh parser tokens without an error, an overflow or an accept, then one more
      token on which it accepts: the tokens fed before have a derivation from the start symbol in the
      full grammar, once each token may be read as its fallback or as the wildcard. */
  lemma ParserSound(t: Tables, cert: Certificate, k: Stack, toks: seq<Token>, last: Token) returns (q: Tree)
    requires Ready(t, cert) && |k| == 1 && StackOk(t, cert, k)
    requires Tokens(t, toks) && last.code < t.terminals
    requires Uneventful(Run(t, cert, k, toks).events)
    requires Accepts(Call(t, cert, Run(t, cert, k, toks).stack, last).events)
    ensures Derivation(t, q) && Root(t, q) == t.start && Substituted(t, toks, Yield(q))
  {
    hide StackOk, Acyclic, Call, Run;
    var before := Run(t, cert, k, toks);
    var log := before.events;
    UneventfulRun(t, cert, k, toks);
    RunSound(t, cert, k, toks);
    var c := Call(t, cert, before.stack, last);
    CallSound(t, cert, before.stack, last, log);
    var i :| 0 <= i < |c.events| && c.events[i].Accepted?;
    assert (log + c.events)[|log| + i] == c.events[i];
    AcceptFrontier(t, cert, before.stack, last, log, i);
    assert Chain(t, [], t.start, t.start);
    q := Restore(t, Node(c.events[i].rule, c.events[i].args), t.start, []);
  }
}
