/** The push-down automaton as a function on stacks: one turn of the loop in sqlite3Parser, and the
    certificate under which every reachable stack is safe. */
module LemonMachine {
  import opened Options
  import opened LemonTables
  import opened LemonGrammar

  /** One stack entry.  "stateno" is a state number or, after a shift-reduce, the pending reduce action. */
  datatype Entry = Entry(stateno: nat, major: Symbol, minor: Tree)

  type Stack = seq<Entry>

  datatype Event =
    | Shifted(tok: Token)
    | Reduced(rule: nat, args: seq<Tree>)
    | Accepted(rule: nat, args: seq<Tree>)
    | SyntaxError(tok: Token)
    | Destroyed(value: Tree)
    | Dropped(value: Tree)      // leaves the stack without its destructor
    | Overflowed

  datatype Outcome = Outcome(stack: Stack, events: seq<Event>, done: bool)

  function Top(k: Stack): Entry
    requires k != []
  {
    k[|k| - 1]
  }

  const BASE := Entry(0, 0, Leaf(Token(0, "")))

  // ---------------------------------------------------------------------------------------------
  // Certificates

  /** What is known at some distance from the top: the symbols the entry may hold, and the states
      the entry beneath it may hold. */
  datatype Frame = Frame(syms: set<Symbol>, states: set<nat>)

  /** For each state, the frames known whenever that state is on top, the top one first. */
  type Certificate = seq<seq<Frame>>

  ghost predicate Covers(wide: seq<Frame>, narrow: seq<Frame>) {
    |wide| <= |narrow| &&
    forall d | 0 <= d < |wide| :: narrow[d].syms <= wide[d].syms && narrow[d].states <= wide[d].states
  }

  function Pushed(cert: Certificate, s: nat, x: Symbol): seq<Frame>
    requires s < |cert|
  {
    [Frame({x}, {s})] + cert[s]
  }

  ghost predicate HasGoto(t: Tables, s: nat, r: nat)
    requires |t.lookahead| == |t.action| && r < |t.rules|
  {
    s < |t.shiftOfst| && Goto(t, s, t.rules[r].lhs).Some?
  }

  /** Rule r may be reduced when "frames" describe the top of the stack and "top" is the state there. */
  ghost predicate Reducible(t: Tables, frames: seq<Frame>, top: nat, r: nat)
    requires |t.lookahead| == |t.action|
  {
    && r < |t.rules| && !t.rules[r].optimizedOut
    && var n := |t.rules[r].rhs|;
    && n <= |frames|
    && (forall d, x | 0 <= d < n && x in frames[d].syms :: StandsFor(t, x, t.rules[r].rhs[n - 1 - d]))
    && (n == 0 ==> HasGoto(t, top, r))
    && (forall u | 0 < n && u in frames[n - 1].states :: HasGoto(t, u, r))
  }

  /** Action a, taken in state s on symbol x, is a shift to a state the certificate allows, or a
      shift-reduce whose rule will be reducible. */
  ghost predicate EnterOk(t: Tables, cert: Certificate, s: nat, x: Symbol, a: nat)
    requires |t.lookahead| == |t.action| && s < |cert| == |t.shiftOfst|
  {
    if a <= t.MaxShift() then
      a != 0 && Covers(cert[a], Pushed(cert, s, x))
    else
      && t.minShiftReduce <= a <= t.MaxShiftReduce()
      && Reducible(t, Pushed(cert, s, x), 0, a - t.minShiftReduce)
      && 0 < |t.rules[a - t.minShiftReduce].rhs|
  }

  ghost predicate ShiftOk(t: Tables, cert: Certificate, s: nat, x: Symbol, a: nat)
    requires |t.lookahead| == |t.action| && s < |cert| == |t.shiftOfst|
  {
    if a <= t.MaxShiftReduce() then EnterOk(t, cert, s, x, a)
    else a == t.ErrorAction() || (t.MinReduce() <= a <= t.MaxReduce() && Reducible(t, cert[s], s, a - t.MinReduce()))
  }

  ghost predicate GotoOk(t: Tables, cert: Certificate, s: nat, x: Symbol, a: nat)
    requires |t.lookahead| == |t.action| && s < |cert| == |t.shiftOfst|
  {
    if a <= t.MaxShiftReduce() then EnterOk(t, cert, s, x, a)
    else a == t.AcceptAction() && s == 0 && x == t.start
  }

  /** A finite check on the tables: each shift and goto leads where the certificate says. */
  ghost predicate Certified(t: Tables, cert: Certificate) {
    && t.Shaped() && SymbolsSplit(t)
    && |cert| == |t.shiftOfst| && cert[0] == []
    && (forall s, x | 0 <= s < |cert| && 0 <= x < t.terminals :: ShiftOk(t, cert, s, x, ShiftAction(t, s, x)))
    && (forall s, r | 0 <= s < |cert| && 0 <= r < |t.rules| && HasGoto(t, s, r) ::
          GotoOk(t, cert, s, t.rules[r].lhs, Goto(t, s, t.rules[r].lhs).value))
  }

  // ---------------------------------------------------------------------------------------------
  // Stacks that can arise

  ghost predicate FramesHold(k: Stack, i: nat, frames: seq<Frame>)
    requires i < |k|
  {
    |frames| <= i &&
    forall d | 0 <= d < |frames| :: k[i - d].major in frames[d].syms && k[i - d - 1].stateno in frames[d].states
  }

  /** The pending reduce on top of the stack is executable. */
  ghost predicate PendingOk(t: Tables, cert: Certificate, k: Stack)
    requires |t.lookahead| == |t.action| && 2 <= |k| && k[|k| - 2].stateno < |cert|
  {
    var r := Top(k).stateno - t.MinReduce();
    && 0 <= r < |t.rules|
    && 0 < |t.rules[r].rhs|
    && Reducible(t, Pushed(cert, k[|k| - 2].stateno, Top(k).major), 0, r)
  }

  ghost predicate ValuesOk(t: Tables, k: Stack) {
    forall i | 0 < i < |k| :: Built(t, k[i].minor) && Root(t, k[i].minor) == k[i].major
  }

  /** The state numbers below the top are states, with what the certificate knows of them true. */
  ghost predicate StatesOk(cert: Certificate, k: Stack, n: nat)
    requires n <= |k|
  {
    forall i | 0 <= i < n :: k[i].stateno < |cert| && FramesHold(k, i, cert[k[i].stateno])
  }

  ghost predicate StackOk(t: Tables, cert: Certificate, k: Stack) {
    && 1 <= |k| <= t.depth
    && |t.lookahead| == |t.action|
    && k[0].stateno == 0 && 0 < |cert|
    && (forall i | 0 < i < |k| :: k[i].stateno != 0)
    && StatesOk(cert, k, |k| - 1)
    && (if Top(k).stateno < |cert| then FramesHold(k, |k| - 1, cert[Top(k).stateno]) else 2 <= |k| && PendingOk(t, cert, k))
    && ValuesOk(t, k)
  }

  lemma BaseOk(t: Tables, cert: Certificate, k: Stack)
    requires Certified(t, cert) && |k| == 1 && k[0].stateno == 0
    ensures StackOk(t, cert, k)
  {
  }

  // ---------------------------------------------------------------------------------------------
  // One turn of the loop

  /** The state number that yy_shift and yy_reduce store for an action. */
  function Stored(t: Tables, a: nat): nat {
    if t.MaxShift() < a then a + |t.rules| else a
  }

  function Minors(k: Stack): seq<Tree> {
    seq(|k|, i requires 0 <= i < |k| => k[i].minor)
  }

  /** Destructor calls for the entries above the base, from the top down. */
  function Unwound(k: Stack): seq<Event>
    requires k != []
  {
    if |k| == 1 then [] else [Destroyed(Top(k).minor)] + Unwound(k[..|k| - 1])
  }

  function ShiftStep(t: Tables, k: Stack, a: nat, tok: Token): Outcome
    requires k != []
  {
    if t.depth <= |k| then Outcome(k[..1], Unwound(k) + [Overflowed], true)
    else Outcome(k + [Entry(Stored(t, a), tok.code, Leaf(tok))], [Shifted(tok)], true)
  }

  ghost predicate CanReduce(t: Tables, k: Stack, r: nat) {
    && t.Shaped() && k != [] && r < |t.rules|
    && |t.rules[r].rhs| < |k|
    && Goto(t, k[|k| - 1 - |t.rules[r].rhs|].stateno, t.rules[r].lhs).Some?
  }

  ghost function ReduceStep(t: Tables, k: Stack, r: nat): Outcome
    requires CanReduce(t, k, r) && |k| <= t.depth
  {
    var n := |t.rules[r].rhs|;
    var m := |k| - n;
    if n == 0 && |k| == t.depth then
      Outcome(k[..1], [Dropped(Top(k).minor)] + Unwound(k[..|k| - 1]) + [Overflowed], true)
    else
      var args := Minors(k[m..]);
      var a := Goto(t, k[m - 1].stateno, t.rules[r].lhs).value;
      if a <= t.MaxShiftReduce() then
        Outcome(k[..m] + [Entry(Stored(t, a), t.rules[r].lhs, Node(r, args))], [Reduced(r, args)], false)
      else
        Outcome(k[..m], [Accepted(r, args)], true)
  }

  /** Everything the reduce by rule r relies on: the rule was not removed, the entries it pops match
      its right-hand side, and the state beneath them has a goto on its left-hand side. */
  ghost predicate ReduceReady(t: Tables, k: Stack, r: nat) {
    && CanReduce(t, k, r)
    && !t.rules[r].optimizedOut
    && var n := |t.rules[r].rhs|;
    && KidsMatch(t, t.rules[r].rhs, Minors(k[|k| - n..]))
    && HasGoto(t, k[|k| - 1 - n].stateno, r)
  }

  lemma ReducibleNow(t: Tables, cert: Certificate, k: Stack, frames: seq<Frame>, r: nat)
    requires Certified(t, cert) && StackOk(t, cert, k)
    requires FramesHold(k, |k| - 1, frames) && Reducible(t, frames, Top(k).stateno, r)
    ensures ReduceReady(t, k, r)
  {
    var n := |t.rules[r].rhs|;
    var args := Minors(k[|k| - n..]);
    forall i | 0 <= i < n
      ensures StandsFor(t, Root(t, args[i]), t.rules[r].rhs[i])
    {
      var d := n - 1 - i;
      assert k[|k| - 1 - d].major in frames[d].syms;
      assert args[i] == k[|k| - 1 - d].minor;
    }
    var u := k[|k| - 1 - n].stateno;
    if 0 < n {
      assert k[|k| - 1 - (n - 1) - 1].stateno in frames[n - 1].states;
      assert u in frames[n - 1].states;
    }
    assert HasGoto(t, u, r);
  }

  lemma PrefixOk(t: Tables, cert: Certificate, k: Stack, m: nat)
    requires Certified(t, cert) && StackOk(t, cert, k)
    requires 1 <= m <= |k| && k[m - 1].stateno < |cert|
    ensures StackOk(t, cert, k[..m])
  {
    var p := k[..m];
    forall i | 0 <= i < m
      ensures FramesHold(p, i, cert[p[i].stateno])
    {
      assert FramesHold(k, i, cert[k[i].stateno]);
    }
  }

  lemma PushFrames(cert: Certificate, k: Stack, e: Entry)
    requires k != [] && StatesOk(cert, k, |k|)
    ensures StatesOk(cert, k + [e], |k|)
    ensures FramesHold(k + [e], |k|, Pushed(cert, Top(k).stateno, e.major))
  {
    var q := k + [e];
    forall i | 0 <= i < |k|
      ensures FramesHold(q, i, cert[q[i].stateno])
    {
      assert FramesHold(k, i, cert[k[i].stateno]);
    }
    assert FramesHold(k, |k| - 1, cert[Top(k).stateno]);
  }

  /** A new top entry is a state with its frames, or a pending reduce that is executable. */
  lemma TopEntered(t: Tables, cert: Certificate, q: Stack, a: nat)
    requires Certified(t, cert) && 2 <= |q| && q[|q| - 2].stateno < |cert|
    requires Top(q).stateno == Stored(t, a) && EnterOk(t, cert, q[|q| - 2].stateno, Top(q).major, a)
    requires FramesHold(q, |q| - 1, Pushed(cert, q[|q| - 2].stateno, Top(q).major))
    ensures Top(q).stateno != 0
    ensures if Top(q).stateno < |cert| then FramesHold(q, |q| - 1, cert[Top(q).stateno]) else PendingOk(t, cert, q)
  {
    hide ShiftOk, GotoOk, Reducible;
  }

  lemma ValuesMore(t: Tables, k: Stack, e: Entry)
    requires k != [] && ValuesOk(t, k) && Built(t, e.minor) && Root(t, e.minor) == e.major
    ensures ValuesOk(t, k + [e])
  {
    hide Built, Root;
  }

  /** Entering a certified shift, shift-reduce or goto keeps the stack certified. */
  lemma EnterKeeps(t: Tables, cert: Certificate, k: Stack, a: nat, x: Symbol, v: Tree)
    requires Certified(t, cert) && StackOk(t, cert, k) && |k| < t.depth
    requires Top(k).stateno < |cert| && EnterOk(t, cert, Top(k).stateno, x, a)
    requires Built(t, v) && Root(t, v) == x
    ensures StackOk(t, cert, k + [Entry(Stored(t, a), x, v)])
  {
    hide Certified, EnterOk, FramesHold, PendingOk, Stored, Built, Root, ValuesOk, Pushed;
    var e := Entry(Stored(t, a), x, v);
    assert |t.lookahead| == |t.action| && |cert| == |t.shiftOfst| by { SameLengths(t, cert); }
    PushFrames(cert, k, e);
    TopEntered(t, cert, k + [e], a);
    ValuesMore(t, k, e);
  }

  lemma SameLengths(t: Tables, cert: Certificate)
    requires Certified(t, cert)
    ensures |t.lookahead| == |t.action| && |cert| == |t.shiftOfst|
  {
  }

  /** A pending reduce is executable: beneath it is a state, and the frames of the shift hold. */
  lemma PendingFrames(t: Tables, cert: Certificate, k: Stack)
    requires Certified(t, cert) && StackOk(t, cert, k) && |cert| <= Top(k).stateno
    ensures FramesHold(k, |k| - 1, Pushed(cert, k[|k| - 2].stateno, Top(k).major))
  {
    assert FramesHold(k, |k| - 2, cert[k[|k| - 2].stateno]);
  }

  /** Action a is one the loop can perform on stack k. */
  ghost predicate ActionOk(t: Tables, cert: Certificate, k: Stack, x: Symbol, a: nat)
    requires Certified(t, cert) && k != []
  {
    if a <= t.MaxShiftReduce() then Top(k).stateno < |cert| && EnterOk(t, cert, Top(k).stateno, x, a)
    else if a <= t.MaxReduce() then
      && t.MinReduce() <= a && ReduceReady(t, k, a - t.MinReduce())
      && (Top(k).stateno < |cert| || 0 < |t.rules[a - t.MinReduce()].rhs|)
    else a == t.ErrorAction()
  }

  lemma StateActionPossible(t: Tables, cert: Certificate, k: Stack, x: Symbol)
    requires Certified(t, cert) && StackOk(t, cert, k) && x < t.terminals && Top(k).stateno < |cert|
    ensures ActionOk(t, cert, k, x, ShiftAction(t, Top(k).stateno, x))
  {
    var s := Top(k).stateno;
    var a := ShiftAction(t, s, x);
    assert ShiftOk(t, cert, s, x, a);
    if t.MaxShiftReduce() < a <= t.MaxReduce() {
      ReducibleNow(t, cert, k, cert[s], a - t.MinReduce());
    }
  }

  lemma PendingActionPossible(t: Tables, cert: Certificate, k: Stack, x: Symbol)
    requires Certified(t, cert) && StackOk(t, cert, k) && |cert| <= Top(k).stateno
    ensures t.MinReduce() <= Top(k).stateno <= t.MaxReduce() && ActionOk(t, cert, k, x, Top(k).stateno)
  {
    PendingFrames(t, cert, k);
    ReducibleNow(t, cert, k, Pushed(cert, k[|k| - 2].stateno, Top(k).major), Top(k).stateno - t.MinReduce());
  }

  /** No stack the parser can reach makes the table lookups go wrong, and the action found is possible. */
  lemma ActionPossible(t: Tables, cert: Certificate, k: Stack, x: Symbol)
    requires Certified(t, cert) && StackOk(t, cert, k) && x < t.terminals
    ensures Top(k).stateno < |t.shiftOfst| || t.MinReduce() <= Top(k).stateno
    ensures ActionOk(t, cert, k, x, FindShift(t, Top(k).stateno, x))
  {
    if Top(k).stateno < |cert| {
      StateActionPossible(t, cert, k, x);
    } else {
      PendingActionPossible(t, cert, k, x);
    }
  }

  // ---------------------------------------------------------------------------------------------
  // One turn, in terms of what it was decided to do

  datatype Turn = Shift(action: nat) | Reduce(rule: nat) | Fail

  function TurnFor(t: Tables, a: nat): Turn {
    if a <= t.MaxShiftReduce() then Shift(a)
    else if t.MinReduce() <= a <= t.MaxReduce() then Reduce(a - t.MinReduce())
    else Fail
  }

  /** The reduce by r would use the accept entry of the goto table. */
  ghost predicate Accepting(t: Tables, k: Stack, r: nat)
    requires CanReduce(t, k, r)
  {
    var n := |t.rules[r].rhs|;
    t.MaxShiftReduce() < Goto(t, k[|k| - 1 - n].stateno, t.rules[r].lhs).value
  }

  /** What each turn may rely on.  This is all that the properties of whole runs use. */
  ghost predicate Fits(t: Tables, k: Stack, turn: Turn) {
    && t.Shaped() && 1 <= |k| <= t.depth && ValuesOk(t, k)
    && (turn.Reduce? ==>
          && ReduceReady(t, k, turn.rule)
          && (Accepting(t, k, turn.rule) ==>
                t.rules[turn.rule].lhs == t.start && |k| == 1 + |t.rules[turn.rule].rhs|))
  }

  lemma AcceptAtBase(t: Tables, cert: Certificate, k: Stack, r: nat)
    requires Certified(t, cert) && StackOk(t, cert, k) && ReduceReady(t, k, r) && Accepting(t, k, r)
    requires Top(k).stateno < |cert| || 0 < |t.rules[r].rhs|
    ensures t.rules[r].lhs == t.start && |k| == 1 + |t.rules[r].rhs|
  {
    var m := |k| - |t.rules[r].rhs|;
    var u := k[m - 1].stateno;
    assert u < |cert|;
    assert GotoOk(t, cert, u, t.rules[r].lhs, Goto(t, u, t.rules[r].lhs).value);
  }

  /** The turn that yy_find_shift_action chooses; it always fits the stack. */
  ghost function Decide(t: Tables, cert: Certificate, k: Stack, x: Symbol): (turn: Turn)
    requires Certified(t, cert) && StackOk(t, cert, k) && x < t.terminals
    ensures Fits(t, k, turn)
    ensures turn.Shift? ==> Top(k).stateno < |cert| && EnterOk(t, cert, Top(k).stateno, x, turn.action)
    ensures turn.Reduce? ==> Top(k).stateno < |cert| || 0 < |t.rules[turn.rule].rhs|
  {
    ActionPossible(t, cert, k, x);
    var turn := TurnFor(t, FindShift(t, Top(k).stateno, x));
    assert turn.Reduce? && Accepting(t, k, turn.rule) ==> |k| == 1 + |t.rules[turn.rule].rhs| by {
      if turn.Reduce? && Accepting(t, k, turn.rule) {
        AcceptAtBase(t, cert, k, turn.rule);
      }
    }
    turn
  }

  ghost function Perform(t: Tables, k: Stack, turn: Turn, tok: Token): Outcome
    requires Fits(t, k, turn)
  {
    match turn
    case Shift(a) => ShiftStep(t, k, a, tok)
    case Reduce(r) => ReduceStep(t, k, r)
    case Fail => Outcome(k, [SyntaxError(tok)], true)
  }

  ghost function Step(t: Tables, cert: Certificate, k: Stack, tok: Token): Outcome
    requires Certified(t, cert) && StackOk(t, cert, k) && tok.code < t.terminals
  {
    Perform(t, k, Decide(t, cert, k, tok.code), tok)
  }

  /** Beneath what rule r pops there is a state, and its goto is certified. */
  lemma GotoCertified(t: Tables, cert: Certificate, k: Stack, r: nat)
    requires Certified(t, cert) && StackOk(t, cert, k) && ReduceReady(t, k, r)
    requires Top(k).stateno < |cert| || 0 < |t.rules[r].rhs|
    ensures var m := |k| - |t.rules[r].rhs|;
      var u, x := k[m - 1].stateno, t.rules[r].lhs;
      && u < |cert| == |t.shiftOfst| && GotoOk(t, cert, u, x, Goto(t, u, x).value)
      && Built(t, Node(r, Minors(k[m..])))
  {
    hide EnterOk, FramesHold, PendingOk, StandsFor;
    var m := |k| - |t.rules[r].rhs|;
    assert k[m - 1].stateno < |cert|;
    assert HasGoto(t, k[m - 1].stateno, r);
    assert BuiltAll(t, Minors(k[m..]));
  }

  lemma ReduceKeeps(t: Tables, cert: Certificate, k: Stack, r: nat)
    requires Certified(t, cert) && StackOk(t, cert, k) && ReduceReady(t, k, r)
    requires Top(k).stateno < |cert| || 0 < |t.rules[r].rhs|
    ensures StackOk(t, cert, ReduceStep(t, k, r).stack)
  {
    var n := |t.rules[r].rhs|;
    var m := |k| - n;
    if n == 0 && |k| == t.depth {
      PrefixOk(t, cert, k, 1);
    } else {
      var u := k[m - 1].stateno;
      GotoCertified(t, cert, k, r);
      hide Certified, StackOk, EnterOk, KidsMatch;
      var a := Goto(t, u, t.rules[r].lhs).value;
      PrefixOk(t, cert, k, m);
      if a <= t.MaxShiftReduce() {
        var v := Node(r, Minors(k[m..]));
        EnterKeeps(t, cert, k[..m], a, t.rules[r].lhs, v);
      }
    }
  }

  /** Safety of one turn: a certified stack stays certified. */
  lemma StepKeeps(t: Tables, cert: Certificate, k: Stack, tok: Token)
    requires Certified(t, cert) && StackOk(t, cert, k) && tok.code < t.terminals
    ensures StackOk(t, cert, Step(t, cert, k, tok).stack)
  {
    hide Decide, Fits;
    var turn := Decide(t, cert, k, tok.code);
    match turn
    case Shift(a) =>
      if t.depth <= |k| {
        PrefixOk(t, cert, k, 1);
      } else {
        EnterKeeps(t, cert, k, a, tok.code, Leaf(tok));
      }
    case Reduce(r) =>
      assert ReduceReady(t, k, r) by { FitsReduce(t, k, r); }
      ReduceKeeps(t, cert, k, r);
    case Fail =>
  }

  lemma FitsReduce(t: Tables, k: Stack, r: nat)
    requires Fits(t, k, Reduce(r))
    ensures ReduceReady(t, k, r)
  {
  }

  /** The loop goes on exactly while the token is unused and something lies above the base entry. */
  lemma DoneMeans(t: Tables, k: Stack, turn: Turn, tok: Token)
    requires Fits(t, k, turn)
    ensures var o := Perform(t, k, turn, tok);
      o.done <==> !turn.Reduce? || |o.stack| == 1
  {
  }
}
