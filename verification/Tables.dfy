/** The tables that Lemon generates for its push-down automaton, and the two lookups on them. */
module LemonTables {
  import opened Options

  /** Code number of a terminal or non-terminal (YYCODETYPE). */
  type Symbol = nat

  /** A grammar rule.  Each right-hand side position is a set of alternatives, as in "nm ::= ID|INDEXED".
      Lemon removes the reductions of some unit rules; those are marked. */
  datatype Rule = Rule(lhs: Symbol, rhs: seq<set<Symbol>>, optimizedOut: bool)

  datatype Tables = Tables(
    action: seq<nat>,
    lookahead: seq<Symbol>,
    shiftOfst: seq<int>,
    reduceOfst: seq<int>,
    defaults: seq<nat>,
    fallback: seq<Symbol>,
    rules: seq<Rule>,
    minShiftReduce: nat,
    shiftMin: int,
    shiftMax: int,
    reduceUseDflt: int,
    wildcard: Symbol,
    terminals: nat,
    noCode: Symbol,
    start: Symbol,
    depth: nat)
  {
    // The boundaries between the kinds of action codes.
    function MaxShift(): int { |shiftOfst| - 1 }
    function MaxShiftReduce(): int { minShiftReduce + |rules| - 1 }
    function MinReduce(): nat { minShiftReduce + |rules| }
    function MaxReduce(): int { minShiftReduce + 2 * |rules| - 1 }
    function ErrorAction(): nat { minShiftReduce + 2 * |rules| }
    function AcceptAction(): nat { minShiftReduce + 2 * |rules| + 1 }

    /** The tables fit together: lengths, numbering, token classes, and the compile-time
        bounds YY_SHIFT_MIN and YY_SHIFT_MAX that let the generated code skip index tests. */
    ghost predicate Shaped() {
      && 0 < |shiftOfst| <= minShiftReduce
      && |lookahead| == |action|
      && |defaults| == |shiftOfst|
      && |reduceOfst| <= |shiftOfst|
      && 0 < wildcard < terminals <= noCode
      && |fallback| <= terminals && FallbackOf(0) == 0
      && 2 <= depth
      && (forall x | 0 <= x < |fallback| :: fallback[x] < terminals && FallbackOf(fallback[x]) == 0)
      && (forall s | 0 <= s < |shiftOfst| :: shiftMin <= shiftOfst[s])
      && (forall s | 0 <= s < |shiftOfst| :: shiftOfst[s] <= shiftMax || |action| <= shiftMax + wildcard)
    }

    function FallbackOf(x: Symbol): Symbol {
      if x < |fallback| then fallback[x] else 0
    }
  }

  /** With the counts of SQLite 3.15.2 the boundaries are those of the generated defines. */
  lemma Boundaries(t: Tables)
    requires |t.shiftOfst| == 460 && |t.rules| == 332 && t.minShiftReduce == 672
    ensures t.MaxShift() == 459 && t.MaxShiftReduce() == 1003
    ensures t.MinReduce() == 1004 && t.MaxReduce() == 1335
    ensures t.ErrorAction() == 1336 && t.AcceptAction() == 1337
  {
  }

  /** The entry that the compressed action table holds for a state and a terminal, if any. */
  function Explicit(t: Tables, state: nat, x: Symbol): Option<nat>
    requires state < |t.shiftOfst| && |t.lookahead| == |t.action|
  {
    var i := t.shiftOfst[state] + x;
    if 0 <= i < |t.action| && t.lookahead[i] == x then Some(t.action[i]) else None
  }

  function WildcardOrDefault(t: Tables, state: nat, x: Symbol): nat
    requires state < |t.shiftOfst| && |t.lookahead| == |t.action| && |t.defaults| == |t.shiftOfst|
  {
    if 0 < x && Explicit(t, state, t.wildcard).Some? then Explicit(t, state, t.wildcard).value
    else t.defaults[state]
  }

  /** The action of a proper state on a terminal. */
  function ShiftAction(t: Tables, state: nat, x: Symbol): nat
    requires state < |t.shiftOfst| && |t.lookahead| == |t.action| && |t.defaults| == |t.shiftOfst|
  {
    var y := t.FallbackOf(x);
    if Explicit(t, state, x).Some? then Explicit(t, state, x).value
    else if y == 0 then WildcardOrDefault(t, state, x)
    else if Explicit(t, state, y).Some? then Explicit(t, state, y).value
    else WildcardOrDefault(t, state, y)
  }

  /** The action for whatever a stack entry stores as its state number: a pending reduce is its own action. */
  function FindShift(t: Tables, stateno: nat, x: Symbol): nat
    requires stateno < |t.shiftOfst| || t.MinReduce() <= stateno
    requires |t.lookahead| == |t.action| && |t.defaults| == |t.shiftOfst|
  {
    if t.MinReduce() <= stateno then stateno else ShiftAction(t, stateno, x)
  }

  /** yy_find_shift_action, with the two index tests that the preprocessor may drop.  The loop goes round
      a second time only for a fallback token, which has no fallback itself. */
  method FindShiftAction(t: Tables, stateno: nat, x: Symbol) returns (act: nat, ghost rounds: nat)
    requires t.Shaped() && x < t.terminals
    requires stateno < |t.shiftOfst| || t.MinReduce() <= stateno
    ensures act == FindShift(t, stateno, x)
    ensures rounds <= 2
  {
    rounds := 0;
    if t.MinReduce() <= stateno {
      act := stateno;
      return;
    }
    var lookAhead := x;
    while true
      invariant rounds == 0 || (rounds == 1 && lookAhead != x)
      invariant lookAhead == x || lookAhead == t.FallbackOf(x) != 0
      invariant lookAhead != x ==> Explicit(t, stateno, x).None? && t.FallbackOf(lookAhead) == 0
      decreases t.FallbackOf(lookAhead)
    {
      rounds := rounds + 1;
      var i := t.shiftOfst[stateno] + lookAhead;
      if i < 0 || |t.action| <= i || t.lookahead[i] != lookAhead {
        if lookAhead < |t.fallback| && t.fallback[lookAhead] != 0 {
          lookAhead := t.fallback[lookAhead];
          continue;
        }
        var j := i - lookAhead + t.wildcard;
        if (0 <= t.shiftMin + t.wildcard || 0 <= j)
           && (t.shiftMax + t.wildcard < |t.action| || j < |t.action|)
           && t.lookahead[j] == t.wildcard && 0 < lookAhead {
          act := t.action[j];
          return;
        }
        act := t.defaults[stateno];
        return;
      } else {
        act := t.action[i];
        return;
      }
    }
  }

  /** The goto entry of a state on a non-terminal; the assertions of yy_find_reduce_action say that
      it is only asked for when present. */
  function Goto(t: Tables, state: nat, x: Symbol): Option<nat>
    requires |t.lookahead| == |t.action|
  {
    if state < |t.reduceOfst| && t.reduceOfst[state] != t.reduceUseDflt then
      var i := t.reduceOfst[state] + x;
      if 0 <= i < |t.action| && t.lookahead[i] == x then Some(t.action[i]) else None
    else None
  }

  /** yy_find_reduce_action. */
  method FindReduceAction(t: Tables, stateno: nat, x: Symbol) returns (act: nat)
    requires t.Shaped() && Goto(t, stateno, x).Some?
    ensures Goto(t, stateno, x) == Some(act)
  {
    var i := t.reduceOfst[stateno];
    i := i + x;
    act := t.action[i];
  }

  // ---------------------------------------------------------------------------------------------
  // The compressed table against the sparse matrix it was packed from

  type Matrix = map<(nat, Symbol), nat>

  /** State s has gotos at all. */
  predicate HasGotos(t: Tables, s: nat) {
    s < |t.reduceOfst| && t.reduceOfst[s] != t.reduceUseDflt
  }

  /** Every matrix entry sits in its slot, and no other slot can be mistaken for one of this state: terminals
      by the shift offsets, non-terminals by the reduce offsets. */
  ghost predicate Packs(t: Tables, m: Matrix) {
    && t.Shaped()
    && (forall s: nat, x: Symbol | (s, x) in m && s < |t.shiftOfst| && x < t.terminals ::
          && 0 <= t.shiftOfst[s] + x < |t.action|
          && t.lookahead[t.shiftOfst[s] + x] == x
          && t.action[t.shiftOfst[s] + x] == m[(s, x)])
    && (forall s: nat, i: nat | s < |t.shiftOfst| && i < |t.action| && i == t.shiftOfst[s] + t.lookahead[i] ::
          t.lookahead[i] < t.terminals ==> (s, t.lookahead[i]) in m)
    && (forall s: nat, x: Symbol | (s, x) in m && t.terminals <= x ::
          && HasGotos(t, s)
          && 0 <= t.reduceOfst[s] + x < |t.action|
          && t.lookahead[t.reduceOfst[s] + x] == x
          && t.action[t.reduceOfst[s] + x] == m[(s, x)])
    && (forall s: nat, i: nat | HasGotos(t, s) && i < |t.action| && i == t.reduceOfst[s] + t.lookahead[i] ::
          t.terminals <= t.lookahead[i] ==> (s, t.lookahead[i]) in m)
  }

  /** The goto on the compressed tables is the entry of the matrix. */
  lemma GotoIsPlain(t: Tables, m: Matrix, s: nat, x: Symbol)
    requires Packs(t, m) && t.terminals <= x
    ensures Goto(t, s, x) == if (s, x) in m then Some(m[(s, x)]) else None
  {
    if HasGotos(t, s) {
      var i := t.reduceOfst[s] + x;
      if 0 <= i < |t.action| && t.lookahead[i] == x {
        assert (s, t.lookahead[i]) in m;
      }
    }
  }

  function MatrixEntry(m: Matrix, s: nat, x: Symbol): Option<nat> {
    if (s, x) in m then Some(m[(s, x)]) else None
  }

  /** Tables whose lookups are those of the matrix are a correct packing of it. */
  lemma PackedByLookup(t: Tables, m: Matrix)
    requires t.Shaped() && |t.reduceOfst| <= |t.shiftOfst|
    requires forall s: nat, x: Symbol | s < |t.shiftOfst| && x < t.terminals :: Explicit(t, s, x) == MatrixEntry(m, s, x)
    requires forall s: nat, x: Symbol | t.terminals <= x :: Goto(t, s, x) == MatrixEntry(m, s, x)
    ensures Packs(t, m)
  {
    forall s: nat, x: Symbol | (s, x) in m
      ensures s < |t.shiftOfst| && x < t.terminals ==> Explicit(t, s, x) == Some(m[(s, x)])
      ensures t.terminals <= x ==> Goto(t, s, x) == Some(m[(s, x)])
    {
    }
    forall s: nat, i: nat | s < |t.shiftOfst| && i < |t.action| && i == t.shiftOfst[s] + t.lookahead[i]
      ensures t.lookahead[i] < t.terminals ==> (s, t.lookahead[i]) in m
    {
      if t.lookahead[i] < t.terminals {
        assert Explicit(t, s, t.lookahead[i]).Some?;
      }
    }
    forall s: nat, i: nat | HasGotos(t, s) && i < |t.action| && i == t.reduceOfst[s] + t.lookahead[i]
      ensures t.terminals <= t.lookahead[i] ==> (s, t.lookahead[i]) in m
    {
      if t.terminals <= t.lookahead[i] {
        assert Goto(t, s, t.lookahead[i]).Some?;
      }
    }
  }

  /** What the four alternatives of the lookup come to in terms of the matrix alone. */
  ghost predicate PlainLookup(t: Tables, m: Matrix, s: nat, x: Symbol, act: nat)
    requires s < |t.defaults|
  {
    var y := t.FallbackOf(x);
    var wild := (s, t.wildcard);
    if (s, x) in m then act == m[(s, x)]
    else if y != 0 && (s, y) in m then act == m[(s, y)]
    else if x != 0 && wild in m then act == m[wild]
    else act == t.defaults[s]
  }

  lemma PackedEntry(t: Tables, m: Matrix, s: nat, x: Symbol)
    requires Packs(t, m) && s < |t.shiftOfst| && x < t.terminals
    ensures Explicit(t, s, x) == if (s, x) in m then Some(m[(s, x)]) else None
  {
  }

  /** The lookup on the compressed tables is the lookup on the matrix: explicit entry, else the fallback
      token's, else the wildcard's (never for end of input), else the default of the state. */
  lemma CompressedLookupIsPlain(t: Tables, m: Matrix, s: nat, x: Symbol)
    requires Packs(t, m) && s < |t.shiftOfst| && x < t.terminals
    ensures PlainLookup(t, m, s, x, ShiftAction(t, s, x))
    ensures x == 0 && (s, x) !in m ==> ShiftAction(t, s, x) == t.defaults[s]
  {
    PackedEntry(t, m, s, x);
    PackedEntry(t, m, s, t.FallbackOf(x));
    PackedEntry(t, m, s, t.wildcard);
  }
}
