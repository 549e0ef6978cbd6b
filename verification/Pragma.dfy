/** The tables that Lemon's packing gives for the PRAGMA statements: the rules of the grammar for them, with
    two empty rules, fallback tokens, shift-reduces on terminals and non-terminals, and three removed unit rules.
    They satisfy every assumption made about tables; with them the parser accepts words, and, when its stack is
    short, drops a value. */
module PragmaTables {
  import opened Options
  import opened LemonTables
  import opened LemonGrammar
  import opened LemonMachine
  import opened LemonTermination
  import opened LemonRanks
  import opened LemonRuns
  import opened LemonOwnership

  // Terminals; EXPLAIN, QUERY, PLAN and PRAGMA fall back to ID
  const EOF := 0
  const SEMI := 1
  const EXPLAIN := 2
  const QUERY := 3
  const PLAN := 4
  const PRAGMA := 5
  const ID := 6
  const INDEXED := 7
  const STRING := 8
  const JOIN_KW := 9
  const DOT := 10
  const EQ := 11
  const LP := 12
  const RP := 13
  const ON := 14
  const DELETE := 15
  const DEFAULT := 16
  const PLUS := 17
  const MINUS := 18
  const INTEGER := 19
  const FLOAT := 20
  const ANY := 21
  // Non-terminals
  const INPUT := 22
  const CMDLIST := 23
  const ECMD := 24
  const EXPLAIN_OPT := 25
  const CMDX := 26
  const CMD := 27
  const NM := 28
  const DBNM := 29
  const NMNUM := 30
  const PLUS_NUM := 31
  const MINUS_NUM := 32
  const NO_CODE := 33

  /** The rules, with the number each has in the whole grammar. */
  function RuleAt(r: nat): Rule {
    match r
    case 0 => Rule(EXPLAIN_OPT, [{EXPLAIN}], false)                                  // 0
    case 1 => Rule(EXPLAIN_OPT, [{EXPLAIN}, {QUERY}, {PLAN}], false)                 // 1
    case 2 => Rule(CMDX, [{CMD}], false)                                             // 2
    case 3 => Rule(DBNM, [], false)                                                  // 105
    case 4 => Rule(DBNM, [{DOT}, {NM}], false)                                       // 106
    case 5 => Rule(CMD, [{PRAGMA}, {NM}, {DBNM}], false)                             // 220
    case 6 => Rule(CMD, [{PRAGMA}, {NM}, {DBNM}, {EQ}, {NMNUM}], false)              // 221
    case 7 => Rule(CMD, [{PRAGMA}, {NM}, {DBNM}, {LP}, {NMNUM}, {RP}], false)        // 222
    case 8 => Rule(CMD, [{PRAGMA}, {NM}, {DBNM}, {EQ}, {MINUS_NUM}], false)          // 223
    case 9 => Rule(CMD, [{PRAGMA}, {NM}, {DBNM}, {LP}, {MINUS_NUM}, {RP}], false)    // 224
    case 10 => Rule(PLUS_NUM, [{PLUS}, {INTEGER, FLOAT}], false)                     // 225
    case 11 => Rule(MINUS_NUM, [{MINUS}, {INTEGER, FLOAT}], false)                   // 226
    case 12 => Rule(INPUT, [{CMDLIST}], false)                                       // 276
    case 13 => Rule(CMDLIST, [{CMDLIST}, {ECMD}], false)                             // 277
    case 14 => Rule(CMDLIST, [{ECMD}], true)                                         // 278
    case 15 => Rule(ECMD, [{SEMI}], false)                                           // 279
    case 16 => Rule(ECMD, [{EXPLAIN_OPT}, {CMDX}, {SEMI}], false)                    // 280
    case 17 => Rule(EXPLAIN_OPT, [], false)                                          // 281
    case 18 => Rule(NM, [{ID, INDEXED}], false)                                      // 290
    case 19 => Rule(NM, [{STRING}], false)                                           // 291
    case 20 => Rule(NM, [{JOIN_KW}], false)                                          // 292
    case 21 => Rule(NMNUM, [{PLUS_NUM}], true)                                       // 312
    case 22 => Rule(NMNUM, [{NM}], true)                                             // 313
    case 23 => Rule(NMNUM, [{ON}], false)                                            // 314
    case 24 => Rule(NMNUM, [{DELETE}], false)                                        // 315
    case 25 => Rule(NMNUM, [{DEFAULT}], false)                                       // 316
    case _ => Rule(PLUS_NUM, [{INTEGER, FLOAT}], false)                              // 317
  }

  // Actions: shift 0..15, shift-reduce 16..42, reduce 43..69, error 70, accept 71.

  /** The packed table: each slot's symbol and action. */
  function Cell(i: nat): (Symbol, nat) {
    match i
    case 0 => (ID, 34) case 1 => (INDEXED, 34) case 2 => (STRING, 35) case 3 => (JOIN_KW, 36)
    case 4 => (INPUT, 71) case 5 => (CMDLIST, 1) case 6 => (ECMD, 1) case 7 => (EXPLAIN_OPT, 2)
    case 8 => (ON, 39) case 9 => (DELETE, 40) case 10 => (DEFAULT, 41) case 11 => (PLUS, 13)
    case 12 => (MINUS, 12) case 13 => (INTEGER, 42) case 14 => (FLOAT, 42) case 15 => (ID, 34)
    case 16 => (INDEXED, 34) case 17 => (STRING, 35) case 18 => (JOIN_KW, 36) case 19 => (NM, 22)
    case 20 => (PRAGMA, 5) case 21 => (NMNUM, 22) case 22 => (PLUS_NUM, 22) case 23 => (MINUS_NUM, 24)
    case 24 => (NM, 14) case 25 => (NM, 7) case 26 => (NMNUM, 14) case 27 => (PLUS_NUM, 14)
    case 28 => (MINUS_NUM, 15) case 29 => (EOF, 55) case 30 => (SEMI, 31) case 31 => (EXPLAIN, 3)
    case 32 => (SEMI, 31) case 33 => (EXPLAIN, 3) case 34 => (ECMD, 29) case 35 => (EXPLAIN_OPT, 2)
    case 36 => (QUERY, 6) case 37 => (CMDX, 4) case 38 => (CMD, 18) case 39 => (EQ, 10)
    case 40 => (LP, 11) case 41 => (INTEGER, 27) case 42 => (FLOAT, 27) case 43 => (INTEGER, 26)
    case 44 => (FLOAT, 26) case 45 => (SEMI, 32) case 46 => (PLAN, 17) case 47 => (DOT, 9)
    case 48 => (DBNM, 8) case 49 => (NM, 20) case 50 => (NO_CODE, 70) case 51 => (RP, 23)
    case _ => (RP, 25)
  }

  function ShiftOffset(s: nat): int {
    match s
    case 0 => 31 case 1 => 29 case 2 => 15 case 3 => 33 case 4 => 44 case 5 => 9 case 6 => 42 case 7 => 37
    case 8 => 28 case 9 => 9 case 10 => -6 case 11 => -6 case 12 => 22 case 13 => 24 case 14 => 38 case _ => 39
  }

  function ReduceOffset(s: nat): int {
    match s
    case 0 => -18 case 1 => 10 case 2 => 11 case 3 => -19 case 4 => -19 case 5 => -3 case 6 => -19 case 7 => 19
    case 8 => -19 case 9 => 21 case 10 => -9 case _ => -4
  }

  function DefaultAt(s: nat): nat {
    match s
    case 0 => 60 case 1 => 60 case 2 => 70 case 3 => 43 case 4 => 70 case 5 => 70 case 6 => 70 case 7 => 46
    case 8 => 48 case 9 => 70 case 10 => 70 case 11 => 70 case 12 => 70 case 13 => 70 case 14 => 70 case _ => 70
  }

  function Fallback(x: Symbol): Symbol {
    if EXPLAIN <= x <= PRAGMA then ID else 0
  }

  /** The tables for a stack of the given depth. */
  function Pragma(depth: nat): Tables {
    Tables(
      seq(53, i requires 0 <= i => Cell(i).1),
      seq(53, i requires 0 <= i => Cell(i).0),
      seq(16, s requires 0 <= s => ShiftOffset(s)),
      seq(12, s requires 0 <= s => ReduceOffset(s)),
      seq(16, s requires 0 <= s => DefaultAt(s)),
      seq(22, x requires 0 <= x => Fallback(x)),
      seq(27, r requires 0 <= r => RuleAt(r)),
      16, -6, 44, -19, ANY, 22, NO_CODE, INPUT, depth)
  }

  /** What is known beneath the top in each state. */
  function FramesAt(s: nat): seq<Frame> {
    match s
    case 1 => [Frame({CMDLIST, ECMD}, {0})]
    case 2 => EXPLAINED
    case 3 => [Frame({EXPLAIN}, {0, 1})]
    case 4 => [Frame({CMDX}, {2})] + EXPLAINED
    case 5 => [Frame({PRAGMA}, {2})] + EXPLAINED
    case 6 => [Frame({QUERY}, {3}), Frame({EXPLAIN}, {0, 1})]
    case 7 => NAMED
    case 8 => [Frame({DBNM}, {7})] + NAMED
    case 9 => [Frame({DOT}, {7})] + NAMED
    case 10 => [Frame({EQ}, {8}), Frame({DBNM}, {7})] + NAMED
    case 11 => [Frame({LP}, {8}), Frame({DBNM}, {7})] + NAMED
    case 12 => [Frame({MINUS}, {10, 11}), Frame({EQ, LP}, {8}), Frame({DBNM}, {7})] + NAMED
    case 13 => [Frame({PLUS}, {10, 11}), Frame({EQ, LP}, {8}), Frame({DBNM}, {7})] + NAMED
    case 14 => [Frame({NMNUM, PLUS_NUM, NM}, {11}), Frame({LP}, {8}), Frame({DBNM}, {7})] + NAMED
    case 15 => [Frame({MINUS_NUM}, {11}), Frame({LP}, {8}), Frame({DBNM}, {7})] + NAMED
    case _ => []
  }

  const EXPLAINED := [Frame({EXPLAIN_OPT}, {0, 1})]
  const NAMED := [Frame({NM}, {5}), Frame({PRAGMA}, {2})] + EXPLAINED

  function Known(): Certificate {
    seq(16, s requires 0 <= s => FramesAt(s))
  }

  lemma IsShaped(d: nat)
    requires 2 <= d
    ensures Pragma(d).Shaped() && SymbolsSplit(Pragma(d))
  {
  }

  // ---------------------------------------------------------------------------------------------
  // What the packed tables say

  /** Where a name is expected. */
  function NameEntry(x: Symbol): Option<nat> {
    if x == ID || x == INDEXED then Some(34) else if x == STRING then Some(35) else if x == JOIN_KW then Some(36)
    else None
  }

  /** Where a value is expected. */
  function ValueEntry(x: Symbol): Option<nat> {
    if ON <= x <= DEFAULT then Some(25 + x) else if x == PLUS then Some(13) else if x == MINUS then Some(12)
    else if x == INTEGER || x == FLOAT then Some(42) else NameEntry(x)
  }

  /** The explicit entries for terminals. */
  function TerminalEntry(s: nat, x: Symbol): Option<nat> {
    match s
    case 0 => if x == SEMI then Some(31) else if x == EXPLAIN then Some(3) else None
    case 1 => if x == EOF then Some(55) else if x == SEMI then Some(31) else if x == EXPLAIN then Some(3) else None
    case 2 => if x == PRAGMA then Some(5) else None
    case 3 => if x == QUERY then Some(6) else None
    case 4 => if x == SEMI then Some(32) else None
    case 5 => NameEntry(x)
    case 6 => if x == PLAN then Some(17) else None
    case 7 => if x == DOT then Some(9) else None
    case 8 => if x == EQ then Some(10) else if x == LP then Some(11) else None
    case 9 => NameEntry(x)
    case 10 => ValueEntry(x)
    case 11 => ValueEntry(x)
    case 12 => if x == INTEGER || x == FLOAT then Some(27) else None
    case 13 => if x == INTEGER || x == FLOAT then Some(26) else None
    case 14 => if x == RP then Some(23) else None
    case _ => if x == RP then Some(25) else None
  }

  function GotoEntry(s: nat, x: Symbol): Option<nat> {
    match s
    case 0 =>
      if x == INPUT then Some(71) else if x == CMDLIST || x == ECMD then Some(1)
      else if x == EXPLAIN_OPT then Some(2) else None
    case 1 => if x == ECMD then Some(29) else if x == EXPLAIN_OPT then Some(2) else None
    case 2 => if x == CMDX then Some(4) else if x == CMD then Some(18) else None
    case 5 => if x == NM then Some(7) else None
    case 7 => if x == DBNM then Some(8) else None
    case 9 => if x == NM then Some(20) else None
    case 10 => if NM == x || NMNUM <= x <= PLUS_NUM then Some(22) else if x == MINUS_NUM then Some(24) else None
    case 11 => if NM == x || NMNUM <= x <= PLUS_NUM then Some(14) else if x == MINUS_NUM then Some(15) else None
    case _ => None
  }

  lemma EntriesBelow4(d: nat, s: nat, x: Symbol)
    requires s < 4 && x < 22
    ensures Explicit(Pragma(d), s, x) == TerminalEntry(s, x)
  {
  }

  lemma EntriesFrom4(d: nat, s: nat, x: Symbol)
    requires 4 <= s < 8 && x < 22
    ensures Explicit(Pragma(d), s, x) == TerminalEntry(s, x)
  {
  }

  lemma EntriesFrom8(d: nat, s: nat, x: Symbol)
    requires 8 <= s < 12 && x < 22
    ensures Explicit(Pragma(d), s, x) == TerminalEntry(s, x)
  {
  }

  lemma EntriesFrom12(d: nat, s: nat, x: Symbol)
    requires 12 <= s < 16 && x < 22
    ensures Explicit(Pragma(d), s, x) == TerminalEntry(s, x)
  {
  }

  /** Names may be given by a fallback token; nowhere is there an entry for the wildcard. */
  function ShiftCode(s: nat, x: Symbol): nat {
    if TerminalEntry(s, x).Some? then TerminalEntry(s, x).value
    else if EXPLAIN <= x <= PRAGMA && TerminalEntry(s, ID).Some? then 34
    else DefaultAt(s)
  }

  lemma Entries(d: nat, s: nat, x: Symbol)
    requires s < 16 && x < 22
    ensures Explicit(Pragma(d), s, x) == TerminalEntry(s, x)
  {
    if s < 4 {
      EntriesBelow4(d, s, x);
    } else if s < 8 {
      EntriesFrom4(d, s, x);
    } else if s < 12 {
      EntriesFrom8(d, s, x);
    } else {
      EntriesFrom12(d, s, x);
    }
  }

  lemma Shifts(d: nat, s: nat, x: Symbol)
    requires s < 16 && x < 22
    ensures ShiftAction(Pragma(d), s, x) == ShiftCode(s, x)
  {
    hide Explicit;
    Entries(d, s, x);
    Entries(d, s, ID);
    Entries(d, s, ANY);
  }

  lemma GotosBelow8(d: nat, s: nat, x: Symbol)
    requires s < 8 && 22 <= x
    ensures Goto(Pragma(d), s, x) == GotoEntry(s, x)
  {
  }

  lemma Gotos(d: nat, s: nat, x: Symbol)
    requires 22 <= x
    ensures Goto(Pragma(d), s, x) == GotoEntry(s, x)
  {
    if s < 8 {
      GotosBelow8(d, s, x);
    }
  }

  function EntryFor(s: nat, x: Symbol): Option<nat> {
    if x < 22 then TerminalEntry(s, x) else GotoEntry(s, x)
  }

  function AllEntries(): Matrix {
    map s: nat, x: Symbol | s < 16 && x < 33 && EntryFor(s, x).Some? :: (s, x) := EntryFor(s, x).value
  }

  lemma EntryAt(s: nat, x: Symbol)
    requires s < 16 || 22 <= x
    ensures MatrixEntry(AllEntries(), s, x) == EntryFor(s, x)
  {
    assert EntryFor(s, x).Some? ==> s < 16 && x < 33;
  }

  /** The tables are a correct packing of the entries written out above. */
  lemma IsPacked(d: nat)
    requires 2 <= d
    ensures Packs(Pragma(d), AllEntries())
  {
    IsShaped(d);
    hide TerminalEntry, GotoEntry, AllEntries, Explicit, Goto;
    forall s: nat, x: Symbol | s < 16 && x < 22
      ensures Explicit(Pragma(d), s, x) == MatrixEntry(AllEntries(), s, x)
    {
      Entries(d, s, x);
      EntryAt(s, x);
    }
    forall s: nat, x: Symbol | 22 <= x
      ensures Goto(Pragma(d), s, x) == MatrixEntry(AllEntries(), s, x)
    {
      Gotos(d, s, x);
      EntryAt(s, x);
    }
    PackedByLookup(Pragma(d), AllEntries());
  }

  // ---------------------------------------------------------------------------------------------
  // The certificate

  /** A symbol may stand for itself, for its fallback, or for the left-hand side of a removed unit rule. */
  ghost predicate Stands(x: Symbol, alternatives: set<Symbol>) {
    || x in alternatives
    || (EXPLAIN <= x <= PRAGMA && ID in alternatives)
    || (x in {NM, PLUS_NUM} && NMNUM in alternatives)
    || (x == ECMD && CMDLIST in alternatives)
  }

  lemma StandsEnough(d: nat, x: Symbol, alternatives: set<Symbol>)
    requires Stands(x, alternatives)
    ensures StandsFor(Pragma(d), x, alternatives)
  {
    var t := Pragma(d);
    if x in alternatives {
      assert Chain(t, [], x, x);
    } else if EXPLAIN <= x <= PRAGMA && ID in alternatives {
      assert Chain(t, [], x, ID);
    } else {
      var r := if x == ECMD then 14 else if x == PLUS_NUM then 21 else 22;
      assert Chain(t, [], x, x) && [r][1..] == [] && UnitRemoved(t, r) && x in t.rules[r].rhs[0];
      assert Chain(t, [r], x, t.rules[r].lhs);
    }
  }

  /** Rule r may be reduced, in terms of the tables written out above. */
  ghost predicate Completes(frames: seq<Frame>, top: nat, r: nat) {
    && r < 27 && r !in {14, 21, 22}
    && var rhs, lhs := RuleAt(r).rhs, RuleAt(r).lhs;
    && |rhs| <= |frames|
    && (forall i, x | 0 <= i < |rhs| && x in frames[i].syms :: Stands(x, rhs[|rhs| - 1 - i]))
    && (rhs == [] ==> top < 16 && GotoEntry(top, lhs).Some?)
    && (rhs != [] ==> forall u | u in frames[|rhs| - 1].states :: u < 16 && GotoEntry(u, lhs).Some?)
  }

  lemma ReadyEnough(d: nat, frames: seq<Frame>, top: nat, r: nat)
    requires Completes(frames, top, r)
    ensures Reducible(Pragma(d), frames, top, r)
  {
    var t, rule := Pragma(d), RuleAt(r);
    assert t.rules[r] == rule && !rule.optimizedOut && 22 <= rule.lhs < 33 by { RuleFacts(d, r); }
    hide StandsFor, Stands, Goto, RuleAt;
    var n := |rule.rhs|;
    forall i, x | 0 <= i < n && x in frames[i].syms
      ensures StandsFor(t, x, rule.rhs[n - 1 - i])
    {
      StandsEnough(d, x, rule.rhs[n - 1 - i]);
    }
    if n == 0 {
      Gotos(d, top, rule.lhs);
    } else {
      forall u | u in frames[n - 1].states
        ensures HasGoto(t, u, r)
      {
        Gotos(d, u, rule.lhs);
      }
    }
  }

  lemma RuleFacts(d: nat, r: nat)
    requires r < 27
    ensures Pragma(d).rules[r] == RuleAt(r) && 22 <= RuleAt(r).lhs < 33
    ensures RuleAt(r).optimizedOut <==> r in {14, 21, 22}
  {
  }

  /** An action that pushes: the state entered knows no more than is true, or its rule may be reduced. */
  ghost predicate Enters(s: nat, x: Symbol, a: nat)
    requires s < 16
  {
    if a < 16 then a != 0 && Covers(FramesAt(a), [Frame({x}, {s})] + FramesAt(s))
    else 16 <= a < 43 && RuleAt(a - 16).rhs != [] && Completes([Frame({x}, {s})] + FramesAt(s), 0, a - 16)
  }

  lemma EntersEnough(d: nat, s: nat, x: Symbol, a: nat)
    requires s < 16 && Enters(s, x, a)
    ensures EnterOk(Pragma(d), Known(), s, x, a)
  {
    hide Completes, Reducible, Covers, RuleAt, FramesAt;
    assert Pushed(Known(), s, x) == [Frame({x}, {s})] + FramesAt(s);
    if 16 <= a < 43 {
      ReadyEnough(d, [Frame({x}, {s})] + FramesAt(s), 0, a - 16);
    }
  }

  lemma ShiftEntersBelow4(s: nat, x: Symbol)
    requires s < 4 && x < 22 && ShiftCode(s, x) < 43
    ensures Enters(s, x, ShiftCode(s, x))
  {
  }

  lemma ShiftEntersFrom4(s: nat, x: Symbol)
    requires 4 <= s < 7 && x < 22 && ShiftCode(s, x) < 43
    ensures Enters(s, x, ShiftCode(s, x))
  {
  }

  lemma ShiftEntersFrom7(s: nat, x: Symbol)
    requires 7 <= s < 10 && x < 22 && ShiftCode(s, x) < 43
    ensures Enters(s, x, ShiftCode(s, x))
  {
  }

  lemma ShiftEntersValue(s: nat, x: Symbol)
    requires 10 <= s < 12 && x < 22 && ShiftCode(s, x) < 43
    ensures Enters(s, x, ShiftCode(s, x))
  {
  }

  lemma ShiftEntersNumber(s: nat, x: Symbol)
    requires 12 <= s < 14 && x < 22 && ShiftCode(s, x) < 43
    ensures Enters(s, x, ShiftCode(s, x))
  {
  }

  lemma ShiftEntersParen(s: nat)
    requires 14 <= s < 16
    ensures Enters(s, RP, ShiftCode(s, RP))
  {
  }

  lemma GotoEntersBelow9(s: nat, x: Symbol)
    requires s < 9 && 22 <= x < 33 && GotoEntry(s, x).Some? && GotoEntry(s, x).value < 43
    ensures Enters(s, x, GotoEntry(s, x).value)
  {
  }

  lemma GotoEntersFrom9(s: nat, x: Symbol)
    requires 9 <= s < 16 && s != 11 && 22 <= x < 33 && GotoEntry(s, x).Some?
    ensures Enters(s, x, GotoEntry(s, x).value)
  {
  }

  lemma GotoEntersParen(x: Symbol)
    requires GotoEntry(11, x).Some?
    ensures Enters(11, x, GotoEntry(11, x).value)
  {
  }

  /** Where the default is a reduction, what it takes from the stack is known to be there. */
  lemma DefaultsComplete(s: nat, x: Symbol)
    requires s < 16 && x < 22 && 43 <= ShiftCode(s, x) < 70
    ensures Completes(FramesAt(s), s, ShiftCode(s, x) - 43)
  {
  }

  lemma ShiftsCertified(d: nat, s: nat, x: Symbol)
    requires s < 16 && x < 22
    ensures ShiftOk(Pragma(d), Known(), s, x, ShiftAction(Pragma(d), s, x))
  {
    hide ShiftAction, Completes, Enters, EnterOk, RuleAt, FramesAt, Reducible, TerminalEntry;
    Shifts(d, s, x);
    ShiftCodes(s, x);
    var a := ShiftCode(s, x);
    if a < 43 {
      assert Enters(s, x, a) by {
        if s < 4 {
          ShiftEntersBelow4(s, x);
        } else if s < 7 {
          ShiftEntersFrom4(s, x);
        } else if s < 10 {
          ShiftEntersFrom7(s, x);
        } else if s < 12 {
          ShiftEntersValue(s, x);
        } else if s < 14 {
          ShiftEntersNumber(s, x);
        } else {
          OnlyParen(s, x);
          ShiftEntersParen(s);
        }
      }
      EntersEnough(d, s, x, a);
    } else if a < 70 {
      DefaultsComplete(s, x);
      ReadyEnough(d, FramesAt(s), s, a - 43);
    }
  }

  lemma OnlyParen(s: nat, x: Symbol)
    requires 14 <= s < 16 && x < 22 && ShiftCode(s, x) < 43
    ensures x == RP
  {
  }

  lemma ShiftCodes(s: nat, x: Symbol)
    requires s < 16 && x < 22
    ensures ShiftCode(s, x) <= 70
  {
  }

  lemma GotosCertified(d: nat, s: nat, r: nat)
    requires s < 16 && r < 27 && HasGoto(Pragma(d), s, r)
    ensures var x := Pragma(d).rules[r].lhs; GotoOk(Pragma(d), Known(), s, x, Goto(Pragma(d), s, x).value)
  {
    hide Goto, Enters, EnterOk, RuleAt, FramesAt, GotoEntry;
    RuleFacts(d, r);
    var x := RuleAt(r).lhs;
    Gotos(d, s, x);
    var a := GotoEntry(s, x).value;
    GotoCodes(s, x);
    if a < 43 {
      if s < 9 {
        GotoEntersBelow9(s, x);
      } else if s == 11 {
        GotoEntersParen(x);
      } else {
        GotoEntersFrom9(s, x);
      }
      EntersEnough(d, s, x, a);
    }
  }

  lemma GotoCodes(s: nat, x: Symbol)
    requires GotoEntry(s, x).Some?
    ensures GotoEntry(s, x).value < 43 || (GotoEntry(s, x).value == 71 && s == 0 && x == INPUT)
  {
  }

  function Rank(x: Symbol): nat {
    if x == INPUT then 2 else if x in {CMDLIST, CMDX, NMNUM} then 1 else 0
  }

  /** Each rule has a position that cannot be empty, but for the two empty rules. */
  lemma IsRanked(d: nat)
    requires 2 <= d
    ensures Ranked(Pragma(d), {EXPLAIN_OPT, DBNM}, Rank)
  {
    IsShaped(d);
    var t, empty := Pragma(d), {EXPLAIN_OPT, DBNM};
    forall r | 0 <= r < |t.rules|
      ensures t.rules[r] == RuleAt(r)
      ensures t.rules[r].lhs !in empty ==> exists i :: 0 <= i < |t.rules[r].rhs| && t.rules[r].rhs[i] * empty == {}
      ensures forall i, y | 0 <= i < |t.rules[r].rhs| && y in t.rules[r].rhs[i] && 22 <= y
                && OthersEmpty(t.rules[r], i, empty) :: Rank(y) < Rank(t.rules[r].lhs)
    {
      RuleFacts(d, r);
      RuleRanked(r);
    }
  }

  /** A position, other than i if there are several, that cannot be empty. */
  function Solid(r: nat, i: nat): nat {
    if r == 16 then (if i == 1 then 2 else 1) else if r == 13 && i == 0 then 1 else 0
  }

  lemma RuleRanked(r: nat)
    requires r < 27
    ensures var rule, empty := RuleAt(r), {EXPLAIN_OPT, DBNM};
      && (rule.lhs !in empty ==> exists i :: 0 <= i < |rule.rhs| && rule.rhs[i] * empty == {})
      && (forall i, y | 0 <= i < |rule.rhs| && y in rule.rhs[i] && 22 <= y && OthersEmpty(rule, i, empty) ::
            Rank(y) < Rank(rule.lhs))
  {
    var rule, empty := RuleAt(r), {EXPLAIN_OPT, DBNM};
    if rule.lhs !in empty {
      SolidPosition(r, 1);
    }
    forall i, y | 0 <= i < |rule.rhs| && y in rule.rhs[i] && 22 <= y
      ensures OthersEmpty(rule, i, empty) ==> Rank(y) < Rank(rule.lhs)
    {
      SolidPosition(r, i);
      if Solid(r, i) == i {
        OneSymbol(r, i, y);
      }
    }
  }

  lemma SolidPosition(r: nat, i: nat)
    requires r < 27 && RuleAt(r).rhs != []
    ensures Solid(r, i) < |RuleAt(r).rhs| && RuleAt(r).rhs[Solid(r, i)] * {EXPLAIN_OPT, DBNM} == {}
  {
  }

  lemma OneSymbol(r: nat, i: nat, y: Symbol)
    requires r < 27 && i < |RuleAt(r).rhs| && y in RuleAt(r).rhs[i] && 22 <= y && Solid(r, i) == i
    ensures Rank(y) < Rank(RuleAt(r).lhs)
  {
  }

  /** The assumptions of every theorem about the parser are met by these tables. */
  lemma IsReady(d: nat)
    requires 2 <= d
    ensures Ready(Pragma(d), Known())
  {
    hide ShiftAction, Goto, ShiftOk, GotoOk, Ranked, Acyclic;
    var t := Pragma(d);
    IsShaped(d);
    forall s, x | 0 <= s < 16 && 0 <= x < 22
      ensures ShiftOk(t, Known(), s, x, ShiftAction(t, s, x))
    {
      ShiftsCertified(d, s, x);
    }
    forall s, r | 0 <= s < 16 && 0 <= r < 27 && HasGoto(t, s, r)
      ensures GotoOk(t, Known(), s, t.rules[r].lhs, Goto(t, s, t.rules[r].lhs).value)
    {
      GotosCertified(d, s, r);
    }
    IsRanked(d);
    RankedIsAcyclic(t, {EXPLAIN_OPT, DBNM}, Rank);
  }

  // ---------------------------------------------------------------------------------------------
  // A run: "PRAGMA query = plan ;" and end of input, with "query" and "plan" read as identifiers

  const WORD := [Token(PRAGMA, "PRAGMA"), Token(QUERY, "query"), Token(EQ, "="), Token(PLAN, "plan"), Token(SEMI, ";")]
  const END := Token(EOF, "")

  const EXPLAIN_NODE := Node(17, [])
  const QUERY_NODE := Node(18, [Leaf(WORD[1])])
  const DBNM_NODE := Node(3, [])
  const PLAN_NODE := Node(18, [Leaf(WORD[3])])
  const CMD_KIDS := [Leaf(WORD[0]), QUERY_NODE, DBNM_NODE, Leaf(WORD[2]), PLAN_NODE]
  const CMDX_NODE := Node(2, [Node(6, CMD_KIDS)])
  const ECMD_NODE := Node(16, [EXPLAIN_NODE, CMDX_NODE, Leaf(WORD[4])])

  const AT_EXPLAIN: Stack := [BASE] + [Entry(2, EXPLAIN_OPT, EXPLAIN_NODE)]
  const AT_PRAGMA: Stack := AT_EXPLAIN + [Entry(5, PRAGMA, Leaf(WORD[0]))]
  const AT_QUERY: Stack := AT_PRAGMA + [Entry(61, QUERY, Leaf(WORD[1]))]
  const AT_NM: Stack := AT_PRAGMA + [Entry(7, NM, QUERY_NODE)]
  const AT_DBNM: Stack := AT_NM + [Entry(8, DBNM, DBNM_NODE)]
  const AT_EQ: Stack := AT_DBNM + [Entry(10, EQ, Leaf(WORD[2]))]
  const AT_PLAN: Stack := AT_EQ + [Entry(61, PLAN, Leaf(WORD[3]))]
  const AT_NMNUM: Stack := AT_EQ + [Entry(49, NM, PLAN_NODE)]
  const AT_CMD: Stack := AT_EXPLAIN + [Entry(45, CMD, Node(6, CMD_KIDS))]
  const AT_CMDX: Stack := AT_EXPLAIN + [Entry(4, CMDX, CMDX_NODE)]
  const AT_SEMI: Stack := AT_CMDX + [Entry(59, SEMI, Leaf(WORD[4]))]
  const AT_ECMD: Stack := [BASE] + [Entry(1, ECMD, ECMD_NODE)]

  ghost predicate Fine(d: nat, k: Stack) {
    Ready(Pragma(d), Known()) && StackOk(Pragma(d), Known(), k)
  }

  ghost function CallOf(d: nat, k: Stack, tok: Token): Result
    requires Fine(d, k) && tok.code < 22
  {
    Call(Pragma(d), Known(), k, tok)
  }

  ghost predicate Codes(toks: seq<Token>) {
    forall i | 0 <= i < |toks| :: toks[i].code < 22
  }

  ghost function RunOf(d: nat, toks: seq<Token>): Result
    requires Fine(d, [BASE]) && Codes(toks)
  {
    Run(Pragma(d), Known(), [BASE], toks)
  }

  function Lookup(stateno: nat, x: Symbol): nat {
    if 43 <= stateno then stateno else ShiftCode(stateno, x)
  }

  lemma Decides(d: nat, k: Stack, tok: Token)
    requires Fine(d, k) && tok.code < 22
    ensures k != [] && (Top(k).stateno < 16 || 43 <= Top(k).stateno)
    ensures Decide(Pragma(d), Known(), k, tok.code) == TurnFor(Pragma(d), Lookup(Top(k).stateno, tok.code))
  {
    hide Certified, Acyclic, ActionOk, ShiftAction, ShiftCode;
    ActionPossible(Pragma(d), Known(), k, tok.code);
    if Top(k).stateno < 16 {
      Shifts(d, Top(k).stateno, tok.code);
    }
  }

  /** A turn that shifts its token. */
  lemma ShiftTurn(d: nat, k: Stack, tok: Token, a: nat)
    requires Fine(d, k) && tok.code < 22 && |k| < d && a < 43
    requires k != [] && a == Lookup(Top(k).stateno, tok.code)
    ensures var k' := k + [Entry(if a < 16 then a else a + 27, tok.code, Leaf(tok))];
      Fine(d, k') && CallOf(d, k, tok) == Result(k', [Shifted(tok)])
  {
    hide Certified, Acyclic, StackOk, Decide, Fits, ShiftCode;
    Decides(d, k, tok);
    StepProgress(Pragma(d), Known(), k, tok);
  }

  /** The entries that rule r takes off k, leaving "below", hold args. */
  ghost predicate Pops(k: Stack, r: nat, below: Stack, args: seq<Tree>) {
    below != [] && below <= k && |k| == |below| + |RuleAt(r).rhs| && Minors(k[|below|..]) == args
  }

  lemma PopsNone(k: Stack, r: nat)
    requires k != [] && RuleAt(r).rhs == []
    ensures Pops(k, r, k, [])
  {
  }

  lemma PopsOne(below: Stack, e: Entry, r: nat)
    requires below != [] && |RuleAt(r).rhs| == 1
    ensures Pops(below + [e], r, below, [e.minor])
  {
  }

  /** A turn that reduces to a non-terminal, on a stack with room for it. */
  lemma ReduceTurn(d: nat, k: Stack, tok: Token, r: nat, below: Stack, args: seq<Tree>, a: nat)
    requires Fine(d, k) && tok.code < 22 && r < 27 && k != [] && Lookup(Top(k).stateno, tok.code) == 43 + r
    requires Pops(k, r, below, args) && |below| < d
    requires GotoEntry(Top(below).stateno, RuleAt(r).lhs) == Some(a) && a < 43
    ensures var k' := below + [Entry(if a < 16 then a else a + 27, RuleAt(r).lhs, Node(r, args))];
      && Fine(d, k')
      && Step(Pragma(d), Known(), k, tok) == Outcome(k', [Reduced(r, args)], false)
      && var rest := CallOf(d, k', tok);
         CallOf(d, k, tok) == Result(rest.stack, [Reduced(r, args)] + rest.events)
  {
    hide Certified, Acyclic, StackOk, Decide, Fits, ReduceReady, ShiftCode, Goto, GotoEntry, RuleAt;
    Decides(d, k, tok);
    StepProgress(Pragma(d), Known(), k, tok);
    RuleFacts(d, r);
    Gotos(d, Top(below).stateno, RuleAt(r).lhs);
    assert k[..|below|] == below && k[|below| - 1] == Top(below);
  }

  lemma CallPragma(d: nat)
    requires Fine(d, [BASE]) && 3 <= d
    ensures Fine(d, AT_PRAGMA)
    ensures CallOf(d, [BASE], WORD[0]) == Result(AT_PRAGMA, [Reduced(17, []), Shifted(WORD[0])])
  {
    hide Fine;
    PopsNone([BASE], 17);
    ReduceTurn(d, [BASE], WORD[0], 17, [BASE], [], 2);
    ShiftTurn(d, AT_EXPLAIN, WORD[0], 5);
  }

  lemma CallQuery(d: nat)
    requires Fine(d, AT_PRAGMA) && 4 <= d
    ensures Fine(d, AT_QUERY)
    ensures CallOf(d, AT_PRAGMA, WORD[1]) == Result(AT_QUERY, [Shifted(WORD[1])])
  {
    hide Fine;
    ShiftTurn(d, AT_PRAGMA, WORD[1], 34);
  }

  lemma QueryTurn(d: nat)
    requires Fine(d, AT_QUERY) && 4 <= d
    ensures Fine(d, AT_NM)
    ensures Step(Pragma(d), Known(), AT_QUERY, WORD[2]) == Outcome(AT_NM, [Reduced(18, QUERY_NODE.kids)], false)
    ensures CallOf(d, AT_QUERY, WORD[2]) ==
      Result(CallOf(d, AT_NM, WORD[2]).stack, [Reduced(18, QUERY_NODE.kids)] + CallOf(d, AT_NM, WORD[2]).events)
  {
    PopsOne(AT_PRAGMA, Entry(61, QUERY, Leaf(WORD[1])), 18);
    assert |AT_PRAGMA| == 3 && RuleAt(18).lhs == NM;
    hide Fine, Pops, RuleAt, ShiftCode;
    ReduceTurn(d, AT_QUERY, WORD[2], 18, AT_PRAGMA, QUERY_NODE.kids, 7);
  }

  lemma DbnmTurns(d: nat)
    requires Fine(d, AT_NM) && 6 <= d
    ensures Fine(d, AT_EQ) && CallOf(d, AT_NM, WORD[2]) == Result(AT_EQ, [Reduced(3, []), Shifted(WORD[2])])
  {
    PopsNone(AT_NM, 3);
    assert Lookup(7, EQ) == 46 && Lookup(8, EQ) == 10 && RuleAt(3).lhs == DBNM;
    hide Fine, Pops, RuleAt, Lookup;
    ReduceTurn(d, AT_NM, WORD[2], 3, AT_NM, [], 8);
    ShiftTurn(d, AT_DBNM, WORD[2], 10);
  }

  lemma CallEq(d: nat)
    requires Fine(d, AT_QUERY) && 6 <= d
    ensures Fine(d, AT_EQ)
    ensures CallOf(d, AT_QUERY, WORD[2]) ==
      Result(AT_EQ, [Reduced(18, QUERY_NODE.kids), Reduced(3, []), Shifted(WORD[2])])
  {
    QueryTurn(d);
    hide Fine, CallOf;
    DbnmTurns(d);
  }

  lemma CallPlan(d: nat)
    requires Fine(d, AT_EQ) && 7 <= d
    ensures Fine(d, AT_PLAN)
    ensures CallOf(d, AT_EQ, WORD[3]) == Result(AT_PLAN, [Shifted(WORD[3])])
  {
    hide Fine;
    ShiftTurn(d, AT_EQ, WORD[3], 34);
  }

  lemma PopsCmd()
    ensures Pops(AT_NMNUM, 6, AT_EXPLAIN, CMD_KIDS)
  {
    assert AT_NMNUM[2..] == [AT_NMNUM[2], AT_NMNUM[3], AT_NMNUM[4], AT_NMNUM[5], AT_NMNUM[6]];
  }

  lemma PopsEcmd()
    ensures Pops(AT_SEMI, 16, [BASE], ECMD_NODE.kids)
  {
    assert AT_SEMI[1..] == [AT_SEMI[1], AT_SEMI[2], AT_SEMI[3]];
  }

  /** The last value, whose unit rule is skipped. */
  lemma PlanTurn(d: nat)
    requires Fine(d, AT_PLAN) && 7 <= d
    ensures Fine(d, AT_NMNUM)
    ensures CallOf(d, AT_PLAN, WORD[4]) == Result(CallOf(d, AT_NMNUM, WORD[4]).stack,
      [Reduced(18, PLAN_NODE.kids)] + CallOf(d, AT_NMNUM, WORD[4]).events)
  {
    PopsOne(AT_EQ, Entry(61, PLAN, Leaf(WORD[3])), 18);
    assert |AT_EQ| == 6 && RuleAt(18).lhs == NM;
    hide Fine, Pops, RuleAt, ShiftCode, CallOf, AT_DBNM;
    ReduceTurn(d, AT_PLAN, WORD[4], 18, AT_EQ, PLAN_NODE.kids, 22);
  }

  lemma NmnumTurn(d: nat)
    requires Fine(d, AT_NMNUM) && 7 <= d
    ensures Fine(d, AT_CMD)
    ensures CallOf(d, AT_NMNUM, WORD[4]) == Result(CallOf(d, AT_CMD, WORD[4]).stack,
      [Reduced(6, CMD_KIDS)] + CallOf(d, AT_CMD, WORD[4]).events)
  {
    PopsCmd();
    assert |AT_EQ| == 6 && |AT_EXPLAIN| == 2 && RuleAt(6).lhs == CMD;
    hide Fine, Pops, RuleAt, ShiftCode, CallOf, AT_EQ;
    ReduceTurn(d, AT_NMNUM, WORD[4], 6, AT_EXPLAIN, CMD_KIDS, 18);
  }

  lemma CmdTurns(d: nat)
    requires Fine(d, AT_CMD) && 7 <= d
    ensures Fine(d, AT_SEMI)
    ensures CallOf(d, AT_CMD, WORD[4]) == Result(AT_SEMI, [Reduced(2, CMDX_NODE.kids), Shifted(WORD[4])])
  {
    PopsOne(AT_EXPLAIN, Entry(45, CMD, Node(6, CMD_KIDS)), 2);
    SemiShifts();
    assert |AT_EXPLAIN| == 2 && RuleAt(2).lhs == CMDX;
    hide Fine, Pops, RuleAt, ShiftCode, CallOf;
    ReduceTurn(d, AT_CMD, WORD[4], 2, AT_EXPLAIN, CMDX_NODE.kids, 4);
    ShiftTurn(d, AT_CMDX, WORD[4], 32);
  }

  /** Three pending reductions before the semicolon is shifted. */
  lemma CallSemi(d: nat)
    requires Fine(d, AT_PLAN) && 7 <= d
    ensures Fine(d, AT_SEMI)
    ensures CallOf(d, AT_PLAN, WORD[4]) ==
      Result(AT_SEMI, [Reduced(18, PLAN_NODE.kids), Reduced(6, CMD_KIDS), Reduced(2, CMDX_NODE.kids), Shifted(WORD[4])])
  {
    hide Fine, CallOf;
    PlanTurn(d);
    NmnumTurn(d);
    CmdTurns(d);
  }

  lemma SemiShifts()
    ensures Lookup(4, SEMI) == 32
  {
  }

  /** On end of input the last pending reduction runs, then the parser accepts. */
  lemma CallEnd(d: nat)
    requires Fine(d, AT_SEMI) && 7 <= d
    ensures CallOf(d, AT_SEMI, END) ==
      Result([BASE], [Reduced(16, ECMD_NODE.kids), Accepted(12, [ECMD_NODE])])
  {
    PopsEcmd();
    assert RuleAt(16).lhs == ECMD;
    hide Fine, Pops, RuleAt;
    ReduceTurn(d, AT_SEMI, END, 16, [BASE], ECMD_NODE.kids, 1);
    AcceptTurn(d, AT_ECMD, Entry(1, ECMD, ECMD_NODE));
  }

  lemma AcceptTurn(d: nat, k: Stack, e: Entry)
    requires Fine(d, k) && 2 <= d && k == [BASE] + [e] && e.stateno == 1
    ensures CallOf(d, k, END) == Result([BASE], [Accepted(12, [e.minor])])
  {
    assert Lookup(1, EOF) == 55 && RuleAt(12) == Rule(INPUT, [{CMDLIST}], false);
    hide Certified, Acyclic, StackOk, Decide, Fits, Goto, ShiftCode, RuleAt, Perform;
    Decides(d, k, END);
    StepProgress(Pragma(d), Known(), k, END);
    RuleFacts(d, 12);
    Gotos(d, 0, INPUT);
    assert k[..1] == [BASE] && Minors(k[1..]) == [e.minor];
    AcceptStep(Pragma(d), k, 12, END);
  }

  lemma AcceptStep(t: Tables, k: Stack, r: nat, tok: Token)
    requires Fits(t, k, Reduce(r)) && r < |t.rules| && t.rules[r].rhs != [] && |t.rules[r].rhs| < |k|
    requires var a := Goto(t, k[|k| - 1 - |t.rules[r].rhs|].stateno, t.rules[r].lhs);
      a.Some? && t.MaxShiftReduce() < a.value
    ensures var m := |k| - |t.rules[r].rhs|;
      Perform(t, k, Reduce(r), tok) == Outcome(k[..m], [Accepted(r, Minors(k[m..]))], true)
  {
    hide Goto, ValuesOk, ReduceReady;
  }

  lemma Begins(d: nat)
    requires 2 <= d
    ensures Fine(d, [BASE])
  {
    IsReady(d);
    BaseOk(Pragma(d), Known(), [BASE]);
  }

  lemma RunOneMore(d: nat, toks: seq<Token>, tok: Token)
    requires Fine(d, [BASE]) && Codes(toks) && tok.code < 22
    ensures Codes(toks + [tok]) && Fine(d, RunOf(d, toks).stack)
    ensures var before := RunOf(d, toks);
      var now := CallOf(d, before.stack, tok);
      RunOf(d, toks + [tok]) == Result(now.stack, before.events + now.events)
  {
    hide Certified, Acyclic, StackOk, Call;
    assert (toks + [tok])[..|toks|] == toks;
  }

  lemma RunNothing(d: nat)
    requires Fine(d, [BASE])
    ensures RunOf(d, []) == Result([BASE], [])
  {
    hide Certified, Acyclic, StackOk;
  }

  // The events of the successive calls
  const LOG_1 := [Reduced(17, []), Shifted(WORD[0])]
  const LOG_2 := LOG_1 + [Shifted(WORD[1])]
  const LOG_3 := LOG_2 + [Reduced(18, QUERY_NODE.kids), Reduced(3, []), Shifted(WORD[2])]
  const LOG_4 := LOG_3 + [Shifted(WORD[3])]
  const LOG_5 := LOG_4 +
    [Reduced(18, PLAN_NODE.kids), Reduced(6, CMD_KIDS), Reduced(2, CMDX_NODE.kids), Shifted(WORD[4])]

  /** After two tokens. */
  lemma RunToQuery(d: nat)
    requires Fine(d, [BASE]) && 4 <= d
    ensures Codes(WORD[..2]) && Fine(d, AT_QUERY) && RunOf(d, WORD[..2]) == Result(AT_QUERY, LOG_2)
  {
    hide Fine, CallOf, RunOf;
    RunNothing(d);
    CallPragma(d);
    RunOneMore(d, [], WORD[0]);
    assert [] + [WORD[0]] == WORD[..1] && WORD[..1] + [WORD[1]] == WORD[..2] && [] + LOG_1 == LOG_1;
    CallQuery(d);
    RunOneMore(d, WORD[..1], WORD[1]);
  }

  lemma RunToPlan(d: nat)
    requires Fine(d, [BASE]) && 7 <= d
    ensures Codes(WORD[..4]) && Fine(d, AT_PLAN) && RunOf(d, WORD[..4]) == Result(AT_PLAN, LOG_4)
  {
    hide Fine, CallOf, RunOf;
    RunToQuery(d);
    CallEq(d);
    RunOneMore(d, WORD[..2], WORD[2]);
    assert WORD[..2] + [WORD[2]] == WORD[..3] && WORD[..3] + [WORD[3]] == WORD[..4];
    CallPlan(d);
    RunOneMore(d, WORD[..3], WORD[3]);
  }

  lemma RunWord(d: nat)
    requires Fine(d, [BASE]) && 7 <= d
    ensures Codes(WORD) && Fine(d, AT_SEMI) && RunOf(d, WORD) == Result(AT_SEMI, LOG_5)
  {
    hide Fine, CallOf, RunOf;
    RunToPlan(d);
    assert WORD[..4] + [WORD[4]] == WORD;
    CallSemi(d);
    RunOneMore(d, WORD[..4], WORD[4]);
  }

  /** The whole run: five calls without incident, and a sixth that accepts.  So soundness applies, and the
      word has a derivation in which two of its keywords are identifiers. */
  lemma WordAccepted(d: nat) returns (q: Tree)
    requires 7 <= d
    ensures Fine(d, [BASE]) && Codes(WORD) && Uneventful(RunOf(d, WORD).events)
    ensures Fine(d, RunOf(d, WORD).stack) && Accepts(CallOf(d, RunOf(d, WORD).stack, END).events)
    ensures Derivation(Pragma(d), q) && Root(Pragma(d), q) == INPUT && Substituted(Pragma(d), WORD, Yield(q))
  {
    hide Fine, CallOf, RunOf, Derivation, Substituted;
    Begins(d);
    RunWord(d);
    CallEnd(d);
    assert Accepts(CallOf(d, AT_SEMI, END).events) by {
      assert CallOf(d, AT_SEMI, END).events[1].Accepted?;
    }
    q := Sound(d, WORD, END);
  }

  lemma Sound(d: nat, toks: seq<Token>, last: Token) returns (q: Tree)
    requires Fine(d, [BASE]) && Codes(toks) && last.code < 22 && Uneventful(RunOf(d, toks).events)
    requires Fine(d, RunOf(d, toks).stack) && Accepts(CallOf(d, RunOf(d, toks).stack, last).events)
    ensures Derivation(Pragma(d), q) && Root(Pragma(d), q) == INPUT && Substituted(Pragma(d), toks, Yield(q))
  {
    hide Certified, Acyclic, StackOk, Call, Run, Accepts, Uneventful, Derivation, Substituted;
    q := ParserSound(Pragma(d), Known(), [BASE], toks, last);
  }

  // ---------------------------------------------------------------------------------------------
  // A stack of four entries: the empty "dbnm" after "PRAGMA query" drops the value of the name

  lemma DropTurn(d: nat, tok: Token)
    requires d == 4 && Fine(d, AT_NM) && tok == WORD[2]
    ensures Decide(Pragma(d), Known(), AT_NM, tok.code) == Reduce(3) && LosesTop(Pragma(d), AT_NM, Reduce(3))
    ensures Step(Pragma(d), Known(), AT_NM, tok).done
  {
    assert Lookup(7, EQ) == 46;
    hide Certified, Acyclic, StackOk, Decide, ShiftCode, Lookup;
    Decides(d, AT_NM, tok);
    RuleFacts(d, 3);
  }

  ghost function LossesOf(d: nat, k: Stack, tok: Token): nat
    requires Fine(d, k) && tok.code < 22
  {
    CallLosses(Pragma(d), Known(), k, tok)
  }

  lemma DropEvents(d: nat, tok: Token)
    requires d == 4 && Fine(d, AT_NM) && tok == WORD[2]
    ensures Times(Lost, QUERY_NODE, CallOf(d, AT_NM, tok).events) == 1 && LossesOf(d, AT_NM, tok) == 1
  {
    hide Certified, Acyclic, StackOk, Decide, Perform, Fits, LosesTop, Times;
    DropTurn(d, tok);
    StepProgress(Pragma(d), Known(), AT_NM, tok);
    TurnBalances(Pragma(d), AT_NM, Reduce(3), tok, QUERY_NODE);
    assert Top(AT_NM).minor == QUERY_NODE;
  }

  lemma PendingLosesNothing(d: nat, k: Stack, tok: Token, k': Stack, events: Log)
    requires Fine(d, k) && tok.code < 22 && k != [] && Top(k).stateno == 61
    requires Step(Pragma(d), Known(), k, tok) == Outcome(k', events, false)
    ensures Fine(d, k') && LossesOf(d, k, tok) == LossesOf(d, k', tok)
  {
    Decides(d, k, tok);
    RuleFacts(d, 18);
    hide Certified, Acyclic, Decide, Perform, Fits, StackOk;
    NoLoss(Pragma(d), Known(), k, tok);
  }

  lemma CallDrop(d: nat)
    requires d == 4 && Fine(d, AT_QUERY)
    ensures Times(Lost, QUERY_NODE, CallOf(d, AT_QUERY, WORD[2]).events) == 1 && LossesOf(d, AT_QUERY, WORD[2]) == 1
  {
    var tok := WORD[2];
    QueryTurn(d);
    hide Fine, Step, Times, CallOf, LossesOf;
    DropEvents(d, tok);
    PendingLosesNothing(d, AT_QUERY, tok, AT_NM, [Reduced(18, QUERY_NODE.kids)]);
    OneEvent(QUERY_NODE, Reduced(18, QUERY_NODE.kids));
    TimesAppend(Lost, QUERY_NODE, [Reduced(18, QUERY_NODE.kids)], CallOf(d, AT_NM, tok).events);
  }

  lemma NothingLostYet()
    ensures Tally(IsDrop, LOG_2) == 0 && Times(Lost, QUERY_NODE, LOG_2) == 0
  {
    var v := LostIsDropped(LOG_2);
    hide Tally, Times;
    TallyAppend(IsDrop, LOG_1, [Shifted(WORD[1])]);
    TallyAppend(IsDrop, [Reduced(17, [])], [Shifted(WORD[0])]);
    assert LOG_1 == [Reduced(17, [])] + [Shifted(WORD[0])];
    TallyOne(IsDrop, Reduced(17, []));
    TallyOne(IsDrop, Shifted(WORD[0]));
    TallyOne(IsDrop, Shifted(WORD[1]));
  }

  /** The third call of the run loses the value of the name "query"; before it nothing was lost. */
  lemma ValueLost(d: nat)
    requires d == 4
    ensures Fine(d, [BASE]) && Codes(WORD[..2]) && Codes(WORD[..3])
    ensures Times(Lost, QUERY_NODE, RunOf(d, WORD[..3]).events) == 1
    ensures Tally(IsDrop, RunOf(d, WORD[..2]).events) == 0
  {
    hide Fine, CallOf, RunOf, Times, LossesOf, Tally;
    Begins(d);
    RunToQuery(d);
    assert WORD[..2] + [WORD[2]] == WORD[..3];
    CallDrop(d);
    RunOneMore(d, WORD[..2], WORD[2]);
    NothingLostYet();
    TimesAppend(Lost, QUERY_NODE, LOG_2, CallOf(d, AT_QUERY, WORD[2]).events);
  }
}
