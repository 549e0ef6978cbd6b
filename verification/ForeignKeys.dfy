/** The two bytes of a foreign key's actions. */
module ForeignKeys {

  /** refarg: MATCH name, ON INSERT action, ON DELETE action or ON UPDATE action. */
  datatype Clause = Match | OnInsert(action: bv32) | OnDelete(action: bv32) | OnUpdate(action: bv32)

  /** The value and mask that a refarg yields. */
  datatype Masked = Masked(value: bv32, mask: bv32)

  const OE_NONE: bv32 := 0

  function Refarg(c: Clause): Masked {
    match c
    case Match => Masked(0, 0)
    case OnInsert(_) => Masked(0, 0)
    case OnDelete(a) => Masked(a, 0x0000FF)
    case OnUpdate(a) => Masked(a << 8, 0x00FF00)
  }

  /** refargs ::= refargs refarg. */
  function Step(v: bv32, m: Masked): bv32 {
    (v & !m.mask) | m.value
  }

  function Refargs(cs: seq<Clause>): bv32 {
    if cs == [] then OE_NONE * 0x0101 else Step(Refargs(cs[..|cs| - 1]), Refarg(cs[|cs| - 1]))
  }

  /** The action of the last ON DELETE clause, OE_NONE if there is none. */
  function LastDelete(cs: seq<Clause>): bv32 {
    if cs == [] then OE_NONE
    else if cs[|cs| - 1].OnDelete? then cs[|cs| - 1].action
    else LastDelete(cs[..|cs| - 1])
  }

  function LastUpdate(cs: seq<Clause>): bv32 {
    if cs == [] then OE_NONE
    else if cs[|cs| - 1].OnUpdate? then cs[|cs| - 1].action
    else LastUpdate(cs[..|cs| - 1])
  }

  function ActionOf(c: Clause): bv32 {
    if c.OnDelete? || c.OnUpdate? then c.action else 0
  }

  ghost predicate Small(cs: seq<Clause>) {
    forall i | 0 <= i < |cs| :: ActionOf(cs[i]) < 0x100
  }

  /** Two bytes, packed. */
  function Pack(high: bv32, low: bv32): bv32 {
    (high << 8) | low
  }

  lemma StepDelete(high: bv32, low: bv32, a: bv32)
    requires high < 0x100 && low < 0x100 && a < 0x100
    ensures Step(Pack(high, low), Masked(a, 0x0000FF)) == Pack(high, a)
  {
  }

  lemma StepUpdate(high: bv32, low: bv32, a: bv32)
    requires high < 0x100 && low < 0x100 && a < 0x100
    ensures Step(Pack(high, low), Masked(a << 8, 0x00FF00)) == Pack(a, low)
  {
  }

  lemma StepOther(v: bv32)
    ensures Step(v, Masked(0, 0)) == v
  {
  }

  lemma PackBytes(high: bv32, low: bv32)
    requires high < 0x100 && low < 0x100
    ensures Pack(high, low) & 0xFF == low && (Pack(high, low) >> 8) & 0xFF == high && Pack(high, low) < 0x10000
  {
  }

  lemma {:induction false} LastSmall(cs: seq<Clause>)
    requires Small(cs)
    ensures LastDelete(cs) < 0x100 && LastUpdate(cs) < 0x100
    decreases |cs|
  {
    if cs != [] {
      assert ActionOf(cs[|cs| - 1]) < 0x100;
      LastSmall(cs[..|cs| - 1]);
    }
  }

  lemma {:induction false} RefargsPack(cs: seq<Clause>)
    requires Small(cs)
    ensures Refargs(cs) == Pack(LastUpdate(cs), LastDelete(cs))
    decreases |cs|
  {
    hide Step, Pack;
    if cs == [] {
      NothingPacked();
    } else {
      var n := |cs| - 1;
      assert ActionOf(cs[n]) < 0x100;
      RefargsPack(cs[..n]);
      LastSmall(cs[..n]);
      var high, low := LastUpdate(cs[..n]), LastDelete(cs[..n]);
      match cs[n]
      case OnDelete(a) => StepDelete(high, low, a);
      case OnUpdate(a) => StepUpdate(high, low, a);
      case _ => StepOther(Pack(high, low));
    }
  }

  lemma NothingPacked()
    ensures OE_NONE * 0x0101 == Pack(OE_NONE, OE_NONE)
  {
  }

  /** After any clauses the low byte is the last ON DELETE action and the next one the last ON UPDATE
      action; MATCH and ON INSERT leave no trace. */
  lemma ActionBytes(cs: seq<Clause>)
    requires Small(cs)
    ensures Refargs(cs) & 0xFF == LastDelete(cs) && (Refargs(cs) >> 8) & 0xFF == LastUpdate(cs)
    ensures Refargs(cs) < 0x10000
  {
    hide Pack;
    RefargsPack(cs);
    LastSmall(cs);
    PackBytes(LastUpdate(cs), LastDelete(cs));
  }
}
