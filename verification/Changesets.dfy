/** Changesets as the header documents them: applying, inverting and merging. */
module Changesets {
  import opened Options

  datatype Value = Null | Number(i: int) | Text(s: string)

  /** A row is identified by its table and the values of its primary key columns. */
  datatype Key = Key(table: string, pk: seq<Value>)

  /** The values of the other columns. */
  type Row = seq<Value>

  type Database = map<Key, Row>

  /** What there is at one primary key. */
  datatype Slot = Absent | Present(row: Row)

  function At(db: Database, k: Key): Slot {
    if k in db then Present(db[k]) else Absent
  }

  datatype Edit = Edit(was: Value, now: Value)

  /** A change to the row at one key.  An UPDATE carries only the columns it modifies. */
  datatype Delta = Insert(row: Row) | Delete(row: Row) | Update(cols: map<nat, Edit>)

  datatype Change = Change(key: Key, delta: Delta)

  type Changeset = seq<Change>

  function NewValues(row: Row, cols: map<nat, Edit>): (r: Row)
    ensures |r| == |row| && forall i | 0 <= i < |row| :: r[i] == if i in cols then cols[i].now else row[i]
  {
    seq(|row|, i requires 0 <= i < |row| => if i in cols then cols[i].now else row[i])
  }

  function OldValues(row: Row, cols: map<nat, Edit>): (r: Row)
    ensures |r| == |row| && forall i | 0 <= i < |row| :: r[i] == if i in cols then cols[i].was else row[i]
  {
    seq(|row|, i requires 0 <= i < |row| => if i in cols then cols[i].was else row[i])
  }

  predicate Before(row: Row, cols: map<nat, Edit>) {
    forall i | i in cols :: i < |row| && row[i] == cols[i].was
  }

  // ---------------------------------------------------------------------------------------------
  // Applying

  /** The effect of a change where the row is; None stands for a call of the conflict handler. */
  function Act(d: Delta, s: Slot): Option<Slot> {
    match d
    case Insert(row) => if s == Absent then Some(Present(row)) else None
    case Delete(row) => if s == Present(row) then Some(Absent) else None
    case Update(cols) => if s.Present? && Before(s.row, cols) then Some(Present(NewValues(s.row, cols))) else None
  }

  function Put(db: Database, k: Key, s: Slot): Database {
    match s
    case Absent => db - {k}
    case Present(row) => db[k := row]
  }

  /** Apply the changes in order; None at the first conflict. */
  function Apply(db: Database, cs: Changeset): Option<Database>
    decreases |cs|
  {
    if cs == [] then Some(db)
    else
      match Act(cs[0].delta, At(db, cs[0].key))
      case None => None
      case Some(s) => Apply(Put(db, cs[0].key, s), cs[1..])
  }

  /** At most one change for each row. */
  ghost predicate Distinct(cs: Changeset) {
    forall i, j | 0 <= i < j < |cs| :: cs[i].key != cs[j].key
  }

  type Group = map<Key, Delta>

  /** cs lists exactly the changes of the group, in some order. */
  ghost predicate Lists(cs: Changeset, g: Group) {
    && Distinct(cs)
    && (forall i | 0 <= i < |cs| :: cs[i].key in g && g[cs[i].key] == cs[i].delta)
    && (forall k | k in g :: exists i :: 0 <= i < |cs| && cs[i].key == k)
  }

  /** Every change of the group applies where it stands in db, and together they give db'. */
  ghost predicate Takes(g: Group, db: Database, db': Database) {
    forall k: Key :: if k in g then Act(g[k], At(db, k)) == Some(At(db', k)) else At(db', k) == At(db, k)
  }

  lemma AtPut(db: Database, k: Key, s: Slot, k': Key)
    ensures At(Put(db, k, s), k') == if k' == k then s else At(db, k')
  {
  }

  lemma SameDatabase(a: Database, b: Database)
    requires forall k: Key :: At(a, k) == At(b, k)
    ensures a == b
  {
    forall k: Key
      ensures k in a <==> k in b
      ensures k in a ==> a[k] == b[k]
    {
      assert At(a, k) == At(b, k);
    }
  }

  lemma TailLists(cs: Changeset, g: Group)
    requires cs != [] && Lists(cs, g)
    ensures Lists(cs[1..], g - {cs[0].key})
  {
    var rest := g - {cs[0].key};
    forall k | k in rest
      ensures exists i :: 0 <= i < |cs[1..]| && cs[1..][i].key == k
    {
      var i :| 0 <= i < |cs| && cs[i].key == k;
      assert cs[1..][i - 1].key == k;
    }
  }

  /** Applying any listing of a group succeeds exactly when each change applies where it stands, and
      gives the same database whatever the order. */
  lemma {:induction false} ApplyIsPointwise(db: Database, cs: Changeset, g: Group, db': Database)
    requires Lists(cs, g)
    ensures Apply(db, cs) == Some(db') <==> Takes(g, db, db')
    decreases |cs|
  {
    if cs == [] {
      if Takes(g, db, db') {
        SameDatabase(db, db');
      }
    } else {
      var k, d := cs[0].key, cs[0].delta;
      TailLists(cs, g);
      match Act(d, At(db, k))
      case None =>
      case Some(s) =>
        var mid := Put(db, k, s);
        ApplyIsPointwise(mid, cs[1..], g - {k}, db');
        forall k': Key
          ensures At(mid, k') == if k' == k then s else At(db, k')
        {
          AtPut(db, k, s, k');
        }
        TakesAfterFirst(g, k, db, mid, db', s);
    }
  }

  lemma TakesAfterFirst(g: Group, k: Key, db: Database, mid: Database, db': Database, s: Slot)
    requires k in g && Act(g[k], At(db, k)) == Some(s)
    requires forall k': Key :: At(mid, k') == if k' == k then s else At(db, k')
    ensures Takes(g - {k}, mid, db') <==> Takes(g, db, db')
  {
    var rest := g - {k};
    if Takes(rest, mid, db') {
      forall k': Key
        ensures if k' in g then Act(g[k'], At(db, k')) == Some(At(db', k')) else At(db', k') == At(db, k')
      {
        assert k' in rest <==> k' in g && k' != k;
      }
    }
    if Takes(g, db, db') {
      forall k': Key
        ensures if k' in rest then Act(rest[k'], At(mid, k')) == Some(At(db', k')) else At(db', k') == At(mid, k')
      {
        assert k' in rest <==> k' in g && k' != k;
      }
    }
  }

  // ---------------------------------------------------------------------------------------------
  // Inverting

  function Reverse(cols: map<nat, Edit>): map<nat, Edit> {
    map i | i in cols :: Edit(cols[i].now, cols[i].was)
  }

  function Inverse(d: Delta): Delta {
    match d
    case Insert(row) => Delete(row)
    case Delete(row) => Insert(row)
    case Update(cols) => Update(Reverse(cols))
  }

  /** sqlite3changeset_invert: the order is kept. */
  function Invert(cs: Changeset): (r: Changeset)
    ensures |r| == |cs| && forall i | 0 <= i < |cs| :: r[i] == Change(cs[i].key, Inverse(cs[i].delta))
  {
    seq(|cs|, i requires 0 <= i < |cs| => Change(cs[i].key, Inverse(cs[i].delta)))
  }

  lemma InverseUndoes(d: Delta, s: Slot, s': Slot)
    requires Act(d, s) == Some(s')
    ensures Act(Inverse(d), s') == Some(s)
    ensures Inverse(Inverse(d)) == d
  {
    if d.Update? {
      assert NewValues(s'.row, Reverse(d.cols)) == s.row;
      assert Reverse(Reverse(d.cols)) == d.cols;
    }
  }

  function GroupInverse(g: Group): Group {
    map k | k in g :: Inverse(g[k])
  }

  /** Applying the inverted changeset undoes the changeset, though the order is not reversed. */
  lemma InvertUndoes(db: Database, cs: Changeset, g: Group, db': Database)
    requires Lists(cs, g) && Apply(db, cs) == Some(db')
    ensures Apply(db', Invert(cs)) == Some(db)
  {
    ApplyIsPointwise(db, cs, g, db');
    var h := GroupInverse(g);
    assert Lists(Invert(cs), h);
    forall k: Key
      ensures if k in h then Act(h[k], At(db', k)) == Some(At(db, k)) else At(db, k) == At(db', k)
    {
      if k in g {
        InverseUndoes(g[k], At(db, k), At(db', k));
      }
    }
    ApplyIsPointwise(db', Invert(cs), h, db);
  }

  // ---------------------------------------------------------------------------------------------
  // Merging two changes to one row

  /** The columns in which two rows differ. */
  function Difference(a: Row, b: Row): map<nat, Edit>
    requires |a| == |b|
  {
    map i: nat | i < |a| && a[i] != b[i] :: Edit(a[i], b[i])
  }

  function Compose(first: map<nat, Edit>, second: map<nat, Edit>): map<nat, Edit> {
    map i | i in first.Keys + second.Keys ::
      Edit(if i in first then first[i].was else second[i].was, if i in second then second[i].now else first[i].now)
  }

  /** The rows have the same number of columns where it matters. */
  predicate SameWidth(d: Delta, e: Delta) {
    d.Delete? && e.Insert? ==> |d.row| == |e.row|
  }

  /** The table of sqlite3changegroup_add.  None means that no change to the row is left.  The DELETE that
      replaces an UPDATE carries the values the row had before the UPDATE. */
  function Merge(d: Delta, e: Delta): Option<Delta>
    requires SameWidth(d, e)
  {
    match (d, e)
    case (Insert(row), Update(cols)) => Some(Insert(NewValues(row, cols)))
    case (Insert(_), Delete(_)) => None
    case (Update(a), Update(b)) => Some(Update(Compose(a, b)))
    case (Update(cols), Delete(row)) => Some(Delete(OldValues(row, cols)))
    case (Delete(a), Insert(b)) => if a == b then None else Some(Update(Difference(a, b)))
    case _ => Some(d)
  }

  function ActAny(d: Option<Delta>, s: Slot): Option<Slot> {
    if d.None? then Some(s) else Act(d.value, s)
  }

  /** The merged change does what the two did one after the other. */
  lemma MergeComposes(d: Delta, e: Delta, s: Slot, s1: Slot, s2: Slot)
    requires SameWidth(d, e)
    requires Act(d, s) == Some(s1) && Act(e, s1) == Some(s2)
    ensures ActAny(Merge(d, e), s) == Some(s2)
  {
    match (d, e)
    case (Update(a), Update(b)) =>
      var c := Compose(a, b);
      assert Before(s.row, c);
      assert NewValues(s.row, c) == s2.row;
    case (Update(cols), Delete(row)) =>
      assert OldValues(row, cols) == s.row;
    case (Delete(a), Insert(b)) =>
      if a != b {
        assert NewValues(a, Difference(a, b)) == b;
      }
    case _ =>
  }

  /** d is an UPDATE of exactly the columns in which row b differs from row a, from one to the other. */
  ghost predicate Modifies(d: Delta, a: Row, b: Row)
    requires |a| == |b|
  {
    && d.Update?
    && (forall i: nat :: i in d.cols <==> i < |a| && a[i] != b[i])
    && (forall i: nat | i in d.cols :: d.cols[i].was == a[i] && d.cols[i].now == b[i])
  }

  /** Such an UPDATE applies to any row that agrees with a where the two differ, whatever else the row holds,
      and changes it there only. */
  lemma UpdateApplies(d: Delta, a: Row, b: Row, r: Row)
    requires |a| == |b| == |r| && Modifies(d, a, b)
    ensures Act(d, Present(r)).Some? <==> forall i | 0 <= i < |r| && a[i] != b[i] :: r[i] == a[i]
    ensures Act(d, Present(r)).Some? ==>
      && Act(d, Present(r)).value.Present?
      && var r' := Act(d, Present(r)).value.row;
         |r'| == |r| && forall i | 0 <= i < |r| :: r'[i] == if a[i] != b[i] then b[i] else r[i]
    ensures Act(d, Absent) == None
  {
  }

  /** A DELETE and an INSERT: nothing if the rows are the same, else an UPDATE of what differs. */
  lemma DeleteThenInsert(a: Row, b: Row)
    requires |a| == |b|
    ensures var m := Merge(Delete(a), Insert(b)); if a == b then m == None else m.Some? && Modifies(m.value, a, b)
  {
  }

  /** No change is left exactly if the row ends as it began, save that two UPDATEs are always kept as one. */
  lemma MergeDiscards(d: Delta, e: Delta, s: Slot, s1: Slot, s2: Slot)
    requires SameWidth(d, e)
    requires Act(d, s) == Some(s1) && Act(e, s1) == Some(s2)
    ensures Merge(d, e).None? <==> s2 == s && !(d.Update? && e.Update?)
  {
  }

  /** The merged change applies exactly where the two apply in turn, with the same effect, provided they fit
      together at all; but where a DELETE and an INSERT become an UPDATE, see UpdateApplies. */
  lemma MergeExact(d: Delta, e: Delta, s0: Slot, s1: Slot, s2: Slot, s: Slot)
    requires SameWidth(d, e) && !(d.Delete? && e.Insert?) && Merge(d, e).Some?
    requires Act(d, s0) == Some(s1) && Act(e, s1) == Some(s2)
    ensures Act(Merge(d, e).value, s) == (if Act(d, s).None? then None else Act(e, Act(d, s).value))
  {
    match (d, e)
    case (Update(a), Update(b)) => UpdatesExact(a, b, s0, s);
    case (Update(cols), Delete(row)) => UpdateDeleteExact(cols, row, s0, s);
    case _ =>
  }

  lemma UpdatesExact(a: map<nat, Edit>, b: map<nat, Edit>, s0: Slot, s: Slot)
    requires Act(Update(a), s0).Some? && Act(Update(b), Act(Update(a), s0).value).Some?
    ensures Act(Update(Compose(a, b)), s) ==
      if Act(Update(a), s).None? then None else Act(Update(b), Act(Update(a), s).value)
  {
    forall i | i in a && i in b
      ensures b[i].was == a[i].now
    {
      assert i < |s0.row|;
    }
    if s.Present? {
      var c := Compose(a, b);
      if Before(s.row, a) {
        var mid := NewValues(s.row, a);
        assert Before(mid, b) <==> Before(s.row, c) by { BeforeBoth(s.row, a, b); }
        if Before(mid, b) {
          assert NewValues(mid, b) == NewValues(s.row, c);
        }
      } else {
        assert !Before(s.row, c) by { BeforeBoth(s.row, a, b); }
      }
    }
  }

  lemma BeforeBoth(row: Row, a: map<nat, Edit>, b: map<nat, Edit>)
    requires forall i | i in a && i in b :: b[i].was == a[i].now
    ensures Before(row, Compose(a, b)) <==> Before(row, a) && Before(NewValues(row, a), b)
  {
    var c := Compose(a, b);
    if Before(row, c) {
      assert forall i | i in a :: i in c && c[i].was == a[i].was;
      assert forall i | i in b :: i in c;
    }
  }

  lemma UpdateDeleteExact(cols: map<nat, Edit>, row: Row, s0: Slot, s: Slot)
    requires Act(Update(cols), s0).Some? && Act(Delete(row), Act(Update(cols), s0).value).Some?
    ensures Act(Delete(OldValues(row, cols)), s) ==
      if Act(Update(cols), s).None? then None else Act(Delete(row), Act(Update(cols), s).value)
  {
    if s.Present? {
      OldIsBefore(row, cols, s.row);
    }
  }

  lemma OldIsBefore(row: Row, cols: map<nat, Edit>, r: Row)
    requires forall i | i in cols :: i < |row| && row[i] == cols[i].now
    ensures r == OldValues(row, cols) <==> Before(r, cols) && NewValues(r, cols) == row
  {
    if r == OldValues(row, cols) {
      assert NewValues(r, cols) == row;
    }
    if Before(r, cols) && NewValues(r, cols) == row {
      assert OldValues(row, cols) == r;
    }
  }

  /** The pairs of the table whose new change is ignored cannot both apply in turn. */
  lemma IgnoredCannotFollow(d: Delta, e: Delta, s: Slot, s1: Slot)
    requires Act(d, s) == Some(s1)
    requires (d.Insert? && e.Insert?) || (d.Update? && e.Insert?) || (d.Delete? && (e.Update? || e.Delete?))
    ensures Act(e, s1) == None && Merge(d, e) == Some(d)
  {
  }

  lemma ReverseSwapsValues(row: Row, cols: map<nat, Edit>)
    ensures OldValues(row, Reverse(cols)) == NewValues(row, cols)
    ensures NewValues(row, Reverse(cols)) == OldValues(row, cols)
  {
  }

  lemma ReverseOfCompose(a: map<nat, Edit>, b: map<nat, Edit>)
    ensures Compose(Reverse(b), Reverse(a)) == Reverse(Compose(a, b))
  {
  }

  lemma ReverseOfDifference(a: Row, b: Row)
    requires |a| == |b|
    ensures Difference(b, a) == Reverse(Difference(a, b))
  {
  }

  /** Merging the inverses the other way round gives the inverse of the merge. */
  lemma InverseOfMerge(d: Delta, e: Delta, s: Slot, s1: Slot, s2: Slot)
    requires SameWidth(d, e) && Act(d, s) == Some(s1) && Act(e, s1) == Some(s2)
    ensures SameWidth(Inverse(e), Inverse(d))
    ensures Merge(Inverse(e), Inverse(d)) ==
      if Merge(d, e).None? then None else Some(Inverse(Merge(d, e).value))
  {
    hide NewValues, OldValues, Compose, Reverse, Difference, Before;
    match (d, e)
    case (Insert(row), Update(cols)) => ReverseSwapsValues(row, cols);
    case (Update(a), Update(b)) => ReverseOfCompose(a, b);
    case (Update(cols), Delete(row)) => ReverseSwapsValues(row, cols);
    case (Delete(a), Insert(b)) => ReverseOfDifference(a, b);
    case _ =>
  }

  /** Had the new DELETE been kept as it is, it would apply to the original row exactly when the UPDATE had
      changed nothing. */
  lemma KeepingNewDelete(cols: map<nat, Edit>, row: Row)
    requires Before(row, cols)
    ensures Act(Delete(NewValues(row, cols)), Present(row)) == Some(Absent)
      <==> forall i | i in cols :: cols[i].was == cols[i].now
  {
    var r := NewValues(row, cols);
    if r == row {
      forall i | i in cols
        ensures cols[i].was == cols[i].now
      {
        assert r[i] == row[i];
      }
    }
    if forall i | i in cols :: cols[i].was == cols[i].now {
      assert r == row;
    }
  }

  lemma NewDeleteConflicts()
    ensures var row, cols := [Number(1)], map[0 := Edit(Number(1), Number(2))];
      && Act(Update(cols), Present(row)) == Some(Present([Number(2)]))
      && Act(Delete([Number(2)]), Present([Number(2)])) == Some(Absent)
      && Act(Delete([Number(2)]), Present(row)) == None
  {
    var cols := map[0 := Edit(Number(1), Number(2))];
    assert NewValues([Number(1)], cols) == [Number(2)];
  }
}
