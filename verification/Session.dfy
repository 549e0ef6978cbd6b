/** The session object: what it records of each write, and the changeset it makes of that. */
module Sessions {
  import opened Options
  import opened Changesets
  import opened Changegroups

  /** A write.  A key is None when one of its columns is NULL; such rows are not part of a session. */
  datatype Write =
    | InsertRow(key: Option<Key>, row: Row)
    | DeleteRow(key: Option<Key>)
    | UpdateRow(from: Option<Key>, to: Option<Key>, row: Row)

  /** A record holds the original row, or only says that the row was new. */
  datatype Record = Born | Was(row: Row)

  type Records = map<Key, Record>

  function AtMaybe(db: Database, k: Option<Key>): Slot {
    if k.None? then Absent else At(db, k.value)
  }

  function PutMaybe(db: Database, k: Option<Key>, s: Slot): Database {
    if k.None? then db else Put(db, k.value, s)
  }

  /** What there is at key k after the write. */
  ghost predicate Wrote(db: Database, w: Write, db': Database, k: Key) {
    match w
    case InsertRow(key, row) => At(db', k) == if key == Some(k) then Present(row) else At(db, k)
    case DeleteRow(key) => At(db', k) == if key == Some(k) then Absent else At(db, k)
    case UpdateRow(from, to, row) =>
      At(db', k) == if to == Some(k) then Present(row) else if from == Some(k) then Absent else At(db, k)
  }

  lemma AfterWrites(db: Database, w: Write, k: Key)
    ensures Wrote(db, w, After(db, w), k)
  {
  }

  /** The write inserts, updates or deletes a row with key k. */
  predicate Touches(w: Write, k: Key) {
    match w
    case InsertRow(key, _) => key == Some(k)
    case DeleteRow(key) => key == Some(k)
    case UpdateRow(from, to, _) => from == Some(k) || to == Some(k)
  }

  /** The write is one that SQLite would carry out, on rows of the width that each table has. */
  ghost predicate Possible(db: Database, w: Write, width: string -> nat) {
    match w
    case InsertRow(k, row) => AtMaybe(db, k) == Absent && (k.Some? ==> |row| == width(k.value.table))
    case DeleteRow(k) => k.Some? ==> AtMaybe(db, k).Present?
    case UpdateRow(from, to, row) =>
      && (from.Some? ==> AtMaybe(db, from).Present?)
      && (to != from ==> AtMaybe(db, to) == Absent)
      && (to.Some? ==> |row| == width(to.value.table))
  }

  function After(db: Database, w: Write): Database {
    match w
    case InsertRow(k, row) => PutMaybe(db, k, Present(row))
    case DeleteRow(k) => PutMaybe(db, k, Absent)
    case UpdateRow(from, to, row) => PutMaybe(PutMaybe(db, from, Absent), to, Present(row))
  }

  /** Data is recorded once for each key, when it is first touched. */
  function Note(recs: Records, k: Option<Key>, r: Record): Records {
    if k.None? || k.value in recs then recs else recs[k.value := r]
  }

  function Original(db: Database, k: Option<Key>): Record {
    match AtMaybe(db, k)
    case Absent => Born
    case Present(row) => Was(row)
  }

  /** An update that moves a row to another key counts as a delete and an insert. */
  function Recorded(recs: Records, db: Database, w: Write): Records {
    match w
    case InsertRow(k, _) => Note(recs, k, Born)
    case DeleteRow(k) => Note(recs, k, Original(db, k))
    case UpdateRow(from, to, _) =>
      if from == to then Note(recs, from, Original(db, from))
      else Note(Note(recs, from, Original(db, from)), to, Born)
  }

  /** The row that the record says the key had at first. */
  function Base(r: Record): Slot {
    match r
    case Born => Absent
    case Was(row) => Present(row)
  }

  /** The change for one record, by the four rules of the header. */
  function NetChange(r: Record, s: Slot): Option<Delta>
    requires r.Was? && s.Present? ==> |r.row| == |s.row|
  {
    match (r, s)
    case (Born, Absent) => None
    case (Born, Present(row)) => Some(Insert(row))
    case (Was(row), Absent) => Some(Delete(row))
    case (Was(a), Present(b)) => if a == b then None else Some(Update(Difference(a, b)))
  }

  ghost predicate Widths(db: Database, width: string -> nat) {
    forall k | k in db :: |db[k]| == width(k.table)
  }

  ghost predicate RecordWidths(recs: Records, width: string -> nat) {
    forall k | k in recs :: recs[k].Was? ==> |recs[k].row| == width(k.table)
  }

  /** d leads from one slot to another, which differs from it: an INSERT or a DELETE of the row, or an UPDATE
      of exactly the columns in which the rows differ. */
  ghost predicate Leads(d: Delta, from: Slot, to: Slot) {
    match (from, to)
    case (Absent, Present(row)) => d == Insert(row)
    case (Present(row), Absent) => d == Delete(row)
    case (Present(a), Present(b)) => |a| == |b| && a != b && Modifies(d, a, b)
    case _ => false
  }

  lemma NetChangeLeads(r: Record, s: Slot)
    requires r.Was? && s.Present? ==> |r.row| == |s.row|
    ensures if NetChange(r, s).None? then Base(r) == s else Leads(NetChange(r, s).value, Base(r), s)
  {
  }

  ghost predicate Comparable(recs: Records, db: Database) {
    forall k | k in recs :: recs[k].Was? && k in db ==> |recs[k].row| == |db[k]|
  }

  /** The changeset of a session, from its records and the current contents, as a group. */
  ghost function Net(recs: Records, db: Database): Group
    requires Comparable(recs, db)
  {
    map k | k in recs && NetChange(recs[k], At(db, k)).Some? :: NetChange(recs[k], At(db, k)).value
  }

  /** A change made for a record leads from the recorded row to the current one. */
  lemma NetChangeTakes(r: Record, s: Slot)
    requires r.Was? && s.Present? ==> |r.row| == |s.row|
    ensures ActAny(NetChange(r, s), Base(r)) == Some(s)
  {
    if r.Was? && s.Present? && r.row != s.row {
      assert NewValues(r.row, Difference(r.row, s.row)) == s.row;
    }
  }

  /** Whatever was recorded and when: the changeset leads from any database that has the recorded rows, to
      one that has the current rows at the recorded keys and is otherwise the same. */
  lemma NetTakes(recs: Records, current: Database, db: Database, db': Database)
    requires Comparable(recs, current)
    requires forall k | k in recs :: At(db, k) == Base(recs[k])
    requires forall k: Key :: At(db', k) == if k in recs then At(current, k) else At(db, k)
    ensures Takes(Net(recs, current), db, db')
  {
    var g := Net(recs, current);
    forall k: Key
      ensures if k in g then Act(g[k], At(db, k)) == Some(At(db', k)) else At(db', k) == At(db, k)
    {
      if k in recs {
        NetChangeTakes(recs[k], At(current, k));
      }
    }
  }

  // ---------------------------------------------------------------------------------------------
  // Runs

  datatype Status = Status(db: Database, recs: Records)

  function Run(db: Database, ws: seq<Write>): Status {
    if ws == [] then Status(db, map[])
    else
      var before := Run(db, ws[..|ws| - 1]);
      var w := ws[|ws| - 1];
      Status(After(before.db, w), Recorded(before.recs, before.db, w))
  }

  ghost predicate PossibleRun(db: Database, ws: seq<Write>, width: string -> nat) {
    forall n | 0 <= n < |ws| :: Possible(Run(db, ws[..n]).db, ws[n], width)
  }

  /** Records tell the initial contents; what has no record is as it was. */
  ghost predicate Faithful(db: Database, s: Status) {
    && (forall k | k in s.recs :: Base(s.recs[k]) == At(db, k))
    && (forall k: Key | k !in s.recs :: At(s.db, k) == At(db, k))
  }

  lemma AfterOneWrite(db: Database, s: Status, w: Write, width: string -> nat)
    requires Faithful(db, s) && Possible(s.db, w, width)
    ensures Faithful(db, Status(After(s.db, w), Recorded(s.recs, s.db, w)))
  {
    hide Base, At, Possible;
    var recs := Recorded(s.recs, s.db, w);
    forall k: Key
      ensures k in recs ==> Base(recs[k]) == At(db, k)
      ensures k !in recs ==> At(After(s.db, w), k) == At(db, k)
    {
      assert k !in s.recs ==> At(s.db, k) == At(db, k);
      OneKey(s, w, width, k);
    }
  }

  /** One key under one write: an old record stays, a new one holds what there was, and what is not recorded
      is not touched. */
  lemma OneKey(s: Status, w: Write, width: string -> nat, k: Key)
    requires Possible(s.db, w, width)
    ensures var recs := Recorded(s.recs, s.db, w);
      && (k in s.recs ==> k in recs && recs[k] == s.recs[k])
      && (k !in s.recs && k in recs ==> Base(recs[k]) == At(s.db, k))
      && (k !in recs ==> At(After(s.db, w), k) == At(s.db, k))
  {
  }

  lemma AfterKeepsWidths(s: Status, w: Write, width: string -> nat)
    requires Widths(s.db, width) && RecordWidths(s.recs, width) && Possible(s.db, w, width)
    ensures Widths(After(s.db, w), width) && RecordWidths(Recorded(s.recs, s.db, w), width)
  {
  }

  lemma {:induction false} RunFaithful(db: Database, ws: seq<Write>, width: string -> nat)
    requires Widths(db, width) && PossibleRun(db, ws, width)
    ensures Faithful(db, Run(db, ws))
    ensures Widths(Run(db, ws).db, width) && RecordWidths(Run(db, ws).recs, width)
    decreases |ws|
  {
    if ws != [] {
      var n := |ws| - 1;
      assert PossibleRun(db, ws[..n], width) by {
        assert forall m | 0 <= m < n :: ws[..n][..m] == ws[..m];
      }
      RunFaithful(db, ws[..n], width);
      AfterOneWrite(db, Run(db, ws[..n]), ws[n], width);
      AfterKeepsWidths(Run(db, ws[..n]), ws[n], width);
    }
  }

  /** For every run of inserts, updates and deletes with the session enabled, the changeset taken at the
      end, applied in any order to the contents at the start, gives the contents at the end. */
  lemma NetEffect(db: Database, ws: seq<Write>, width: string -> nat, cs: Changeset)
    requires Widths(db, width) && PossibleRun(db, ws, width)
    requires Comparable(Run(db, ws).recs, Run(db, ws).db) ==> Lists(cs, Net(Run(db, ws).recs, Run(db, ws).db))
    ensures Comparable(Run(db, ws).recs, Run(db, ws).db)
    ensures Apply(db, cs) == Some(Run(db, ws).db)
  {
    RunFaithful(db, ws, width);
    var s := Run(db, ws);
    NetTakes(s.recs, s.db, db, s.db);
    ApplyIsPointwise(db, cs, Net(s.recs, s.db), s.db);
  }

  /** The same changeset, from the initial and final contents alone: an INSERT for each row that is new, a
      DELETE for each that is gone, an UPDATE of the differing columns for each that differs.  So a row
      inserted and deleted again leaves no trace, and a row deleted and inserted again is an UPDATE. */
  lemma NetIsDifference(db: Database, ws: seq<Write>, width: string -> nat, k: Key)
    requires Widths(db, width) && PossibleRun(db, ws, width)
    ensures Comparable(Run(db, ws).recs, Run(db, ws).db)
    ensures var s := Run(db, ws);
      var net := Net(s.recs, s.db);
      (k in net <==> At(db, k) != At(s.db, k)) && (k in net ==> Leads(net[k], At(db, k), At(s.db, k)))
  {
    RunFaithful(db, ws, width);
    var s := Run(db, ws);
    if k in s.recs {
      NetChangeLeads(s.recs[k], At(s.db, k));
    } else {
      assert At(s.db, k) == At(db, k);
    }
  }

  /** There is a record for exactly the keys that some write has touched. */
  lemma {:induction false} RecordsAreTouched(db: Database, ws: seq<Write>, k: Key)
    ensures k in Run(db, ws).recs <==> exists n :: 0 <= n < |ws| && Touches(ws[n], k)
    decreases |ws|
  {
    if ws != [] {
      var n := |ws| - 1;
      RecordsAreTouched(db, ws[..n], k);
      assert forall m | 0 <= m < n :: ws[..n][m] == ws[m];
      var before := Run(db, ws[..n]);
      OneRecord(before.recs, before.db, ws[n], k);
    }
  }

  lemma OneRecord(recs: Records, db: Database, w: Write, k: Key)
    ensures k in Recorded(recs, db, w) <==> k in recs || Touches(w, k)
  {
  }

  /** Two sessions in a row: the merged changesets lead from the start of the first to the end of the second. */
  lemma TwoSessions(db: Database, ws: seq<Write>, xs: seq<Write>, width: string -> nat, m: Group)
    requires Widths(db, width) && PossibleRun(db, ws, width)
    requires PossibleRun(Run(db, ws).db, xs, width)
    requires Comparable(Run(db, ws).recs, Run(db, ws).db)
    requires var mid := Run(db, ws).db; Comparable(Run(mid, xs).recs, Run(mid, xs).db)
    requires var mid := Run(db, ws).db;
      var g, h := Net(Run(db, ws).recs, mid), Net(Run(mid, xs).recs, Run(mid, xs).db);
      Mergeable(g, h) && IsMerged(g, h, m)
    ensures Takes(m, db, Run(Run(db, ws).db, xs).db)
  {
    var first := Run(db, ws);
    RunFaithful(db, ws, width);
    NetTakes(first.recs, first.db, db, first.db);
    var second := Run(first.db, xs);
    RunFaithful(first.db, xs, width);
    NetTakes(second.recs, second.db, first.db, second.db);
    MergedTakes(Net(first.recs, first.db), Net(second.recs, second.db), m, db, first.db, second.db);
  }

  lemma NetLeads(recs: Records, db: Database)
    requires Comparable(recs, db)
    ensures forall k :: k in Net(recs, db) <==> k in recs && Base(recs[k]) != At(db, k)
    ensures forall k | k in Net(recs, db) :: Leads(Net(recs, db)[k], Base(recs[k]), At(db, k))
  {
    forall k | k in recs
      ensures k in Net(recs, db) <==> Base(recs[k]) != At(db, k)
      ensures k in Net(recs, db) ==> Leads(Net(recs, db)[k], Base(recs[k]), At(db, k))
    {
      NetChangeLeads(recs[k], At(db, k));
    }
  }

  // ---------------------------------------------------------------------------------------------
  // The object

  class Session {
    var enabled: bool
    var recs: Records

    constructor ()
      ensures enabled && recs == map[]
    {
      enabled := true;
      recs := map[];
    }

    /** sqlite3session_enable: a negative argument only asks. */
    method Enable(flag: int) returns (state: int)
      modifies this`enabled
      ensures enabled == (if flag < 0 then old(enabled) else flag != 0)
      ensures state == if enabled then 1 else 0
    {
      if 0 <= flag {
        enabled := flag != 0;
      }
      state := if enabled then 1 else 0;
    }

    /** Called for each write, with the contents before it. */
    method Observe(db: Database, w: Write)
      modifies this`recs
      ensures recs == if enabled then Recorded(old(recs), db, w) else old(recs)
    {
      if enabled {
        match w
        case InsertRow(k, _) =>
          NoteRow(k, Born);
        case DeleteRow(k) =>
          NoteRow(k, Original(db, k));
        case UpdateRow(from, to, _) =>
          NoteRow(from, Original(db, from));
          if from != to {
            NoteRow(to, Born);
          }
      }
    }

    method NoteRow(k: Option<Key>, r: Record)
      modifies this`recs
      ensures recs == Note(old(recs), k, r)
    {
      if k.Some? && k.value !in recs {
        recs := recs[k.value := r];
      }
    }

    /** sqlite3session_changeset: each record is compared with the current contents. */
    method MakeChangeset(db: Database) returns (cs: Changeset)
      requires Comparable(recs, db)
      ensures Lists(cs, Net(recs, db))
      ensures forall k :: k in Net(recs, db) <==> k in recs && Base(recs[k]) != At(db, k)
      ensures forall i | 0 <= i < |cs| :: cs[i].key in recs && Leads(cs[i].delta, Base(recs[cs[i].key]), At(db, cs[i].key))
    {
      NetLeads(recs, db);
      cs := [];
      var todo := recs.Keys;
      while todo != {}
        invariant todo <= recs.Keys
        invariant Lists(cs, Net(recs, db) - todo)
        decreases todo
      {
        var k :| k in todo;
        var d := NetChange(recs[k], At(db, k));
        if d.Some? {
          ListOne(cs, Net(recs, db), todo, k, d.value);
          cs := cs + [Change(k, d.value)];
        } else {
          assert Net(recs, db) - (todo - {k}) == Net(recs, db) - todo;
        }
        todo := todo - {k};
      }
      assert Net(recs, db) - {} == Net(recs, db);
    }
  }

  lemma ListOne(cs: Changeset, g: Group, todo: set<Key>, k: Key, d: Delta)
    requires Lists(cs, g - todo) && k in todo && k in g && g[k] == d
    ensures Lists(cs + [Change(k, d)], g - (todo - {k}))
  {
    var more := cs + [Change(k, d)];
    forall j | j in g - (todo - {k})
      ensures exists i :: 0 <= i < |more| && more[i].key == j
    {
      if j == k {
        assert more[|cs|].key == j;
      } else {
        assert j in g - todo;
        var i :| 0 <= i < |cs| && cs[i].key == j;
        assert more[i].key == j;
      }
    }
  }

  /** A session that watches a run from the start holds the records of the run. */
  method Watch(db: Database, ws: seq<Write>) returns (s: Session, end: Database)
    ensures fresh(s) && s.enabled && Status(end, s.recs) == Run(db, ws)
  {
    s := new Session();
    end := db;
    for n := 0 to |ws|
      invariant s.enabled && Status(end, s.recs) == Run(db, ws[..n]) && fresh(s)
    {
      s.Observe(end, ws[n]);
      end := After(end, ws[n]);
      assert ws[..n + 1][..n] == ws[..n];
    }
    assert ws[..|ws|] == ws;
  }
}
