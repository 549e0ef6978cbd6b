/** The changegroup object: changesets are added one after the other, and the output stands for all of them. */
module Changegroups {
  import opened Options
  import opened Changesets

  /** What a changeset records of a table: the number of other columns, and which columns are the key. */
  datatype Shape = Shape(width: nat, pk: seq<bool>)

  datatype Code = OK | SCHEMA

  /** A changeset as handed in: its tables with their shapes, in order, and its changes. */
  datatype Input = Input(tables: seq<string>, shapes: map<string, Shape>, changes: Changeset)

  predicate FitsWidth(d: Delta, w: nat) {
    match d
    case Insert(row) => |row| == w
    case Delete(row) => |row| == w
    case Update(cols) => forall i | i in cols :: i < w
  }

  ghost predicate TablesListed(tables: seq<string>, shapes: map<string, Shape>) {
    && (forall i | 0 <= i < |tables| :: tables[i] in shapes)
    && (forall t | t in shapes :: t in tables)
    && (forall i, j | 0 <= i < j < |tables| :: tables[i] != tables[j])
  }

  ghost predicate ValidInput(c: Input) {
    && TablesListed(c.tables, c.shapes)
    && Distinct(c.changes)
    && (forall i | 0 <= i < |c.changes| ::
          c.changes[i].key.table in c.shapes && FitsWidth(c.changes[i].delta, c.shapes[c.changes[i].key.table].width))
  }

  ghost predicate ShapedGroup(g: Group, shapes: map<string, Shape>) {
    forall k | k in g :: k.table in shapes && FitsWidth(g[k], shapes[k.table].width)
  }

  lemma ListOneMore(tables: seq<string>, shapes: map<string, Shape>, t: string, s: Shape)
    requires TablesListed(tables, shapes) && t !in shapes
    ensures TablesListed(tables + [t], shapes[t := s])
  {
  }

  /** Tables that occur on both sides have the same shape. */
  predicate Compatible(a: map<string, Shape>, b: map<string, Shape>) {
    forall t | t in a && t in b :: a[t] == b[t]
  }

  /** The tables among ts that are not known yet, in their order. */
  function NewTables(ts: seq<string>, known: map<string, Shape>): seq<string> {
    if ts == [] then []
    else
      var n := |ts| - 1;
      NewTables(ts[..n], known) + if ts[n] in known then [] else [ts[n]]
  }

  /** The shapes of the first n tables of a changeset. */
  ghost function ShapesOf(c: Input, n: nat): map<string, Shape>
    requires n <= |c.tables|
  {
    map t | t in c.shapes && t in c.tables[..n] :: c.shapes[t]
  }

  lemma NoShapes(c: Input, before: map<string, Shape>)
    ensures ShapesOf(c, 0) == map[] && NewTables(c.tables[..0], before) == []
  {
  }

  lemma AllShapes(c: Input)
    requires ValidInput(c)
    ensures ShapesOf(c, |c.tables|) == c.shapes
  {
    assert c.tables[..|c.tables|] == c.tables;
  }

  lemma NextShape(c: Input, n: nat)
    requires ValidInput(c) && n < |c.tables|
    ensures c.tables[n] in c.shapes
    ensures ShapesOf(c, n + 1) == ShapesOf(c, n)[c.tables[n] := c.shapes[c.tables[n]]]
  {
    assert c.tables[..n + 1] == c.tables[..n] + [c.tables[n]];
  }

  lemma PlusOne(a: map<string, Shape>, b: map<string, Shape>, t: string, s: Shape)
    requires t in a ==> a[t] == s
    requires t in b ==> b[t] == s
    ensures a + b[t := s] == if t in a + b then a + b else (a + b)[t := s]
  {
  }

  lemma NextNew(c: Input, n: nat, before: map<string, Shape>)
    requires ValidInput(c) && n < |c.tables|
    ensures var t := c.tables[n];
      && t !in ShapesOf(c, n)
      && NewTables(c.tables[..n + 1], before) == NewTables(c.tables[..n], before) + (if t in before then [] else [t])
  {
    assert c.tables[..n + 1][..n] == c.tables[..n];
  }

  lemma OneMoreShape(before: map<string, Shape>, c: Input, n: nat)
    requires ValidInput(c) && Compatible(before, c.shapes) && n < |c.tables|
    ensures var t, now := c.tables[n], before + ShapesOf(c, n);
      && t in c.shapes
      && before + ShapesOf(c, n + 1) == (if t in now then now else now[t := c.shapes[t]])
      && NewTables(c.tables[..n + 1], before) == NewTables(c.tables[..n], before) + (if t in now then [] else [t])
  {
    assert ShapesOf(c, n + 1) == ShapesOf(c, n)[c.tables[n] := c.shapes[c.tables[n]]] by { NextShape(c, n); }
    NextNew(c, n, before);
    hide ShapesOf, ValidInput, Compatible, NewTables;
    PlusOne(before, ShapesOf(c, n), c.tables[n], c.shapes[c.tables[n]]);
  }

  lemma MergeFits(d: Delta, e: Delta, w: nat)
    requires FitsWidth(d, w) && FitsWidth(e, w)
    ensures SameWidth(d, e) && (Merge(d, e).Some? ==> FitsWidth(Merge(d, e).value, w))
  {
  }

  function Set(g: Group, k: Key, d: Option<Delta>): Group {
    if d.None? then g - {k} else g[k := d.value]
  }

  /** What is left at one key of a group and a changeset added to it. */
  function MergedAt(g: Group, h: Group, k: Key): Option<Delta>
    requires k in g && k in h ==> SameWidth(g[k], h[k])
  {
    if k !in h then (if k in g then Some(g[k]) else None)
    else if k !in g then Some(h[k])
    else Merge(g[k], h[k])
  }

  /** A row inserted and deleted again, or deleted and inserted again as it was. */
  predicate Undoes(e: Delta, d: Delta) {
    (d.Insert? && e.Delete?) || (d.Delete? && e.Insert? && d.row == e.row)
  }

  /** Some change is left at k of a group and a changeset added to it. */
  predicate Stays(g: Group, h: Group, k: Key) {
    (k in g || k in h) && !(k in g && k in h && Undoes(h[k], g[k]))
  }

  lemma MergedNone(g: Group, h: Group, k: Key)
    requires k in g && k in h ==> SameWidth(g[k], h[k])
    ensures MergedAt(g, h, k).Some? <==> Stays(g, h, k)
  {
  }

  /** The keys of a merged group: those of either, but for the rows whose two changes undo each other. */
  lemma MergedKeys(g: Group, h: Group, m: Group, k: Key)
    requires Mergeable(g, h) && IsMerged(g, h, m)
    ensures k in m <==> Stays(g, h, k)
  {
    assert MergedAt(g, h, k) == if k in m then Some(m[k]) else None;
    MergedNone(g, h, k);
  }

  ghost predicate Mergeable(g: Group, h: Group) {
    forall k | k in g && k in h :: SameWidth(g[k], h[k])
  }

  ghost predicate IsMerged(g: Group, h: Group, m: Group)
    requires Mergeable(g, h)
  {
    forall k: Key :: MergedAt(g, h, k) == if k in m then Some(m[k]) else None
  }

  /** Adding a changeset that applies after the group has applied: the sum applies in one go. */
  lemma MergedTakes(g: Group, h: Group, m: Group, db: Database, db1: Database, db2: Database)
    requires Mergeable(g, h) && IsMerged(g, h, m)
    requires Takes(g, db, db1) && Takes(h, db1, db2)
    ensures Takes(m, db, db2)
  {
    forall k: Key
      ensures if k in m then Act(m[k], At(db, k)) == Some(At(db2, k)) else At(db2, k) == At(db, k)
    {
      assert MergedAt(g, h, k) == if k in m then Some(m[k]) else None;
      if k in g && k in h {
        MergeComposes(g[k], h[k], At(db, k), At(db1, k), At(db2, k));
      }
    }
  }

  function Listed(cs: Changeset): Group {
    if cs == [] then map[] else Listed(cs[..|cs| - 1])[cs[|cs| - 1].key := cs[|cs| - 1].delta]
  }

  lemma {:induction false} ListedLists(cs: Changeset)
    requires Distinct(cs)
    ensures Lists(cs, Listed(cs))
  {
    if cs != [] {
      var n := |cs| - 1;
      ListedLists(cs[..n]);
      forall k | k in Listed(cs)
        ensures exists i :: 0 <= i < |cs| && cs[i].key == k
      {
        if k != cs[n].key {
          var i :| 0 <= i < n && cs[..n][i].key == k;
          assert cs[i].key == k;
        }
      }
      forall i | 0 <= i < |cs|
        ensures cs[i].key in Listed(cs) && Listed(cs)[cs[i].key] == cs[i].delta
      {
        if i < n {
          assert cs[..n][i] == cs[i] && cs[i].key != cs[n].key;
        }
      }
    }
  }

  lemma NotYetListed(cs: Changeset, n: nat)
    requires Distinct(cs) && n < |cs|
    ensures cs[n].key !in Listed(cs[..n])
  {
    ListedLists(cs[..n]);
  }

  lemma ShapedMore(g: Group, shapes: map<string, Shape>, all: map<string, Shape>)
    requires ShapedGroup(g, shapes) && forall t | t in shapes :: t in all && all[t].width == shapes[t].width
    ensures ShapedGroup(g, all)
  {
  }

  lemma NextFits(c: Input, n: nat, all: map<string, Shape>)
    requires ValidInput(c) && n < |c.changes| && forall t | t in c.shapes :: t in all && all[t] == c.shapes[t]
    ensures c.changes[n].key.table in all && FitsWidth(c.changes[n].delta, all[c.changes[n].key.table].width)
  {
  }

  /** Adding one change for a row that the changeset has not mentioned before. */
  lemma AddOne(g: Group, h: Group, m: Group, shapes: map<string, Shape>, k: Key, e: Delta)
    requires Mergeable(g, h) && IsMerged(g, h, m) && ShapedGroup(m, shapes) && k !in h
    requires k.table in shapes && FitsWidth(e, shapes[k.table].width)
    ensures k in m ==> SameWidth(m[k], e)
    ensures var m' := Set(m, k, if k in m then Merge(m[k], e) else Some(e));
      Mergeable(g, h[k := e]) && IsMerged(g, h[k := e], m') && ShapedGroup(m', shapes)
  {
    assert MergedAt(g, h, k) == if k in m then Some(m[k]) else None;
    if k in m {
      MergeFits(m[k], e, shapes[k.table].width);
    }
    var m' := Set(m, k, if k in m then Merge(m[k], e) else Some(e));
    forall j: Key
      ensures j in g && j in h[k := e] ==> SameWidth(g[j], h[k := e][j])
      ensures MergedAt(g, h[k := e], j) == if j in m' then Some(m'[j]) else None
    {
      if j != k {
        assert MergedAt(g, h, j) == if j in m then Some(m[j]) else None;
      }
    }
  }

  method AddChanges(g: Group, c: Input, shapes: map<string, Shape>) returns (m: Group)
    requires ValidInput(c) && ShapedGroup(g, shapes)
    requires forall t | t in c.shapes :: t in shapes && shapes[t] == c.shapes[t]
    ensures ShapedGroup(m, shapes)
    ensures Mergeable(g, Listed(c.changes)) && IsMerged(g, Listed(c.changes), m)
  {
    m := g;
    for n := 0 to |c.changes|
      invariant ShapedGroup(m, shapes)
      invariant Mergeable(g, Listed(c.changes[..n])) && IsMerged(g, Listed(c.changes[..n]), m)
    {
      hide Mergeable, IsMerged, ShapedGroup;
      var k, e := c.changes[n].key, c.changes[n].delta;
      NotYetListed(c.changes, n);
      NextFits(c, n, shapes);
      AddOne(g, Listed(c.changes[..n]), m, shapes, k, e);
      m := Set(m, k, if k in m then Merge(m[k], e) else Some(e));
      assert c.changes[..n + 1][..n] == c.changes[..n];
    }
    assert c.changes[..|c.changes|] == c.changes;
  }

  class Changegroup {
    var tables: seq<string>
    var shapes: map<string, Shape>
    var group: Group

    ghost predicate Valid()
      reads this
    {
      TablesListed(tables, shapes) && ShapedGroup(group, shapes)
    }

    constructor ()
      ensures Valid() && group == map[] && tables == [] && shapes == map[]
    {
      tables := [];
      shapes := map[];
      group := map[];
    }

    /** sqlite3changegroup_add. */
    method Add(c: Input) returns (rc: Code)
      requires Valid() && ValidInput(c)
      modifies this
      ensures Valid()
      ensures rc == SCHEMA <==> !Compatible(old(shapes), c.shapes)
      ensures rc == OK ==>
        && shapes == old(shapes) + c.shapes && tables == old(tables) + NewTables(c.tables, old(shapes))
        && Mergeable(old(group), Listed(c.changes)) && IsMerged(old(group), Listed(c.changes), group)
      ensures rc == OK ==> forall k: Key :: k in group <==> Stays(old(group), Listed(c.changes), k)
    {
      if !Compatible(shapes, c.shapes) {
        return SCHEMA;
      }
      AddTables(c);
      ShapedMore(group, old(shapes), shapes);
      ghost var before := group;
      group := AddChanges(group, c, shapes);
      forall k: Key
        ensures k in group <==> Stays(before, Listed(c.changes), k)
      {
        MergedKeys(before, Listed(c.changes), group, k);
      }
      rc := OK;
    }

    /** New tables go to the end, in the order in which the changeset has them. */
    method AddTables(c: Input)
      requires Valid() && ValidInput(c) && Compatible(shapes, c.shapes)
      modifies this`tables, this`shapes
      ensures Valid() && shapes == old(shapes) + c.shapes
      ensures tables == old(tables) + NewTables(c.tables, old(shapes))
    {
      hide TablesListed, ShapedGroup, ShapesOf, NewTables;
      ghost var before := shapes;
      assert before + ShapesOf(c, 0) == before && NewTables(c.tables[..0], before) == [] by { NoShapes(c, before); }
      for n := 0 to |c.tables|
        invariant TablesListed(tables, shapes) && tables == old(tables) + NewTables(c.tables[..n], before)
        invariant shapes == before + ShapesOf(c, n)
      {
        var t := c.tables[n];
        OneMoreShape(before, c, n);
        if t !in shapes {
          ListOneMore(tables, shapes, t, c.shapes[t]);
          tables := tables + [t];
          shapes := shapes[t := c.shapes[t]];
        }
      }
      AllShapes(c);
      assert c.tables[..|c.tables|] == c.tables;
      ShapedMore(group, before, shapes);
    }

    /** sqlite3changegroup_output: the changes of a table together, the tables in order. */
    method Output() returns (cs: Changeset)
      requires Valid()
      ensures Lists(cs, group) && TablesInOrder(cs, tables)
    {
      hide Covers, TablesInOrder, ShapedGroup;
      cs := [];
      assert Covers(cs, group, tables[..0]) && TablesInOrder(cs, tables[..0]) by { NothingCovered(group, tables[..0]); }
      for n := 0 to |tables|
        invariant Covers(cs, group, tables[..n]) && TablesInOrder(cs, tables[..n])
      {
        var block := ChangesOf(tables[n]);
        assert tables[..n + 1] == tables[..n] + [tables[n]];
        CoversMore(cs, block, group, tables[..n], tables[n]);
        cs := cs + block;
      }
      assert tables[..|tables|] == tables;
      CoversAll(cs, group, tables, shapes);
    }

    method ChangesOf(t: string) returns (cs: Changeset)
      ensures Covers(cs, group, [t])
    {
      cs := [];
      var todo := set k | k in group && k.table == t;
      while todo != {}
        invariant forall k | k in todo :: k in group && k.table == t
        invariant Covers(cs, group - todo, [t])
        decreases todo
      {
        var k :| k in todo;
        CoversOne(cs, group, todo, k);
        cs := cs + [Change(k, group[k])];
        todo := todo - {k};
      }
      assert group - {} == group;
    }
  }

  /** cs lists exactly the changes that the group has for these tables. */
  ghost predicate Covers(cs: Changeset, g: Group, tables: seq<string>) {
    && Distinct(cs)
    && (forall i | 0 <= i < |cs| :: cs[i].key in g && g[cs[i].key] == cs[i].delta && cs[i].key.table in tables)
    && (forall k | k in g && k.table in tables :: exists i :: 0 <= i < |cs| && cs[i].key == k)
  }

  lemma NothingCovered(g: Group, tables: seq<string>)
    requires tables == []
    ensures Covers([], g, tables) && TablesInOrder([], tables)
  {
  }

  lemma CoversAll(cs: Changeset, g: Group, tables: seq<string>, shapes: map<string, Shape>)
    requires Covers(cs, g, tables) && TablesListed(tables, shapes) && ShapedGroup(g, shapes)
    ensures Lists(cs, g)
  {
    forall k | k in g
      ensures exists i :: 0 <= i < |cs| && cs[i].key == k
    {
      assert k.table in shapes;
    }
  }

  lemma CoversOne(cs: Changeset, g: Group, todo: set<Key>, k: Key)
    requires Covers(cs, g - todo, [k.table]) && k in todo && k in g
    ensures Covers(cs + [Change(k, g[k])], g - (todo - {k}), [k.table])
  {
    var more := cs + [Change(k, g[k])];
    forall j | j in g - (todo - {k}) && j.table == k.table
      ensures exists i :: 0 <= i < |more| && more[i].key == j
    {
      if j == k {
        assert more[|cs|].key == j;
      } else {
        assert j in g - todo;
        var i :| 0 <= i < |cs| && cs[i].key == j;
        assert more[i].key == j;
      }
    }
  }

  /** Earlier changes belong to tables that come no later. */
  ghost predicate TablesInOrder(cs: Changeset, tables: seq<string>) {
    forall i, j | 0 <= i < j < |cs| :: NoLater(tables, cs[i].key.table, cs[j].key.table)
  }

  ghost predicate NoLater(tables: seq<string>, s: string, t: string) {
    exists a, b :: 0 <= a <= b < |tables| && tables[a] == s && tables[b] == t
  }

  lemma CoversMore(cs: Changeset, block: Changeset, g: Group, tables: seq<string>, t: string)
    requires Covers(cs, g, tables) && TablesInOrder(cs, tables) && Covers(block, g, [t]) && t !in tables
    ensures Covers(cs + block, g, tables + [t]) && TablesInOrder(cs + block, tables + [t])
  {
    var both, more := cs + block, tables + [t];
    forall k | k in g && k.table in more
      ensures exists i :: 0 <= i < |both| && both[i].key == k
    {
      if k.table in tables {
        var i :| 0 <= i < |cs| && cs[i].key == k;
        assert both[i].key == k;
      } else {
        var i :| 0 <= i < |block| && block[i].key == k;
        assert both[|cs| + i].key == k;
      }
    }
    forall i, j | 0 <= i < j < |both|
      ensures both[i].key != both[j].key && NoLater(more, both[i].key.table, both[j].key.table)
    {
      assert more[|tables|] == t;
      if j < |cs| {
        assert NoLater(tables, cs[i].key.table, cs[j].key.table);
        var a, b :| 0 <= a <= b < |tables| && tables[a] == cs[i].key.table && tables[b] == cs[j].key.table;
        assert more[a] == tables[a] && more[b] == tables[b];
      } else if i < |cs| {
        var a :| 0 <= a < |tables| && tables[a] == cs[i].key.table;
        assert more[a] == tables[a];
      }
    }
  }

  /** sqlite3changeset_concat: whatever A followed by B does to a database, the result does in one go. */
  method Concat(a: Input, b: Input) returns (rc: Code, cs: Changeset)
    requires ValidInput(a) && ValidInput(b)
    ensures rc == SCHEMA <==> !Compatible(a.shapes, b.shapes)
    ensures rc == SCHEMA ==> cs == []
    ensures rc == OK ==> forall db, db1, db2 ::
      Apply(db, a.changes) == Some(db1) && Apply(db1, b.changes) == Some(db2) ==> Apply(db, cs) == Some(db2)
  {
    hide Takes, Lists, Apply, Stays, NewTables, IsMerged, Mergeable;
    var g := new Changegroup();
    rc := g.Add(a);
    assert g.shapes == a.shapes;
    ghost var first := g.group;
    rc := g.Add(b);
    cs := [];
    if rc == OK {
      cs := g.Output();
      forall db, db1, db2 | Apply(db, a.changes) == Some(db1) && Apply(db1, b.changes) == Some(db2)
        ensures Apply(db, cs) == Some(db2)
      {
        ListedLists(a.changes);
        ListedLists(b.changes);
        ApplyIsPointwise(db, a.changes, Listed(a.changes), db1);
        ApplyIsPointwise(db1, b.changes, Listed(b.changes), db2);
        NothingTakes(db);
        MergedTakes(map[], Listed(a.changes), first, db, db, db1);
        MergedTakes(first, Listed(b.changes), g.group, db, db1, db2);
        ApplyIsPointwise(db, cs, g.group, db2);
      }
    }
  }

  lemma NothingTakes(db: Database)
    ensures Takes(map[], db, db)
  {
  }

  /** Any number of changesets, each recorded where the one before it ended: the group that has taken them
      all in leads from the first database to the last. */
  lemma {:induction false} AllTogether(groups: seq<Group>, added: seq<Group>, dbs: seq<Database>)
    requires |groups| == |dbs| == |added| + 1 && groups[0] == map[]
    requires forall i | 0 <= i < |added| ::
      && Mergeable(groups[i], added[i]) && IsMerged(groups[i], added[i], groups[i + 1])
      && Takes(added[i], dbs[i], dbs[i + 1])
    ensures Takes(groups[|added|], dbs[0], dbs[|added|])
  {
    hide Mergeable, IsMerged, Takes;
    var n := |added|;
    if n == 0 {
      NothingTakes(dbs[0]);
    } else {
      AllTogether(groups[..n], added[..n - 1], dbs[..n]);
      MergedTakes(groups[n - 1], added[n - 1], groups[n], dbs[0], dbs[n - 1], dbs[n]);
    }
  }

  /** The databases before, between and after the changesets when each is applied in turn. */
  ghost predicate History(inputs: seq<Input>, dbs: seq<Database>) {
    |dbs| == |inputs| + 1 && forall i | 0 <= i < |inputs| :: Apply(dbs[i], inputs[i].changes) == Some(dbs[i + 1])
  }

  ghost predicate AllCompatible(inputs: seq<Input>) {
    forall i, j | 0 <= i < j < |inputs| :: Compatible(inputs[i].shapes, inputs[j].shapes)
  }

  /** "shapes" are those of the tables of all the changesets. */
  ghost predicate ShapesFrom(shapes: map<string, Shape>, inputs: seq<Input>) {
    && (forall i, t | 0 <= i < |inputs| && t in inputs[i].shapes :: t in shapes && shapes[t] == inputs[i].shapes[t])
    && (forall t | t in shapes :: exists i :: 0 <= i < |inputs| && t in inputs[i].shapes)
  }

  lemma NextCompatible(shapes: map<string, Shape>, inputs: seq<Input>, c: Input)
    requires ShapesFrom(shapes, inputs) && AllCompatible(inputs)
    ensures AllCompatible(inputs + [c]) <==> Compatible(shapes, c.shapes)
    ensures Compatible(shapes, c.shapes) ==> ShapesFrom(shapes + c.shapes, inputs + [c])
  {
    var more := inputs + [c];
    if AllCompatible(more) {
      forall t | t in shapes && t in c.shapes
        ensures shapes[t] == c.shapes[t]
      {
        var i :| 0 <= i < |inputs| && t in inputs[i].shapes;
        assert Compatible(more[i].shapes, more[|inputs|].shapes);
      }
    }
    if Compatible(shapes, c.shapes) {
      assert more[|inputs|] == c;
      forall t | t in shapes + c.shapes
        ensures exists i :: 0 <= i < |more| && t in more[i].shapes
      {
        if t !in c.shapes {
          var i :| 0 <= i < |inputs| && t in inputs[i].shapes;
          assert t in more[i].shapes;
        } else {
          assert t in more[|inputs|].shapes;
        }
      }
    }
  }

  /** The groups that a changegroup holds as the changesets are added one after the other. */
  ghost predicate Adds(groups: seq<Group>, inputs: seq<Input>) {
    && |groups| == |inputs| + 1 && groups[0] == map[]
    && forall i | 0 <= i < |inputs| ::
         && Mergeable(groups[i], Listed(inputs[i].changes))
         && IsMerged(groups[i], Listed(inputs[i].changes), groups[i + 1])
  }

  lemma AddsMore(groups: seq<Group>, inputs: seq<Input>, g: Group, c: Input)
    requires Adds(groups, inputs)
    requires Mergeable(groups[|inputs|], Listed(c.changes)) && IsMerged(groups[|inputs|], Listed(c.changes), g)
    ensures Adds(groups + [g], inputs + [c])
  {
    hide Mergeable, IsMerged;
  }

  lemma AddsTake(groups: seq<Group>, inputs: seq<Input>, dbs: seq<Database>)
    requires Adds(groups, inputs) && History(inputs, dbs) && forall i | 0 <= i < |inputs| :: ValidInput(inputs[i])
    ensures Takes(groups[|inputs|], dbs[0], dbs[|inputs|])
  {
    hide Mergeable, IsMerged, Takes, Lists, Apply;
    var added := seq(|inputs|, i requires 0 <= i < |inputs| => Listed(inputs[i].changes));
    forall i | 0 <= i < |added|
      ensures Takes(added[i], dbs[i], dbs[i + 1])
    {
      assert ValidInput(inputs[i]);
      ListedLists(inputs[i].changes);
      ApplyIsPointwise(dbs[i], inputs[i].changes, added[i], dbs[i + 1]);
    }
    AllTogether(groups, added, dbs);
  }

  lemma FewerCompatible(inputs: seq<Input>, n: nat)
    requires n <= |inputs|
    ensures AllCompatible(inputs) ==> AllCompatible(inputs[..n])
  {
    hide Compatible;
    if AllCompatible(inputs) {
      forall i, j | 0 <= i < j < n
        ensures Compatible(inputs[..n][i].shapes, inputs[..n][j].shapes)
      {
        assert Compatible(inputs[i].shapes, inputs[j].shapes);
      }
    }
  }

  /** Any number of calls of sqlite3changegroup_add, up to the first that fails. */
  method AddAll(g: Changegroup, inputs: seq<Input>) returns (rc: Code, ghost groups: seq<Group>)
    requires forall i | 0 <= i < |inputs| :: ValidInput(inputs[i])
    requires g.Valid() && g.group == map[] && g.shapes == map[]
    modifies g
    ensures g.Valid()
    ensures rc == if AllCompatible(inputs) then OK else SCHEMA
    ensures rc == OK ==> Adds(groups, inputs) && groups[|inputs|] == g.group
  {
    hide Adds, ShapesFrom, AllCompatible, Compatible, Mergeable, IsMerged, ValidInput;
    groups := [g.group];
    assert Adds(groups, inputs[..0]) && ShapesFrom(g.shapes, inputs[..0]) && AllCompatible(inputs[..0]) by {
      NothingAdded(inputs[..0]);
    }
    for n := 0 to |inputs|
      invariant g.Valid() && ShapesFrom(g.shapes, inputs[..n]) && AllCompatible(inputs[..n])
      invariant Adds(groups, inputs[..n]) && |groups| == n + 1 && groups[n] == g.group
    {
      assert inputs[..n + 1] == inputs[..n] + [inputs[n]];
      NextCompatible(g.shapes, inputs[..n], inputs[n]);
      FewerCompatible(inputs, n + 1);
      rc := g.Add(inputs[n]);
      if rc == SCHEMA {
        return;
      }
      AddsMore(groups, inputs[..n], g.group, inputs[n]);
      groups := groups + [g.group];
    }
    assert inputs[..|inputs|] == inputs;
    rc := OK;
  }

  lemma NothingAdded(none: seq<Input>)
    requires none == []
    ensures Adds([map[]], none) && ShapesFrom(map[], none) && AllCompatible(none)
  {
  }

  /** A changegroup that is fed any number of changesets and read once.  If the changesets can be applied in
      turn, the output leads from the first database to the last in one go. */
  method Combine(inputs: seq<Input>) returns (rc: Code, cs: Changeset)
    requires forall i | 0 <= i < |inputs| :: ValidInput(inputs[i])
    ensures rc == if AllCompatible(inputs) then OK else SCHEMA
    ensures rc == SCHEMA ==> cs == []
    ensures rc == OK ==> forall dbs | History(inputs, dbs) :: Apply(dbs[0], cs) == Some(dbs[|inputs|])
  {
    hide Adds, AllCompatible, Takes, Lists, Apply, ValidInput;
    cs := [];
    var g := new Changegroup();
    ghost var groups;
    rc, groups := AddAll(g, inputs);
    if rc == OK {
      cs := g.Output();
      forall dbs | History(inputs, dbs)
        ensures Apply(dbs[0], cs) == Some(dbs[|inputs|])
      {
        AddsTake(groups, inputs, dbs);
        ApplyIsPointwise(dbs[0], cs, g.group, dbs[|inputs|]);
      }
    }
  }

  /** In such a history no pair is one whose new change the table says to ignore. */
  lemma NothingIgnored(g: Group, h: Group, db: Database, db1: Database, db2: Database, k: Key)
    requires Takes(g, db, db1) && Takes(h, db1, db2) && k in g && k in h
    ensures !(g[k].Insert? && h[k].Insert?) && !(g[k].Update? && h[k].Insert?)
    ensures !(g[k].Delete? && h[k].Update?) && !(g[k].Delete? && h[k].Delete?)
  {
    if (g[k].Insert? && h[k].Insert?) || (g[k].Update? && h[k].Insert?) || (g[k].Delete? && (h[k].Update? || h[k].Delete?)) {
      IgnoredCannotFollow(g[k], h[k], At(db, k), At(db1, k));
    }
  }
}
