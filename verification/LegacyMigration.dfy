/** Consolidating a legacy ledger into the canonical one (continuation_store.py):
    a left-biased union of keyed tables under a remapping of instance ids. */
module LegacyMigration {
  import opened Domain
  import Adapter
  import Callbacks

  /** Row contents other than keys and ids are carried along unread. */
  type Data = string

  datatype Stored = Stored(id: nat, data: Data)
  datatype OutboxRow = OutboxRow(
    instance: nat, op: Operation, state: RowState, attempts: nat, nextAt: real, lastError: string, data: Data)

  /** The tables, by their unique indexes. Child tables are keyed by instance id
      and their own key. */
  datatype Tables = Tables(
    instances: map<Source, Stored>,
    steps: map<(nat, string), Data>,
    receipts: map<(nat, nat), Data>,
    events: map<(nat, nat), Data>,
    satisfactions: map<(nat, string), Data>,
    members: map<(nat, string), Data>,
    outbox: map<string, OutboxRow>,
    cursors: map<(string, string), int>,
    policies: map<(string, nat), Data>,
    cases: map<string, Data>,
    replies: map<(string, string, string), Data>,
    keys: map<string, Data>)

  /** A legacy file, row by row in the order it is read. */
  datatype Legacy = Legacy(
    instances: seq<(nat, Source, Data)>,
    steps: seq<(nat, string, Data)>,
    receipts: seq<(nat, nat, Data)>,
    events: seq<(nat, nat, Data)>,
    satisfactions: seq<(nat, string, Data)>,
    members: seq<(nat, string, Data)>,
    outbox: seq<(string, OutboxRow)>,
    cursors: seq<((string, string), int)>,
    policies: seq<((string, nat), Data)>,
    cases: seq<(string, Data)>,
    replies: seq<((string, string, string), Data)>,
    keys: seq<(string, Data)>)

  // ----- instances and the id map -----

  ghost predicate DistinctIds(instances: map<Source, Stored>, nextId: nat) {
    && (forall s :: s in instances ==> instances[s].id < nextId)
    && (forall s, t :: s in instances && t in instances && instances[s].id == instances[t].id ==> s == t)
  }

  /** A legacy file keeps its own unique indexes on id and source tuple. */
  ghost predicate LegacyKeys(rows: seq<(nat, Source, Data)>) {
    forall i, j :: 0 <= i < j < |rows| ==> rows[i].0 != rows[j].0 && rows[i].1 != rows[j].1
  }

  ghost predicate Keeps<K, V>(table: map<K, V>, table': map<K, V>) {
    forall k :: k in table ==> k in table' && table'[k] == table[k]
  }

  /** The first n legacy ids are mapped, each to the row of its source tuple. */
  ghost predicate MapsFirst(rows: seq<(nat, Source, Data)>, n: nat, idMap: map<nat, nat>, instances: map<Source, Stored>)
    requires n <= |rows|
  {
    && (forall i :: 0 <= i < n ==>
         && rows[i].0 in idMap && rows[i].1 in instances && idMap[rows[i].0] == instances[rows[i].1].id)
    && (forall id :: id in idMap ==> exists i :: 0 <= i < n && rows[i].0 == id)
  }

  ghost predicate MapsIds(rows: seq<(nat, Source, Data)>, idMap: map<nat, nat>, instances: map<Source, Stored>) {
    MapsFirst(rows, |rows|, idMap, instances)
  }

  lemma MapStep(rows: seq<(nat, Source, Data)>, n: nat, idMap: map<nat, nat>, before: map<Source, Stored>,
                after: map<Source, Stored>)
    requires n < |rows| && MapsFirst(rows, n, idMap, before) && Keeps(before, after) && rows[n].1 in after
    requires LegacyKeys(rows)
    ensures MapsFirst(rows, n + 1, idMap[rows[n].0 := after[rows[n].1].id], after)
  {
    var next := idMap[rows[n].0 := after[rows[n].1].id];
    forall id | id in next ensures exists i :: 0 <= i < n + 1 && rows[i].0 == id {
      if id == rows[n].0 {} else {
        var i :| 0 <= i < n && rows[i].0 == id;
      }
    }
  }

  /** Tuples that are new get the next ids, in order. */
  ghost function Joined(rows: seq<(nat, Source, Data)>, instances: map<Source, Stored>, nextId: nat): (map<Source, Stored>, nat) {
    if rows == [] then (instances, nextId)
    else
      var before, row := Joined(rows[..|rows| - 1], instances, nextId), rows[|rows| - 1];
      if row.1 in before.0 then before
      else (before.0[row.1 := Stored(before.1, row.2)], before.1 + 1)
  }

  lemma {:induction false} JoinedKeeps(rows: seq<(nat, Source, Data)>, instances: map<Source, Stored>, nextId: nat)
    requires DistinctIds(instances, nextId)
    ensures var r := Joined(rows, instances, nextId);
      && DistinctIds(r.0, r.1) && Keeps(instances, r.0)
      && (forall i :: 0 <= i < |rows| ==> rows[i].1 in r.0)
  {
    if rows != [] {
      var init := rows[..|rows| - 1];
      JoinedKeeps(init, instances, nextId);
      assert forall i :: 0 <= i < |init| ==> rows[i] == init[i];
    }
  }

  /** A new instance carries a legacy row's content, unchanged. */
  lemma {:induction false} JoinedFrom(rows: seq<(nat, Source, Data)>, instances: map<Source, Stored>, nextId: nat, s: Source)
    requires s in Joined(rows, instances, nextId).0 && s !in instances
    ensures exists i :: 0 <= i < |rows| && rows[i].1 == s && rows[i].2 == Joined(rows, instances, nextId).0[s].data
  {
    var init, row := rows[..|rows| - 1], rows[|rows| - 1];
    if s in Joined(init, instances, nextId).0 {
      JoinedFrom(init, instances, nextId, s);
      var i :| 0 <= i < |init| && init[i].1 == s && init[i].2 == Joined(init, instances, nextId).0[s].data;
      assert rows[i] == init[i];
    } else {
      assert rows[|rows| - 1].1 == s;
    }
  }

  lemma {:induction false} JoinedSettled(rows: seq<(nat, Source, Data)>, instances: map<Source, Stored>, nextId: nat)
    requires forall i :: 0 <= i < |rows| ==> rows[i].1 in instances
    ensures Joined(rows, instances, nextId) == (instances, nextId)
  {
    if rows != [] {
      var init := rows[..|rows| - 1];
      assert forall i :: 0 <= i < |init| ==> rows[i] == init[i];
      JoinedSettled(init, instances, nextId);
    }
  }

  method CopyInstances(rows: seq<(nat, Source, Data)>, instances: map<Source, Stored>, nextId: nat)
    returns (idMap: map<nat, nat>, out: map<Source, Stored>, next: nat, copied: nat)
    requires LegacyKeys(rows)
    ensures (out, next) == Joined(rows, instances, nextId)
    ensures MapsIds(rows, idMap, out)
    ensures |out| == |instances| + copied
  {
    hide MapsFirst, LegacyKeys, Keeps;
    idMap, out, next, copied := map[], instances, nextId, 0;
    NoneMapped(rows, out);
    for n := 0 to |rows|
      invariant (out, next) == Joined(rows[..n], instances, nextId)
      invariant MapsFirst(rows, n, idMap, out)
      invariant |out| == |instances| + copied
    {
      var (id, s, data) := rows[n];
      ghost var before := out;
      assert rows[..n + 1][..n] == rows[..n];
      if s !in out {
        out, next, copied := out[s := Stored(next, data)], next + 1, copied + 1;
      }
      Grows(before, s, out);
      MapStep(rows, n, idMap, before, out);
      idMap := idMap[id := out[s].id];
    }
    assert rows[..|rows|] == rows;
  }

  lemma NoneMapped(rows: seq<(nat, Source, Data)>, instances: map<Source, Stored>)
    ensures MapsFirst(rows, 0, map[], instances)
  {}

  lemma Grows(before: map<Source, Stored>, s: Source, after: map<Source, Stored>)
    requires s in after && after == if s in before then before else before[s := after[s]]
    ensures Keeps(before, after)
  {}

  /** Two legacy instances never share a canonical one. */
  lemma MapsApart(rows: seq<(nat, Source, Data)>, idMap: map<nat, nat>, instances: map<Source, Stored>, nextId: nat, a: nat, b: nat)
    requires MapsIds(rows, idMap, instances) && DistinctIds(instances, nextId) && LegacyKeys(rows)
    requires a in idMap && b in idMap && idMap[a] == idMap[b]
    ensures a == b
  {
    var i :| 0 <= i < |rows| && rows[i].0 == a;
    var j :| 0 <= j < |rows| && rows[j].0 == b;
    assert rows[i].1 == rows[j].1;
  }

  // ----- child tables -----

  /** Rows whose instance is mapped, under the new id, unless the key is taken. */
  ghost function Children<K, V>(rows: seq<(nat, K, V)>, idMap: map<nat, nat>, table: map<(nat, K), V>): map<(nat, K), V> {
    if rows == [] then table
    else
      var before, row := Children(rows[..|rows| - 1], idMap, table), rows[|rows| - 1];
      if row.0 !in idMap || (idMap[row.0], row.1) in before then before
      else before[(idMap[row.0], row.1) := row.2]
  }

  lemma {:induction false} ChildrenKeep<K, V>(rows: seq<(nat, K, V)>, idMap: map<nat, nat>, table: map<(nat, K), V>)
    ensures Keeps(table, Children(rows, idMap, table))
    ensures forall i :: 0 <= i < |rows| && rows[i].0 in idMap ==>
      (idMap[rows[i].0], rows[i].1) in Children(rows, idMap, table)
  {
    if rows != [] {
      var init := rows[..|rows| - 1];
      ChildrenKeep(init, idMap, table);
      assert forall i :: 0 <= i < |init| ==> rows[i] == init[i];
    }
  }

  ghost predicate Feeds<K, V>(row: (nat, K, V), idMap: map<nat, nat>, p: (nat, K), value: V) {
    row.0 in idMap && (idMap[row.0], row.1) == p && row.2 == value
  }

  /** Every added row is a legacy row's own content, at its remapped key. */
  lemma {:induction false} ChildrenFrom<K, V>(rows: seq<(nat, K, V)>, idMap: map<nat, nat>, table: map<(nat, K), V>, p: (nat, K))
    requires p in Children(rows, idMap, table) && p !in table
    ensures exists i :: 0 <= i < |rows| && Feeds(rows[i], idMap, p, Children(rows, idMap, table)[p])
  {
    var init, row := rows[..|rows| - 1], rows[|rows| - 1];
    if p in Children(init, idMap, table) {
      ChildrenFrom(init, idMap, table, p);
      var i :| 0 <= i < |init| && Feeds(init[i], idMap, p, Children(init, idMap, table)[p]);
      assert rows[i] == init[i];
    } else {
      assert Feeds(rows[|rows| - 1], idMap, p, Children(rows, idMap, table)[p]);
    }
  }

  lemma {:induction false} ChildrenSettled<K, V>(rows: seq<(nat, K, V)>, idMap: map<nat, nat>, table: map<(nat, K), V>)
    requires forall i :: 0 <= i < |rows| && rows[i].0 in idMap ==> (idMap[rows[i].0], rows[i].1) in table
    ensures Children(rows, idMap, table) == table
  {
    if rows != [] {
      var init := rows[..|rows| - 1];
      assert forall i :: 0 <= i < |init| ==> rows[i] == init[i];
      ChildrenSettled(init, idMap, table);
    }
  }

  /** insert or ignore, row by row. */
  method CopyChildren<K(==), V>(rows: seq<(nat, K, V)>, idMap: map<nat, nat>, table: map<(nat, K), V>)
    returns (out: map<(nat, K), V>, copied: nat)
    ensures out == Children(rows, idMap, table) && |out| == |table| + copied
  {
    out, copied := table, 0;
    for n := 0 to |rows|
      invariant out == Children(rows[..n], idMap, table) && |out| == |table| + copied
    {
      assert rows[..n + 1][..n] == rows[..n];
      var (id, key, value) := rows[n];
      if id in idMap && (idMap[id], key) !in out {
        out, copied := out[(idMap[id], key) := value], copied + 1;
      }
    }
    assert rows[..|rows|] == rows;
  }

  // ----- tables with a key of their own -----

  ghost function Keyed<K, V>(rows: seq<(K, V)>, table: map<K, V>): map<K, V> {
    if rows == [] then table
    else
      var before, row := Keyed(rows[..|rows| - 1], table), rows[|rows| - 1];
      if row.0 in before then before else before[row.0 := row.1]
  }

  lemma {:induction false} KeyedKeep<K, V>(rows: seq<(K, V)>, table: map<K, V>)
    ensures Keeps(table, Keyed(rows, table))
    ensures forall i :: 0 <= i < |rows| ==> rows[i].0 in Keyed(rows, table)
  {
    if rows != [] {
      var init := rows[..|rows| - 1];
      KeyedKeep(init, table);
      assert forall i :: 0 <= i < |init| ==> rows[i] == init[i];
    }
  }

  lemma {:induction false} KeyedSettled<K, V>(rows: seq<(K, V)>, table: map<K, V>)
    requires forall i :: 0 <= i < |rows| ==> rows[i].0 in table
    ensures Keyed(rows, table) == table
  {
    if rows != [] {
      var init := rows[..|rows| - 1];
      assert forall i :: 0 <= i < |init| ==> rows[i] == init[i];
      KeyedSettled(init, table);
    }
  }

  method CopyKeyed<K(==), V>(rows: seq<(K, V)>, table: map<K, V>) returns (out: map<K, V>, copied: nat)
    ensures out == Keyed(rows, table) && |out| == |table| + copied
  {
    out, copied := table, 0;
    for n := 0 to |rows|
      invariant out == Keyed(rows[..n], table) && |out| == |table| + copied
    {
      assert rows[..n + 1][..n] == rows[..n];
      var (key, value) := rows[n];
      if key !in out { out, copied := out[key := value], copied + 1; }
    }
    assert rows[..|rows|] == rows;
  }

  // ----- the outbox -----

  /** A copied row keeps its key and content, points at the new instance and
      forgets its retry schedule and last error. */
  function Remapped(row: OutboxRow, idMap: map<nat, nat>): OutboxRow
    requires row.instance in idMap
  {
    row.(instance := idMap[row.instance], nextAt := 0.0, lastError := "")
  }

  /** The outbox rows with a mapped instance, ready to be inserted. */
  ghost function MappedRows(rows: seq<(string, OutboxRow)>, idMap: map<nat, nat>): seq<(string, OutboxRow)> {
    if rows == [] then []
    else
      var before, row := MappedRows(rows[..|rows| - 1], idMap), rows[|rows| - 1];
      if row.1.instance in idMap then before + [(row.0, Remapped(row.1, idMap))] else before
  }

  lemma {:induction false} MappedRowsAll(rows: seq<(string, OutboxRow)>, idMap: map<nat, nat>)
    ensures forall i :: 0 <= i < |rows| && rows[i].1.instance in idMap ==>
      (rows[i].0, Remapped(rows[i].1, idMap)) in MappedRows(rows, idMap)
    ensures forall r :: r in MappedRows(rows, idMap) ==>
      exists i :: 0 <= i < |rows| && rows[i].1.instance in idMap && r == (rows[i].0, Remapped(rows[i].1, idMap))
  {
    if rows != [] {
      var init := rows[..|rows| - 1];
      MappedRowsAll(init, idMap);
      assert forall i :: 0 <= i < |init| ==> rows[i] == init[i];
      forall r | r in MappedRows(rows, idMap)
        ensures exists i :: 0 <= i < |rows| && rows[i].1.instance in idMap && r == (rows[i].0, Remapped(rows[i].1, idMap))
      {
        if r in MappedRows(init, idMap) {
          var i :| 0 <= i < |init| && init[i].1.instance in idMap && r == (init[i].0, Remapped(init[i].1, idMap));
          assert rows[i] == init[i];
        } else {
          assert rows[|rows| - 1].1.instance in idMap;
        }
      }
    }
  }

  method CopyOutbox(rows: seq<(string, OutboxRow)>, idMap: map<nat, nat>, table: map<string, OutboxRow>)
    returns (out: map<string, OutboxRow>, copied: nat)
    ensures out == Keyed(MappedRows(rows, idMap), table) && |out| == |table| + copied
  {
    out, copied := table, 0;
    for n := 0 to |rows|
      invariant out == Keyed(MappedRows(rows[..n], idMap), table) && |out| == |table| + copied
    {
      assert rows[..n + 1][..n] == rows[..n];
      var (key, row) := rows[n];
      if row.instance in idMap {
        var all := MappedRows(rows[..n + 1], idMap);
        assert all[..|all| - 1] == MappedRows(rows[..n], idMap);
        if key !in out { out, copied := out[key := Remapped(row, idMap)], copied + 1; }
      }
    }
    assert rows[..|rows|] == rows;
  }

  // ----- cursors -----

  function Max(a: int, b: int): int { if a >= b then a else b }

  ghost function CursorOf<K>(cursors: map<K, int>, k: K): int { if k in cursors then cursors[k] else 0 }

  /** The greatest of the canonical cursor and the legacy ones, and never below 0. */
  ghost function Cursors<K>(rows: seq<(K, int)>, cursors: map<K, int>): map<K, int> {
    if rows == [] then cursors
    else
      var before, row := Cursors(rows[..|rows| - 1], cursors), rows[|rows| - 1];
      before[row.0 := Max(CursorOf(before, row.0), row.1)]
  }

  lemma {:induction false} CursorsAreMaxima<K>(rows: seq<(K, int)>, cursors: map<K, int>, k: K)
    ensures k in Cursors(rows, cursors) <==> k in cursors || exists i :: 0 <= i < |rows| && rows[i].0 == k
    ensures CursorOf(Cursors(rows, cursors), k) >= CursorOf(cursors, k)
    ensures forall i :: 0 <= i < |rows| && rows[i].0 == k ==> CursorOf(Cursors(rows, cursors), k) >= rows[i].1
    ensures CursorOf(Cursors(rows, cursors), k) == CursorOf(cursors, k)
         || exists i :: 0 <= i < |rows| && rows[i].0 == k && CursorOf(Cursors(rows, cursors), k) == rows[i].1
  {
    if rows != [] {
      var init, row := rows[..|rows| - 1], rows[|rows| - 1];
      CursorsAreMaxima(init, cursors, k);
      assert forall i :: 0 <= i < |init| ==> rows[i] == init[i];
      assert rows[|rows| - 1].0 == row.0;
    }
  }

  lemma {:induction false} CursorsSettled<K>(rows: seq<(K, int)>, cursors: map<K, int>)
    requires forall i :: 0 <= i < |rows| ==> rows[i].0 in cursors && cursors[rows[i].0] >= rows[i].1
    ensures Cursors(rows, cursors) == cursors
  {
    if rows != [] {
      var init := rows[..|rows| - 1];
      assert forall i :: 0 <= i < |init| ==> rows[i] == init[i];
      CursorsSettled(init, cursors);
    }
  }

  method CopyCursors<K(==)>(rows: seq<(K, int)>, cursors: map<K, int>) returns (out: map<K, int>)
    ensures out == Cursors(rows, cursors)
  {
    out := cursors;
    for n := 0 to |rows|
      invariant out == Cursors(rows[..n], cursors)
    {
      assert rows[..n + 1][..n] == rows[..n];
      var (key, value) := rows[n];
      var current := if key in out then out[key] else 0;
      var latest := if current >= value then current else value;
      if key !in out || latest > out[key] { out := out[key := latest]; }
    }
    assert rows[..|rows|] == rows;
  }

  // ----- the whole migration -----

  /** The tables that hang off an instance, from the canonical and legacy rows. */
  ghost predicate ChildTables(db: Tables, legacy: Legacy, idMap: map<nat, nat>, db': Tables) {
    && db'.steps == Children(legacy.steps, idMap, db.steps)
    && db'.receipts == Children(legacy.receipts, idMap, db.receipts)
    && db'.events == Children(legacy.events, idMap, db.events)
    && db'.satisfactions == Children(legacy.satisfactions, idMap, db.satisfactions)
    && db'.members == Children(legacy.members, idMap, db.members)
    && db'.outbox == Keyed(MappedRows(legacy.outbox, idMap), db.outbox)
  }

  /** The tables with keys of their own. */
  ghost predicate OwnTables(db: Tables, legacy: Legacy, db': Tables) {
    && db'.cursors == Cursors(legacy.cursors, db.cursors)
    && db'.policies == Keyed(legacy.policies, db.policies)
    && db'.cases == Keyed(legacy.cases, db.cases)
    && db'.replies == Keyed(legacy.replies, db.replies)
    && db'.keys == Keyed(legacy.keys, db.keys)
  }

  /** Every table of the result. */
  ghost predicate Unioned(db: Tables, nextId: nat, legacy: Legacy, idMap: map<nat, nat>, db': Tables, nextId': nat) {
    && (db'.instances, nextId') == Joined(legacy.instances, db.instances, nextId)
    && MapsIds(legacy.instances, idMap, db'.instances)
    && ChildTables(db, legacy, idMap, db')
    && OwnTables(db, legacy, db')
  }

  class CanonicalStore {
    var db: Tables
    var nextId: nat
    /** How many migration receipts have been written. */
    var migrations: nat

    constructor (db: Tables, nextId: nat)
      ensures this.db == db && this.nextId == nextId && migrations == 0
    {
      this.db, this.nextId, migrations := db, nextId, 0;
    }

    /** _verify_migration: the legacy ids without a canonical instance. */
    static method Unmapped(rows: seq<(nat, Source, Data)>, idMap: map<nat, nat>) returns (missing: seq<nat>)
      ensures missing == [] <==> forall i :: 0 <= i < |rows| ==> rows[i].0 in idMap
      ensures forall id :: id in missing ==> id !in idMap
    {
      missing := [];
      for n := 0 to |rows|
        invariant missing == [] <==> forall i :: 0 <= i < n ==> rows[i].0 in idMap
        invariant forall id :: id in missing ==> id !in idMap
      {
        if rows[n].0 !in idMap { missing := missing + [rows[n].0]; }
      }
    }

    static method CopyChildTables(legacy: Legacy, ids: map<nat, nat>, db: Tables) returns (out: Tables)
      ensures ChildTables(db, legacy, ids, out)
      ensures out.instances == db.instances && out.cursors == db.cursors && out.policies == db.policies
      ensures out.cases == db.cases && out.replies == db.replies && out.keys == db.keys
    {
      hide Children, Keyed, MappedRows;
      var steps, n1 := CopyChildren(legacy.steps, ids, db.steps);
      var receipts, n2 := CopyChildren(legacy.receipts, ids, db.receipts);
      var events, n3 := CopyChildren(legacy.events, ids, db.events);
      var outbox, n4 := CopyOutbox(legacy.outbox, ids, db.outbox);
      var satisfactions, n5 := CopyChildren(legacy.satisfactions, ids, db.satisfactions);
      var members, n6 := CopyChildren(legacy.members, ids, db.members);
      out := db.(steps := steps, receipts := receipts, events := events,
        outbox := outbox, satisfactions := satisfactions, members := members);
    }

    static method CopyOwnTables(legacy: Legacy, db: Tables) returns (out: Tables)
      ensures OwnTables(db, legacy, out)
      ensures out.instances == db.instances && out.steps == db.steps && out.receipts == db.receipts
      ensures out.events == db.events && out.outbox == db.outbox && out.satisfactions == db.satisfactions
      ensures out.members == db.members
    {
      hide Keyed, Cursors;
      var cursors := CopyCursors(legacy.cursors, db.cursors);
      var policies, n1 := CopyKeyed(legacy.policies, db.policies);
      var cases, n2 := CopyKeyed(legacy.cases, db.cases);
      var replies, n3 := CopyKeyed(legacy.replies, db.replies);
      var keys, n4 := CopyKeyed(legacy.keys, db.keys);
      out := db.(cursors := cursors, policies := policies, cases := cases, replies := replies, keys := keys);
    }

    /** migrate_legacy_store: the union, a verification that cannot fail, and one
        migration receipt. */
    method Migrate(legacy: Legacy) returns (ok: bool, ghost idMap: map<nat, nat>)
      requires LegacyKeys(legacy.instances)
      modifies this
      ensures ok && migrations == old(migrations) + 1
      ensures Unioned(old(db), old(nextId), legacy, idMap, db, nextId)
    {
      hide MapsFirst, LegacyKeys, Joined, Children, Keyed, MappedRows, Cursors;
      var ids, instances, next, n0 := CopyInstances(legacy.instances, db.instances, nextId);
      idMap := ids;
      var db1 := CopyChildTables(legacy, ids, db.(instances := instances));
      db := CopyOwnTables(legacy, db1);
      nextId := next;
      var missing := Unmapped(legacy.instances, ids);
      migrations := migrations + 1;
      AllMapped(legacy.instances, ids, instances);
      ok := missing == [];
    }
  }

  lemma AllMapped(rows: seq<(nat, Source, Data)>, idMap: map<nat, nat>, instances: map<Source, Stored>)
    requires MapsIds(rows, idMap, instances)
    ensures forall i :: 0 <= i < |rows| ==> rows[i].0 in idMap
  {}

  /** Existing rows are unchanged in every table. */
  lemma ExistingUnchanged(db: Tables, nextId: nat, legacy: Legacy, idMap: map<nat, nat>, db': Tables, nextId': nat)
    requires Unioned(db, nextId, legacy, idMap, db', nextId') && DistinctIds(db.instances, nextId)
    ensures Keeps(db.instances, db'.instances) && DistinctIds(db'.instances, nextId')
    ensures Keeps(db.steps, db'.steps) && Keeps(db.receipts, db'.receipts) && Keeps(db.events, db'.events)
    ensures Keeps(db.satisfactions, db'.satisfactions) && Keeps(db.members, db'.members)
    ensures Keeps(db.outbox, db'.outbox) && Keeps(db.policies, db'.policies)
    ensures Keeps(db.cases, db'.cases) && Keeps(db.replies, db'.replies) && Keeps(db.keys, db'.keys)
  {
    hide Keeps, MapsFirst;
    JoinedKeeps(legacy.instances, db.instances, nextId);
    ChildrenKeep(legacy.steps, idMap, db.steps);
    ChildrenKeep(legacy.receipts, idMap, db.receipts);
    ChildrenKeep(legacy.events, idMap, db.events);
    ChildrenKeep(legacy.satisfactions, idMap, db.satisfactions);
    ChildrenKeep(legacy.members, idMap, db.members);
    KeyedKeep(MappedRows(legacy.outbox, idMap), db.outbox);
    KeyedKeep(legacy.policies, db.policies);
    KeyedKeep(legacy.cases, db.cases);
    KeyedKeep(legacy.replies, db.replies);
    KeyedKeep(legacy.keys, db.keys);
  }

  /** Every legacy instance is there under its own source tuple, and two of them
      never under one id. */
  lemma InstancesArrive(db: Tables, nextId: nat, legacy: Legacy, idMap: map<nat, nat>, db': Tables, nextId': nat)
    requires Unioned(db, nextId, legacy, idMap, db', nextId')
    requires DistinctIds(db.instances, nextId) && LegacyKeys(legacy.instances)
    ensures forall i :: 0 <= i < |legacy.instances| ==>
      var row := legacy.instances[i];
      row.0 in idMap && row.1 in db'.instances && idMap[row.0] == db'.instances[row.1].id
    ensures forall a, b :: a in idMap && b in idMap && idMap[a] == idMap[b] ==> a == b
  {
    hide Keeps;
    JoinedKeeps(legacy.instances, db.instances, nextId);
    forall a, b | a in idMap && b in idMap && idMap[a] == idMap[b] ensures a == b {
      MapsApart(legacy.instances, idMap, db'.instances, nextId', a, b);
    }
  }

  /** Every row of a child table whose instance exists is there under the new id:
      its own content unless the key was taken before or by an earlier row. */
  lemma ChildrenArrive<K, V>(rows: seq<(nat, K, V)>, idMap: map<nat, nat>, table: map<(nat, K), V>, i: nat)
    requires i < |rows| && rows[i].0 in idMap
    requires forall a, b :: a in idMap && b in idMap && idMap[a] == idMap[b] ==> a == b
    requires forall j, k :: 0 <= j < k < |rows| ==> (rows[j].0, rows[j].1) != (rows[k].0, rows[k].1)
    ensures var p := (idMap[rows[i].0], rows[i].1); var out := Children(rows, idMap, table);
      p in out && out[p] == if p in table then table[p] else rows[i].2
  {
    ChildrenKeep(rows, idMap, table);
    var p := (idMap[rows[i].0], rows[i].1);
    if p !in table {
      ChildrenFrom(rows, idMap, table, p);
      var j :| 0 <= j < |rows| && Feeds(rows[j], idMap, p, Children(rows, idMap, table)[p]);
      SameRow(rows, i, j);
    }
  }

  lemma SameRow<K, V>(rows: seq<(nat, K, V)>, i: nat, j: nat)
    requires i < |rows| && j < |rows| && (rows[i].0, rows[i].1) == (rows[j].0, rows[j].1)
    requires forall j, k :: 0 <= j < k < |rows| ==> (rows[j].0, rows[j].1) != (rows[k].0, rows[k].1)
    ensures i == j
  {}

  lemma MapsUnique(rows: seq<(nat, Source, Data)>, m: map<nat, nat>, n: map<nat, nat>, instances: map<Source, Stored>)
    requires MapsIds(rows, m, instances) && MapsIds(rows, n, instances)
    ensures m == n
  {
    forall id ensures id in m <==> id in n {
      if id in m { var i :| 0 <= i < |rows| && rows[i].0 == id; }
      if id in n { var i :| 0 <= i < |rows| && rows[i].0 == id; }
    }
    forall id | id in m ensures m[id] == n[id] {
      var i :| 0 <= i < |rows| && rows[i].0 == id;
    }
  }

  lemma OutboxSettled(rows: seq<(string, OutboxRow)>, idMap: map<nat, nat>, table: map<string, OutboxRow>)
    ensures var once := Keyed(MappedRows(rows, idMap), table);
      Keyed(MappedRows(rows, idMap), once) == once
  {
    KeyedKeep(MappedRows(rows, idMap), table);
    KeyedSettled(MappedRows(rows, idMap), Keyed(MappedRows(rows, idMap), table));
  }

  lemma ChildrenTwice<K, V>(rows: seq<(nat, K, V)>, idMap: map<nat, nat>, table: map<(nat, K), V>)
    ensures var once := Children(rows, idMap, table); Children(rows, idMap, once) == once
  {
    ChildrenKeep(rows, idMap, table);
    ChildrenSettled(rows, idMap, Children(rows, idMap, table));
  }

  lemma KeyedTwice<K, V>(rows: seq<(K, V)>, table: map<K, V>)
    ensures var once := Keyed(rows, table); Keyed(rows, once) == once
  {
    KeyedKeep(rows, table);
    KeyedSettled(rows, Keyed(rows, table));
  }

  lemma CursorsTwice<K>(rows: seq<(K, int)>, cursors: map<K, int>)
    ensures var once := Cursors(rows, cursors); Cursors(rows, once) == once
  {
    var once := Cursors(rows, cursors);
    forall i | 0 <= i < |rows| ensures rows[i].0 in once && once[rows[i].0] >= rows[i].1 {
      CursorsAreMaxima(rows, cursors, rows[i].0);
    }
    CursorsSettled(rows, once);
  }

  /** Running the migration twice is running it once, but for its receipt. */
  lemma MigrationIdempotent(db: Tables, nextId: nat, legacy: Legacy, once: map<nat, nat>, db1: Tables, next1: nat,
                            twice: map<nat, nat>, db2: Tables, next2: nat)
    requires Unioned(db, nextId, legacy, once, db1, next1) && DistinctIds(db.instances, nextId)
    requires Unioned(db1, next1, legacy, twice, db2, next2)
    ensures twice == once && db2 == db1 && next2 == next1
  {
    hide Keeps, MapsFirst, DistinctIds;
    JoinedKeeps(legacy.instances, db.instances, nextId);
    JoinedSettled(legacy.instances, db1.instances, next1);
    MapsUnique(legacy.instances, once, twice, db1.instances);
    ChildrenTwice(legacy.steps, once, db.steps);
    ChildrenTwice(legacy.receipts, once, db.receipts);
    ChildrenTwice(legacy.events, once, db.events);
    ChildrenTwice(legacy.satisfactions, once, db.satisfactions);
    ChildrenTwice(legacy.members, once, db.members);
    OutboxSettled(legacy.outbox, once, db.outbox);
    CursorsTwice(legacy.cursors, db.cursors);
    KeyedTwice(legacy.policies, db.policies);
    KeyedTwice(legacy.cases, db.cases);
    KeyedTwice(legacy.replies, db.replies);
    KeyedTwice(legacy.keys, db.keys);
  }

  /** A copied outbox row loses its backoff and last error, nothing else. */
  lemma OutboxArrives(rows: seq<(string, OutboxRow)>, idMap: map<nat, nat>, table: map<string, OutboxRow>, key: string)
    requires key in Keyed(MappedRows(rows, idMap), table) && key !in table
    ensures var row := Keyed(MappedRows(rows, idMap), table)[key];
      && row.nextAt == 0.0 && row.lastError == ""
      && exists i :: 0 <= i < |rows| && rows[i].0 == key && rows[i].1.instance in idMap && row == Remapped(rows[i].1, idMap)
  {
    MappedRowsAll(rows, idMap);
    var row := KeyedFrom(MappedRows(rows, idMap), table, key);
    assert (key, row) in MappedRows(rows, idMap);
  }

  // ----- wakes after the migration -----

  /** The row the drivers see; its other columns do not matter to them. */
  function AsRow(row: OutboxRow, rest: Row): Row {
    rest.(op := row.op, state := row.state, attempts := row.attempts, nextAt := row.nextAt, lastError := row.lastError)
  }

  /** Some run of the drivers schedules the wake. */
  ghost predicate MayWake(row: Row) {
    exists vs: seq<Adapter.Turn> :: Callbacks.Scheduled(row, vs) > 0
  }

  ghost predicate Wakes(table: map<string, OutboxRow>, key: string, rest: Row) {
    key in table && MayWake(AsRow(table[key], rest))
  }

  ghost predicate Known(rows: seq<(nat, Source, Data)>, id: nat) {
    exists j :: 0 <= j < |rows| && rows[j].0 == id
  }

  /** A scheduled wake of a legacy file, which no run would schedule again: the
      migration makes it one that is scheduled exactly when its instance is in the
      file, its key was free, and it was not applied. */
  lemma MigratedWakeIff(db: Tables, nextId: nat, legacy: Legacy, idMap: map<nat, nat>, db': Tables, nextId': nat,
                        i: nat, rest: Row)
    requires Unioned(db, nextId, legacy, idMap, db', nextId')
    requires forall j, k :: 0 <= j < k < |legacy.outbox| ==> legacy.outbox[j].0 != legacy.outbox[k].0
    requires i < |legacy.outbox| && legacy.outbox[i].1.op == ScheduleWake
    requires Callbacks.WakeDone(AsRow(legacy.outbox[i].1, rest))
    ensures !MayWake(AsRow(legacy.outbox[i].1, rest))
    ensures var (key, row) := legacy.outbox[i];
      !Wakes(db.outbox, key, rest) && Wakes(db'.outbox, key, rest)
      <==> Known(legacy.instances, row.instance) && key !in db.outbox && row.state != Applied
  {
    var (key, row) := legacy.outbox[i];
    NeverAgain(AsRow(row, rest));
    assert Known(legacy.instances, row.instance) <==> row.instance in idMap;
    hide Keyed, MappedRows, MapsFirst, Joined, Children, Cursors, MayWake, AsRow, Callbacks.WakeDone;
    if key in db.outbox {
      KeyedKeep(MappedRows(legacy.outbox, idMap), db.outbox);
    } else {
      FreeKey(legacy.outbox, idMap, db.outbox, i);
      if row.instance in idMap {
        MigratedRow(row, idMap, rest);
        assert db'.outbox[key] == Remapped(row, idMap);
      }
    }
  }

  lemma NeverAgain(row: Row)
    requires row.op == ScheduleWake && Callbacks.WakeDone(row)
    ensures !MayWake(row)
  {
    forall vs: seq<Adapter.Turn> ensures Callbacks.Scheduled(row, vs) == 0 { Callbacks.WakeDoneStays(row, vs); }
  }

  /** Under a free key the migration puts the legacy row of that key, if any. */
  lemma FreeKey(rows: seq<(string, OutboxRow)>, idMap: map<nat, nat>, table: map<string, OutboxRow>, i: nat)
    requires forall j, k :: 0 <= j < k < |rows| ==> rows[j].0 != rows[k].0
    requires i < |rows| && rows[i].0 !in table
    ensures var out := Keyed(MappedRows(rows, idMap), table);
      && (rows[i].0 in out <==> rows[i].1.instance in idMap)
      && (rows[i].0 in out ==> out[rows[i].0] == Remapped(rows[i].1, idMap))
  {
    var (key, row) := rows[i];
    var out := Keyed(MappedRows(rows, idMap), table);
    if row.instance in idMap {
      MappedRowsAll(rows, idMap);
      KeyedKeep(MappedRows(rows, idMap), table);
      assert (key, Remapped(row, idMap)) in MappedRows(rows, idMap);
    }
    if key in out {
      OutboxArrives(rows, idMap, table, key);
    }
  }

  lemma MigratedRow(row: OutboxRow, idMap: map<nat, nat>, rest: Row)
    requires row.instance in idMap && row.op == ScheduleWake && Callbacks.WakeDone(AsRow(row, rest))
    ensures MayWake(AsRow(Remapped(row, idMap), rest)) <==> row.state != Applied
  {
    var moved := AsRow(Remapped(row, idMap), rest);
    assert moved == Callbacks.Forgotten(AsRow(row, rest));
    Callbacks.ForgettingIff(AsRow(row, rest));
    if row.state == Applied {
      NeverAgain(moved);
    } else {
      var v: Adapter.Turn :| Callbacks.Schedules(moved, v);
      assert Callbacks.Scheduled(moved, [v]) > 0;
    }
  }

  lemma {:induction false} KeyedFrom<K, V>(rows: seq<(K, V)>, table: map<K, V>, key: K) returns (value: V)
    requires key in Keyed(rows, table) && key !in table
    ensures (key, value) in rows && value == Keyed(rows, table)[key]
  {
    value := Keyed(rows, table)[key];
    var init := rows[..|rows| - 1];
    if key in Keyed(init, table) {
      var v := KeyedFrom(init, table, key);
      assert (key, v) in init;
    } else {
      assert rows[|rows| - 1] == (key, value);
    }
  }
}
