/** The merged query means a null-safe full outer alignment of its groups. */
module BoundSqlLaws {
  import opened Common
  import opened BoundPlan
  import opened BoundGroups
  import opened BoundSql

  type Key = seq<Cell>

  function KeyOf(names: seq<string>, row: Row): (key: Key)
    ensures |key| == |names|
  {
    seq(|names|, i requires 0 <= i < |names| => Get(row, names[i]))
  }

  function KeysOf(names: seq<string>, rows: Relation): (keys: seq<Key>)
    ensures |keys| == |rows|
  {
    seq(|rows|, i requires 0 <= i < |rows| => KeyOf(names, rows[i]))
  }

  /** A grouped relation has one row for each key tuple, NULLs being alike. */
  predicate UniqueKeys(names: seq<string>, rows: Relation) {
    forall i, k | 0 <= i < k < |rows| :: KeyOf(names, rows[i]) != KeyOf(names, rows[k])
  }

  predicate AllUnique(names: seq<string>, groups: seq<SqlGroup>, db: string -> Relation) {
    forall i | 0 <= i < |groups| :: UniqueKeys(names, db(groups[i].sql))
  }

  // ---- The alignment, said directly ----

  function Lookup(names: seq<string>, rows: Relation, key: Key): (row: Option<Row>)
    ensures row.Some? ==> row.value in rows && KeyOf(names, row.value) == key
    ensures row.None? ==> forall r | r in rows :: KeyOf(names, r) != key
  {
    if rows == [] then None
    else if KeyOf(names, rows[0]) == key then Some(rows[0])
    else Lookup(names, rows[1..], key)
  }

  /** The metric's value in its own group's row for the key, or NULL when that group has none. */
  function MetricCell(names: seq<string>, groups: seq<SqlGroup>, db: string -> Relation, key: Key, metric: string): Cell
    requires Lists(groups, metric)
  {
    var row := Lookup(names, db(groups[Owner(groups, metric)].sql), key);
    if row.Some? then Get(row.value, metric) else Null
  }

  function AlignedRow(plan: Plan, groups: seq<SqlGroup>, db: string -> Relation, key: Key): (cells: seq<Cell>)
    requires Owned(groups, plan.metrics)
    ensures |cells| == |key| + |plan.metrics|
  {
    key + seq(|plan.metrics|, i requires 0 <= i < |plan.metrics| =>
      assert plan.metrics[i] in plan.metrics;
      MetricCell(plan.groupBy, groups, db, key, plan.metrics[i]))
  }

  function GatherKeys(names: seq<string>, groups: seq<SqlGroup>, db: string -> Relation): seq<Key> {
    if groups == [] then []
    else GatherKeys(names, groups[..|groups| - 1], db) + KeysOf(names, db(groups[|groups| - 1].sql))
  }

  /** Every key tuple of every group, once. */
  function AllKeys(names: seq<string>, groups: seq<SqlGroup>, db: string -> Relation): (keys: seq<Key>)
    ensures forall i, k | 0 <= i < k < |keys| :: keys[i] != keys[k]
  {
    Distinct(GatherKeys(names, groups, db))
  }

  function AlignedRows(plan: Plan, groups: seq<SqlGroup>, db: string -> Relation): (rows: seq<seq<Cell>>)
    requires Owned(groups, plan.metrics)
    ensures |rows| == |AllKeys(plan.groupBy, groups, db)|
  {
    var keys := AllKeys(plan.groupBy, groups, db);
    seq(|keys|, i requires 0 <= i < |keys| => AlignedRow(plan, groups, db, keys[i]))
  }

  predicate HasKey(names: seq<string>, rows: Relation, key: Key) {
    exists r | r in rows :: KeyOf(names, r) == key
  }

  lemma KeysOfHas(names: seq<string>, rows: Relation, key: Key)
    ensures key in KeysOf(names, rows) <==> HasKey(names, rows, key)
  {
    if key in KeysOf(names, rows) {
      var i :| 0 <= i < |rows| && KeysOf(names, rows)[i] == key;
      assert rows[i] in rows && KeyOf(names, rows[i]) == key;
    }
    if HasKey(names, rows, key) {
      var r :| r in rows && KeyOf(names, r) == key;
      var i :| 0 <= i < |rows| && rows[i] == r;
      assert KeysOf(names, rows)[i] == key;
    }
  }

  predicate SomeHas(names: seq<string>, groups: seq<SqlGroup>, db: string -> Relation, key: Key) {
    exists i :: 0 <= i < |groups| && HasKey(names, db(groups[i].sql), key)
  }

  lemma SomeHasMore(names: seq<string>, groups: seq<SqlGroup>, db: string -> Relation, key: Key)
    requires groups != []
    ensures var n := |groups| - 1;
      SomeHas(names, groups, db, key) <==> SomeHas(names, groups[..n], db, key) || HasKey(names, db(groups[n].sql), key)
  {
    var n := |groups| - 1;
    if SomeHas(names, groups[..n], db, key) {
      var i :| 0 <= i < n && HasKey(names, db(groups[..n][i].sql), key);
      assert HasKey(names, db(groups[i].sql), key);
    }
    if SomeHas(names, groups, db, key) {
      var i :| 0 <= i < |groups| && HasKey(names, db(groups[i].sql), key);
      if i < n { assert groups[..n][i] == groups[i]; }
    }
  }

  lemma {:induction false} GatheredExact(names: seq<string>, groups: seq<SqlGroup>, db: string -> Relation, key: Key)
    ensures key in GatherKeys(names, groups, db) <==> SomeHas(names, groups, db, key)
  {
    if groups != [] {
      GatheredExact(names, groups[..|groups| - 1], db, key);
      KeysOfHas(names, db(groups[|groups| - 1].sql), key);
      SomeHasMore(names, groups, db, key);
    }
  }

  /** The aligned keys are exactly the keys that some group has. */
  lemma KeysExact(names: seq<string>, groups: seq<SqlGroup>, db: string -> Relation, key: Key)
    ensures key in AllKeys(names, groups, db) <==> exists i :: 0 <= i < |groups| && HasKey(names, db(groups[i].sql), key)
  {
    GatheredExact(names, groups, db, key);
  }

  // ---- The join condition is null-safe equality ----

  lemma SameNameHolds(joined: Joined, g: nat, name: string)
    ensures Holds3(joined, SameName(g, name)) == True <==> Read(joined, Column(K, name)) == Read(joined, Column(G(g), name))
  {
    var left, right := Column(K, name), Column(G(g), name);
    assert Holds3(joined, And(IsNull(left), IsNull(right)))
        == And3(Holds3(joined, IsNull(left)), Holds3(joined, IsNull(right)));
  }

  lemma {:induction false} AllHoldEach(joined: Joined, parts: seq<Pred>)
    ensures AllHold3(joined, parts) == True <==> forall i | 0 <= i < |parts| :: Holds3(joined, parts[i]) == True
  {
    if parts != [] {
      AllHoldEach(joined, parts[1..]);
      if AllHold3(joined, parts) == True {
        forall i | 0 <= i < |parts| ensures Holds3(joined, parts[i]) == True {
          if i > 0 { assert parts[i] == parts[1..][i - 1]; }
        }
      }
      if forall i | 0 <= i < |parts| :: Holds3(joined, parts[i]) == True {
        assert Holds3(joined, parts[0]) == True;
        forall i | 0 <= i < |parts[1..]| ensures Holds3(joined, parts[1..][i]) == True { assert parts[1..][i] == parts[i + 1]; }
      }
    }
  }

  lemma SameKeyHolds(joined: Joined, g: nat, names: seq<string>, row: Row)
    requires K in joined
    ensures Holds3(joined[G(g) := row], SameKey(g, names)) == True <==> KeyOf(names, joined[K]) == KeyOf(names, row)
  {
    var after, parts := joined[G(g) := row], SameKey(g, names).parts;
    AllHoldEach(after, parts);
    forall i | 0 <= i < |names|
      ensures Holds3(after, parts[i]) == True <==> KeyOf(names, joined[K])[i] == KeyOf(names, row)[i]
    {
      SameNameHolds(after, g, names[i]);
    }
  }

  // ---- One partner or a row of NULLs ----

  function Partner(names: seq<string>, rows: Relation, key: Key): Row {
    var row := Lookup(names, rows, key);
    if row.Some? then row.value else map[]
  }

  lemma {:induction false} MatchingIsLookup(joined: Joined, g: nat, names: seq<string>, rows: Relation)
    requires K in joined && UniqueKeys(names, rows)
    ensures var row := Lookup(names, rows, KeyOf(names, joined[K]));
      Matching(joined, G(g), rows, SameKey(g, names)) == if row.Some? then [row.value] else []
  {
    if rows != [] {
      SameKeyHolds(joined, g, names, rows[0]);
      TailUnique(names, rows);
      MatchingIsLookup(joined, g, names, rows[1..]);
      if KeyOf(names, rows[0]) == KeyOf(names, joined[K]) {
        assert forall r | r in rows[1..] :: KeyOf(names, r) != KeyOf(names, rows[0]);
      }
    }
  }

  lemma TailUnique(names: seq<string>, rows: Relation)
    requires rows != [] && UniqueKeys(names, rows)
    ensures UniqueKeys(names, rows[1..]) && forall r | r in rows[1..] :: KeyOf(names, r) != KeyOf(names, rows[0])
  {
    forall i, k | 0 <= i < k < |rows[1..]| ensures KeyOf(names, rows[1..][i]) != KeyOf(names, rows[1..][k]) {
      assert rows[1..][i] == rows[i + 1] && rows[1..][k] == rows[k + 1];
    }
  }

  lemma {:induction false} JoinEachOne(left: seq<Joined>, g: nat, names: seq<string>, rows: Relation)
    requires UniqueKeys(names, rows) && forall i | 0 <= i < |left| :: K in left[i]
    ensures var all := JoinEach(left, G(g), rows, SameKey(g, names));
      |all| == |left| && forall i | 0 <= i < |left| ::
        all[i] == left[i][G(g) := Partner(names, rows, KeyOf(names, left[i][K]))]
  {
    if left != [] {
      MatchingIsLookup(left[0], g, names, rows);
      JoinEachOne(left[1..], g, names, rows);
    }
  }

  /** The joined row for one key row after the first n groups. */
  function JoinedRow(names: seq<string>, groups: seq<SqlGroup>, db: string -> Relation, keyRow: Row, n: nat): (joined: Joined)
    requires n <= |groups|
    ensures K in joined && joined[K] == keyRow
  {
    if n == 0 then map[K := keyRow]
    else JoinedRow(names, groups, db, keyRow, n - 1)[G(n - 1) := Partner(names, db(groups[n - 1].sql), KeyOf(names, keyRow))]
  }

  lemma {:induction false} JoinedPartner(names: seq<string>, groups: seq<SqlGroup>, db: string -> Relation, keyRow: Row,
                                         n: nat, g: nat)
    requires g < n <= |groups|
    ensures var joined := JoinedRow(names, groups, db, keyRow, n);
      G(g) in joined && joined[G(g)] == Partner(names, db(groups[g].sql), KeyOf(names, keyRow))
  {
    if g < n - 1 { JoinedPartner(names, groups, db, keyRow, n - 1, g); }
  }

  /** These are the joined rows of these key rows after the first n groups. */
  predicate JoinedUpTo(names: seq<string>, groups: seq<SqlGroup>, db: string -> Relation, keyRows: seq<Row>,
                       all: seq<Joined>, n: nat)
    requires n <= |groups|
  {
    |all| == |keyRows| && forall i | 0 <= i < |keyRows| :: all[i] == JoinedRow(names, groups, db, keyRows[i], n)
  }

  /** One more outer join extends every joined row by its partner. */
  lemma JoinMore(names: seq<string>, groups: seq<SqlGroup>, db: string -> Relation, keyRows: seq<Row>,
                 left: seq<Joined>, all: seq<Joined>, n: nat)
    requires n < |groups| && UniqueKeys(names, db(groups[n].sql)) && JoinedUpTo(names, groups, db, keyRows, left, n)
    requires all == JoinEach(left, G(n), db(groups[n].sql), SameKey(n, names))
    ensures JoinedUpTo(names, groups, db, keyRows, all, n + 1)
  {
    JoinEachOne(left, n, names, db(groups[n].sql));
  }

  lemma {:induction false} ChainJoins(env: Table -> Relation, names: seq<string>, groups: seq<SqlGroup>,
                                      db: string -> Relation, n: nat)
    requires n <= |groups| && AllUnique(names, groups, db)
    requires forall i: nat | i < |groups| :: env(GroupTable(i)) == db(groups[i].sql)
    ensures JoinedUpTo(names, groups, db, env(KeysTable), EvalFrom(env, Chain(names, n)), n)
  {
    if n == 0 {
      ScanJoins(env, names, groups, db);
    } else {
      ChainJoins(env, names, groups, db, n - 1);
      ChainMore(env, names, groups, db, n - 1);
    }
  }

  lemma ChainMore(env: Table -> Relation, names: seq<string>, groups: seq<SqlGroup>, db: string -> Relation, n: nat)
    requires n < |groups| && UniqueKeys(names, db(groups[n].sql)) && env(GroupTable(n)) == db(groups[n].sql)
    requires JoinedUpTo(names, groups, db, env(KeysTable), EvalFrom(env, Chain(names, n)), n)
    ensures JoinedUpTo(names, groups, db, env(KeysTable), EvalFrom(env, Chain(names, n + 1)), n + 1)
  {
    ChainUnfolds(env, names, n);
    JoinMore(names, groups, db, env(KeysTable), EvalFrom(env, Chain(names, n)), EvalFrom(env, Chain(names, n + 1)), n);
  }

  lemma ScanJoins(env: Table -> Relation, names: seq<string>, groups: seq<SqlGroup>, db: string -> Relation)
    ensures JoinedUpTo(names, groups, db, env(KeysTable), EvalFrom(env, Chain(names, 0)), 0)
  {}

  lemma ChainUnfolds(env: Table -> Relation, names: seq<string>, n: nat)
    ensures EvalFrom(env, Chain(names, n + 1))
         == JoinEach(EvalFrom(env, Chain(names, n)), G(n), env(GroupTable(n)), SameKey(n, names))
  {}

  // ---- The key table ----

  lemma ProjectKeeps(names: seq<string>, row: Row)
    ensures KeyOf(names, Project(names, row)) == KeyOf(names, row)
  {
    forall i | 0 <= i < |names| ensures Get(Project(names, row), names[i]) == Get(row, names[i]) { assert names[i] in names; }
  }

  lemma ProjectSame(names: seq<string>, a: Row, b: Row)
    ensures Project(names, a) == Project(names, b) <==> KeyOf(names, a) == KeyOf(names, b)
  {
    ProjectKeeps(names, a);
    ProjectKeeps(names, b);
    if KeyOf(names, a) == KeyOf(names, b) {
      forall n | n in names ensures Get(a, n) == Get(b, n) {
        var i :| 0 <= i < |names| && names[i] == n;
        assert KeyOf(names, a)[i] == KeyOf(names, b)[i];
      }
    }
  }

  /** Rows that were projected to the key columns. */
  predicate Projected(names: seq<string>, rows: Relation) {
    forall r | r in rows :: Project(names, r) == r
  }

  /** Removing duplicate key rows removes exactly the duplicate keys. */
  lemma {:induction false} DistinctKeys(names: seq<string>, rows: Relation)
    requires Projected(names, rows)
    ensures KeysOf(names, Distinct(rows)) == Distinct(KeysOf(names, rows))
  {
    if rows != [] {
      var n := |rows| - 1;
      var head, last := rows[..n], rows[n];
      assert KeysOf(names, rows)[..n] == KeysOf(names, head) && KeysOf(names, rows)[n] == KeyOf(names, last);
      assert Projected(names, head) && last in rows;
      DistinctKeys(names, head);
      assert last in Distinct(head) <==> KeyOf(names, last) in KeysOf(names, Distinct(head)) by {
        KeysOfHas(names, Distinct(head), KeyOf(names, last));
        forall r | r in Distinct(head) ensures KeyOf(names, r) == KeyOf(names, last) <==> r == last {
          ProjectSame(names, r, last);
        }
      }
      assert KeysOf(names, Distinct(head) + [last]) == KeysOf(names, Distinct(head)) + [KeyOf(names, last)];
    }
  }

  lemma {:induction false} GatherIsKeys(names: seq<string>, groups: seq<SqlGroup>, db: string -> Relation, n: nat)
    requires n <= |groups|
    ensures var rows := Gather(Bodies(groups), KeySelects(names, n), db);
      Projected(names, rows) && KeysOf(names, rows) == GatherKeys(names, groups[..n], db)
  {
    if n > 0 {
      GatherIsKeys(names, groups, db, n - 1);
      assert KeySelects(names, n)[..n - 1] == KeySelects(names, n - 1);
      assert groups[..n][..n - 1] == groups[..n - 1];
      ProjectedKeys(names, db(groups[n - 1].sql));
      var head, last := Gather(Bodies(groups), KeySelects(names, n - 1), db), ProjectAll(names, db(groups[n - 1].sql));
      assert KeysOf(names, head + last) == KeysOf(names, head) + KeysOf(names, last);
    }
  }

  lemma ProjectedKeys(names: seq<string>, rows: Relation)
    ensures Projected(names, ProjectAll(names, rows)) && KeysOf(names, ProjectAll(names, rows)) == KeysOf(names, rows)
  {
    forall i | 0 <= i < |rows|
      ensures KeyOf(names, Project(names, rows[i])) == KeyOf(names, rows[i])
      ensures Project(names, Project(names, rows[i])) == Project(names, rows[i])
    {
      ProjectKeeps(names, rows[i]);
      ProjectSame(names, Project(names, rows[i]), rows[i]);
    }
  }

  // ---- The theorems ----

  /** The general form yields one row for each key of any group, every metric from its own group or NULL. */
  lemma GeneralMeaning(plan: Plan, groups: seq<SqlGroup>, db: string -> Relation)
    requires Owned(groups, plan.metrics) && AllUnique(plan.groupBy, groups, db)
    ensures Eval(General(plan, groups), db) == AlignedRows(plan, groups, db)
  {
    var query, names := General(plan, groups), plan.groupBy;
    var keyRows := Tables(query, db)(KeysTable);
    ChainJoins(Tables(query, db), names, groups, db, |groups|);
    GatherIsKeys(names, groups, db, |groups|);
    assert groups[..|groups|] == groups;
    DistinctKeys(names, Gather(Bodies(groups), KeySelects(names, |groups|), db));
    assert KeysOf(names, keyRows) == AllKeys(names, groups, db);
    forall i | 0 <= i < |keyRows| ensures Eval(query, db)[i] == AlignedRows(plan, groups, db)[i] {
      OutputIsAligned(plan, groups, db, keyRows[i]);
      assert KeysOf(names, keyRows)[i] == KeyOf(names, keyRows[i]);
    }
  }

  lemma ColumnAt(keyAlias: Alias, plan: Plan, groups: seq<SqlGroup>)
    requires Owned(groups, plan.metrics)
    ensures var columns := ColumnsFrom(keyAlias, plan, groups);
      && (forall i | 0 <= i < |plan.groupBy| :: columns[i].0 == Column(keyAlias, plan.groupBy[i]))
      && (forall i | 0 <= i < |plan.metrics| :: plan.metrics[i] in plan.metrics
            && columns[|plan.groupBy| + i].0 == Column(G(Owner(groups, plan.metrics[i])), plan.metrics[i]))
  {
    forall i | 0 <= i < |plan.metrics|
      ensures plan.metrics[i] in plan.metrics
      ensures ColumnsFrom(keyAlias, plan, groups)[|plan.groupBy| + i].0
           == Column(G(Owner(groups, plan.metrics[i])), plan.metrics[i])
    {
      assert plan.metrics[i] in plan.metrics;
    }
  }

  lemma PartnerCell(names: seq<string>, groups: seq<SqlGroup>, db: string -> Relation, keyRow: Row, metric: string)
    requires Lists(groups, metric)
    ensures Read(JoinedRow(names, groups, db, keyRow, |groups|), Column(G(Owner(groups, metric)), metric))
         == MetricCell(names, groups, db, KeyOf(names, keyRow), metric)
  {
    JoinedPartner(names, groups, db, keyRow, |groups|, Owner(groups, metric));
  }

  lemma OutputIsAligned(plan: Plan, groups: seq<SqlGroup>, db: string -> Relation, keyRow: Row)
    requires Owned(groups, plan.metrics)
    ensures Output(ColumnsFrom(K, plan, groups), JoinedRow(plan.groupBy, groups, db, keyRow, |groups|))
         == AlignedRow(plan, groups, db, KeyOf(plan.groupBy, keyRow))
  {
    var joined, key := JoinedRow(plan.groupBy, groups, db, keyRow, |groups|), KeyOf(plan.groupBy, keyRow);
    forall i | 0 <= i < |plan.metrics|
      ensures CellAgrees(plan, groups, db, ColumnsFrom(K, plan, groups), joined, key, i)
    {
      MetricAgrees(plan, groups, db, keyRow, i);
    }
    KeyCells(plan, groups, db, keyRow);
    SameCells(plan, groups, db, ColumnsFrom(K, plan, groups), joined, key);
  }

  lemma KeyCells(plan: Plan, groups: seq<SqlGroup>, db: string -> Relation, keyRow: Row)
    requires Owned(groups, plan.metrics)
    ensures var joined := JoinedRow(plan.groupBy, groups, db, keyRow, |groups|);
      forall i | 0 <= i < |plan.groupBy| ::
        Read(joined, ColumnsFrom(K, plan, groups)[i].0) == KeyOf(plan.groupBy, keyRow)[i]
  {
    ColumnAt(K, plan, groups);
  }

  predicate CellAgrees(plan: Plan, groups: seq<SqlGroup>, db: string -> Relation, columns: seq<(Column, string)>,
                       joined: Joined, key: Key, i: nat)
    requires Owned(groups, plan.metrics) && |columns| == |key| + |plan.metrics| && i < |plan.metrics|
  {
    plan.metrics[i] in plan.metrics
    && Read(joined, columns[|key| + i].0) == MetricCell(plan.groupBy, groups, db, key, plan.metrics[i])
  }

  lemma MetricAgrees(plan: Plan, groups: seq<SqlGroup>, db: string -> Relation, keyRow: Row, i: nat)
    requires Owned(groups, plan.metrics) && i < |plan.metrics|
    ensures CellAgrees(plan, groups, db, ColumnsFrom(K, plan, groups),
                       JoinedRow(plan.groupBy, groups, db, keyRow, |groups|), KeyOf(plan.groupBy, keyRow), i)
  {
    ColumnAt(K, plan, groups);
    PartnerCell(plan.groupBy, groups, db, keyRow, plan.metrics[i]);
  }

  /** An output row is the aligned row when it agrees with it column by column. */
  lemma SameCells(plan: Plan, groups: seq<SqlGroup>, db: string -> Relation, columns: seq<(Column, string)>,
                  joined: Joined, key: Key)
    requires Owned(groups, plan.metrics) && |columns| == |key| + |plan.metrics|
    requires forall i | 0 <= i < |key| :: Read(joined, columns[i].0) == key[i]
    requires forall i | 0 <= i < |plan.metrics| :: CellAgrees(plan, groups, db, columns, joined, key, i)
    ensures Output(columns, joined) == AlignedRow(plan, groups, db, key)
  {
    var cells, aligned := Output(columns, joined), AlignedRow(plan, groups, db, key);
    forall c | 0 <= c < |columns| ensures cells[c] == aligned[c] {
      if c >= |key| {
        assert CellAgrees(plan, groups, db, columns, joined, key, c - |key|);
      }
    }
  }

  /** Reading a single group directly gives the same as the general form. */
  lemma DirectMeaning(plan: Plan, groups: seq<SqlGroup>, db: string -> Relation)
    requires |groups| == 1 && Owned(groups, plan.metrics) && AllUnique(plan.groupBy, groups, db)
    ensures Eval(Direct(plan, groups), db) == AlignedRows(plan, groups, db)
  {
    var rows, names := db(groups[0].sql), plan.groupBy;
    SingleKeys(names, groups, db);
    var env := Tables(Direct(plan, groups), db);
    assert env(GroupTable(0)) == rows;
    forall i | 0 <= i < |rows| ensures Eval(Direct(plan, groups), db)[i] == AlignedRow(plan, groups, db, KeyOf(names, rows[i])) {
      DirectRow(plan, groups, db, i);
    }
  }

  lemma SingleKeys(names: seq<string>, groups: seq<SqlGroup>, db: string -> Relation)
    requires |groups| == 1 && UniqueKeys(names, db(groups[0].sql))
    ensures AllKeys(names, groups, db) == KeysOf(names, db(groups[0].sql))
  {
    var keys := KeysOf(names, db(groups[0].sql));
    GatherOne(names, groups, db);
    AlreadyDistinct(keys);
  }

  lemma GatherOne(names: seq<string>, groups: seq<SqlGroup>, db: string -> Relation)
    requires |groups| == 1
    ensures GatherKeys(names, groups, db) == KeysOf(names, db(groups[0].sql))
  {
    assert groups[..0] == [];
    assert GatherKeys(names, groups[..0], db) == [];
  }

  lemma DirectRow(plan: Plan, groups: seq<SqlGroup>, db: string -> Relation, i: nat)
    requires |groups| == 1 && Owned(groups, plan.metrics) && AllUnique(plan.groupBy, groups, db) && i < |db(groups[0].sql)|
    ensures var row := db(groups[0].sql)[i];
      Output(ColumnsFrom(G(0), plan, groups), map[G(0) := row]) == AlignedRow(plan, groups, db, KeyOf(plan.groupBy, row))
  {
    var rows := db(groups[0].sql);
    LookupSelf(plan.groupBy, rows, i);
    ColumnAt(G(0), plan, groups);
    forall c | 0 <= c < |plan.metrics|
      ensures CellAgrees(plan, groups, db, ColumnsFrom(G(0), plan, groups), map[G(0) := rows[i]], KeyOf(plan.groupBy, rows[i]), c)
    {}
    SameCells(plan, groups, db, ColumnsFrom(G(0), plan, groups), map[G(0) := rows[i]], KeyOf(plan.groupBy, rows[i]));
  }

  lemma LookupSelf(names: seq<string>, rows: Relation, i: nat)
    requires i < |rows| && UniqueKeys(names, rows)
    ensures Lookup(names, rows, KeyOf(names, rows[i])) == Some(rows[i])
  {
    var row := Lookup(names, rows, KeyOf(names, rows[i]));
    assert rows[i] in rows;
    var k :| 0 <= k < |rows| && rows[k] == row.value;
    if k < i { assert KeyOf(names, rows[k]) != KeyOf(names, rows[i]); }
    if i < k { assert KeyOf(names, rows[i]) != KeyOf(names, rows[k]); }
  }

  lemma {:induction false} AlreadyDistinct(s: seq<Key>)
    requires forall i, k | 0 <= i < k < |s| :: s[i] != s[k]
    ensures Distinct(s) == s
  {
    if s != [] { AlreadyDistinct(s[..|s| - 1]); }
  }

  lemma SameMeaning(plan: Plan, groups: seq<SqlGroup>, db: string -> Relation)
    requires |groups| == 1 && Owned(groups, plan.metrics) && AllUnique(plan.groupBy, groups, db)
    ensures Eval(Direct(plan, groups), db) == Eval(General(plan, groups), db)
  {
    DirectMeaning(plan, groups, db);
    GeneralMeaning(plan, groups, db);
  }
}
