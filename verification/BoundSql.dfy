/** The SQL that aligns the groups of a plan, as a query over relations with NULL and three-valued logic. */
module BoundSql {
  import opened Common
  import opened BoundPlan
  import opened BoundGroups

  // ---- Relations and queries ----

  datatype Cell = Null | Of(value: int)
  type Row = map<string, Cell>
  type Relation = seq<Row>

  datatype Alias = K | G(index: nat)
  datatype Table = KeysTable | GroupTable(index: nat)
  datatype Column = Column(alias: Alias, name: string)
  datatype Pred = Eq(left: Column, right: Column) | IsNull(column: Column) | Or(p: Pred, q: Pred) | And(p: Pred, q: Pred)
                | AllOf(parts: seq<Pred>)
  datatype From = Scan(table: Table, alias: Alias) | LeftJoin(left: From, table: Table, alias: Alias, on: Pred)
  datatype KeySelect = KeySelect(columns: seq<string>, group: nat)
  datatype Sorting = Sorting(column: string, descending: bool)
  datatype Query = Query(bodies: seq<string>, keys: Option<seq<KeySelect>>, columns: seq<(Column, string)>, source: From,
                         orderBy: seq<Sorting>, limit: nat)

  // ---- Three-valued logic: section 8.2 of ISO/IEC 9075-2 ----

  datatype Truth = True | False | Unknown

  function EqCells(a: Cell, b: Cell): Truth {
    if a.Null? || b.Null? then Unknown else if a == b then True else False
  }

  function Or3(a: Truth, b: Truth): Truth {
    if a == True || b == True then True else if a == False && b == False then False else Unknown
  }

  function And3(a: Truth, b: Truth): Truth {
    if a == False || b == False then False else if a == True && b == True then True else Unknown
  }

  /** A missing cell, as in the padding of an outer join, reads NULL. */
  function Get(row: Row, name: string): Cell {
    if name in row then row[name] else Null
  }

  type Joined = map<Alias, Row>

  function Read(joined: Joined, column: Column): Cell {
    if column.alias in joined then Get(joined[column.alias], column.name) else Null
  }

  function Holds3(joined: Joined, on: Pred): Truth {
    match on
    case Eq(left, right) => EqCells(Read(joined, left), Read(joined, right))
    case IsNull(column) => if Read(joined, column).Null? then True else False
    case Or(p, q) => Or3(Holds3(joined, p), Holds3(joined, q))
    case And(p, q) => And3(Holds3(joined, p), Holds3(joined, q))
    case AllOf(parts) => AllHold3(joined, parts)
  }

  function AllHold3(joined: Joined, parts: seq<Pred>): Truth {
    if parts == [] then True else And3(Holds3(joined, parts[0]), AllHold3(joined, parts[1..]))
  }

  // ---- Evaluation ----

  function Matching(joined: Joined, alias: Alias, rows: Relation, on: Pred): Relation {
    if rows == [] then []
    else
      (if Holds3(joined[alias := rows[0]], on) == True then [rows[0]] else []) + Matching(joined, alias, rows[1..], on)
  }

  /** One row of the left side with all its partners, or with a row of NULLs. */
  function JoinOne(joined: Joined, alias: Alias, rows: Relation, on: Pred): seq<Joined> {
    var partners := Matching(joined, alias, rows, on);
    if partners == [] then [joined[alias := map[]]]
    else seq(|partners|, i requires 0 <= i < |partners| => joined[alias := partners[i]])
  }

  function JoinEach(left: seq<Joined>, alias: Alias, rows: Relation, on: Pred): seq<Joined> {
    if left == [] then [] else JoinOne(left[0], alias, rows, on) + JoinEach(left[1..], alias, rows, on)
  }

  function EvalFrom(env: Table -> Relation, source: From): seq<Joined> {
    match source
    case Scan(table, alias) => var rows := env(table); seq(|rows|, i requires 0 <= i < |rows| => map[alias := rows[i]])
    case LeftJoin(left, table, alias, on) => JoinEach(EvalFrom(env, left), alias, env(table), on)
  }

  function Project(names: seq<string>, row: Row): Row {
    map n | n in names :: Get(row, n)
  }

  function ProjectAll(names: seq<string>, rows: Relation): (projected: Relation)
    ensures |projected| == |rows|
  {
    seq(|rows|, i requires 0 <= i < |rows| => Project(names, rows[i]))
  }

  /** The rows of all the selected groups, one after the other. */
  function Gather(bodies: seq<string>, selects: seq<KeySelect>, db: string -> Relation): Relation {
    if selects == [] then []
    else
      var last := selects[|selects| - 1];
      Gather(bodies, selects[..|selects| - 1], db) +
      if last.group < |bodies| then ProjectAll(last.columns, db(bodies[last.group])) else []
  }

  /** The common table expressions; UNION keeps one of several rows that are not distinct. */
  function Tables(query: Query, db: string -> Relation): Table -> Relation {
    (table: Table) => match table
      case GroupTable(i) => if i < |query.bodies| then db(query.bodies[i]) else []
      case KeysTable => if query.keys.Some? then Distinct(Gather(query.bodies, query.keys.value, db)) else []
  }

  /** The output of one joined row, by position. */
  function Output(columns: seq<(Column, string)>, joined: Joined): (cells: seq<Cell>)
    ensures |cells| == |columns|
  {
    seq(|columns|, i requires 0 <= i < |columns| => Read(joined, columns[i].0))
  }

  /** The result before ordering and limiting, in some order. */
  function Eval(query: Query, db: string -> Relation): seq<seq<Cell>> {
    var rows := EvalFrom(Tables(query, db), query.source);
    seq(|rows|, i requires 0 <= i < |rows| => Output(query.columns, rows[i]))
  }

  // ---- The query that is built ----

  predicate Lists(groups: seq<SqlGroup>, metric: string) {
    exists i :: 0 <= i < |groups| && metric in groups[i].metrics
  }

  lemma ListsMore(groups: seq<SqlGroup>, n: nat, metric: string)
    requires n < |groups|
    ensures Lists(groups[..n + 1], metric) <==> Lists(groups[..n], metric) || metric in groups[n].metrics
  {
    assert groups[..n + 1] == groups[..n] + [groups[n]];
    if Lists(groups[..n], metric) {
      var i :| 0 <= i < n && metric in groups[..n][i].metrics;
      assert metric in groups[..n + 1][i].metrics;
    }
    if metric in groups[n].metrics { assert metric in groups[..n + 1][n].metrics; }
  }

  /** The last group that lists the metric. */
  function Owner(groups: seq<SqlGroup>, metric: string): (g: nat)
    requires Lists(groups, metric)
    ensures g < |groups| && metric in groups[g].metrics
    ensures forall later | g < later < |groups| :: metric !in groups[later].metrics
  {
    var n := |groups| - 1;
    if metric in groups[n].metrics then n
    else
      ListsMore(groups, n, metric);
      assert groups[..n + 1] == groups;
      Owner(groups[..n], metric)
  }

  lemma OwnerMore(groups: seq<SqlGroup>, n: nat, metric: string)
    requires n < |groups| && Lists(groups[..n + 1], metric)
    ensures metric in groups[n].metrics ==> Owner(groups[..n + 1], metric) == n
    ensures metric !in groups[n].metrics ==>
      Lists(groups[..n], metric) && Owner(groups[..n + 1], metric) == Owner(groups[..n], metric)
  {
    ListsMore(groups, n, metric);
    assert groups[..n + 1][..n] == groups[..n];
  }

  predicate Owned(groups: seq<SqlGroup>, metrics: seq<string>) {
    forall m | m in metrics :: Lists(groups, m)
  }

  function SameName(g: nat, name: string): Pred {
    Or(Eq(Column(K, name), Column(G(g), name)), And(IsNull(Column(K, name)), IsNull(Column(G(g), name))))
  }

  function SameKey(g: nat, names: seq<string>): Pred {
    AllOf(seq(|names|, i requires 0 <= i < |names| => SameName(g, names[i])))
  }

  function Chain(names: seq<string>, n: nat): From {
    if n == 0 then Scan(KeysTable, K) else LeftJoin(Chain(names, n - 1), GroupTable(n - 1), G(n - 1), SameKey(n - 1, names))
  }

  function Bodies(groups: seq<SqlGroup>): (bodies: seq<string>)
    ensures |bodies| == |groups|
  {
    seq(|groups|, i requires 0 <= i < |groups| => groups[i].sql)
  }

  function KeySelects(names: seq<string>, n: nat): (selects: seq<KeySelect>)
    ensures |selects| == n
  {
    seq(n, i requires 0 <= i < n => KeySelect(names, i))
  }

  function ColumnsFrom(keyAlias: Alias, plan: Plan, groups: seq<SqlGroup>): (columns: seq<(Column, string)>)
    requires Owned(groups, plan.metrics)
    ensures |columns| == |plan.groupBy| + |plan.metrics|
  {
    seq(|plan.groupBy|, i requires 0 <= i < |plan.groupBy| => (Column(keyAlias, plan.groupBy[i]), plan.groupBy[i]))
    + seq(|plan.metrics|, i requires 0 <= i < |plan.metrics| =>
        assert plan.metrics[i] in plan.metrics;
        (Column(G(Owner(groups, plan.metrics[i])), plan.metrics[i]), plan.metrics[i]))
  }

  /** A leading minus means descending. */
  function Sorted(term: string): Sorting {
    if term != "" && term[0] == '-' then Sorting(term[1..], true) else Sorting(term, false)
  }

  function Sortings(terms: seq<string>): (sortings: seq<Sorting>)
    ensures |sortings| == |terms|
  {
    seq(|terms|, i requires 0 <= i < |terms| => Sorted(terms[i]))
  }

  /** The key union with one null-safe outer join per group. */
  function General(plan: Plan, groups: seq<SqlGroup>): Query
    requires Owned(groups, plan.metrics)
  {
    Query(Bodies(groups), Some(KeySelects(plan.groupBy, |groups|)), ColumnsFrom(K, plan, groups),
          Chain(plan.groupBy, |groups|), Sortings(plan.orderBy), plan.limit + 1)
  }

  /** A single group is read directly. */
  function Direct(plan: Plan, groups: seq<SqlGroup>): Query
    requires Owned(groups, plan.metrics)
  {
    Query(Bodies(groups), None, ColumnsFrom(G(0), plan, groups), Scan(GroupTable(0), G(0)), Sortings(plan.orderBy), plan.limit + 1)
  }

  method BuildSource(names: seq<string>, n: nat) returns (source: From)
    ensures source == Chain(names, n)
  {
    source := Scan(KeysTable, K);
    var g := 0;
    while g < n
      invariant 0 <= g <= n && source == Chain(names, g)
    {
      var predicates: seq<Pred> := [];
      var i := 0;
      while i < |names|
        invariant 0 <= i <= |names|
        invariant predicates == seq(i, k requires 0 <= k < i => SameName(g, names[k]))
      {
        var left, right := Column(K, names[i]), Column(G(g), names[i]);
        predicates := predicates + [Or(Eq(left, right), And(IsNull(left), IsNull(right)))];
        i := i + 1;
      }
      source := LeftJoin(source, GroupTable(g), G(g), AllOf(predicates));
      g := g + 1;
    }
  }

  method MetricGroups(groups: seq<SqlGroup>) returns (owners: map<string, nat>)
    ensures forall m :: m in owners <==> Lists(groups, m)
    ensures forall m | m in owners :: owners[m] == Owner(groups, m)
  {
    owners := map[];
    var index := 0;
    while index < |groups|
      invariant 0 <= index <= |groups|
      invariant forall m :: m in owners <==> Lists(groups[..index], m)
      invariant forall m | m in owners :: owners[m] == Owner(groups[..index], m)
    {
      forall m ensures Lists(groups[..index + 1], m) <==> Lists(groups[..index], m) || m in groups[index].metrics {
        ListsMore(groups, index, m);
      }
      forall m | Lists(groups[..index + 1], m)
        ensures m in groups[index].metrics ==> Owner(groups[..index + 1], m) == index
        ensures m !in groups[index].metrics ==>
          Lists(groups[..index], m) && Owner(groups[..index + 1], m) == Owner(groups[..index], m)
      {
        OwnerMore(groups, index, m);
      }
      owners := owners + map m | m in groups[index].metrics :: index;
      index := index + 1;
    }
    assert groups[..index] == groups;
  }

  method MergeSql(plan: Plan, groups: seq<SqlGroup>) returns (query: Query)
    requires Owned(groups, plan.metrics) && groups != []
    requires plan.groupBy == [] ==> |groups| == 1
    ensures query == if |groups| == 1 then Direct(plan, groups) else General(plan, groups)
  {
    var owners := MetricGroups(groups);
    var source, keyAlias, keys;
    if |groups| == 1 {
      source, keyAlias, keys := Scan(GroupTable(0), G(0)), G(0), None;
    } else {
      source := BuildSource(plan.groupBy, |groups|);
      keyAlias, keys := K, Some(KeySelects(plan.groupBy, |groups|));
    }
    var columns := seq(|plan.groupBy|, i requires 0 <= i < |plan.groupBy| => (Column(keyAlias, plan.groupBy[i]), plan.groupBy[i]));
    var m := 0;
    while m < |plan.metrics|
      invariant 0 <= m <= |plan.metrics|
      invariant columns == ColumnsFrom(keyAlias, plan, groups)[..|plan.groupBy| + m]
    {
      assert plan.metrics[m] in plan.metrics;
      columns := columns + [(Column(G(owners[plan.metrics[m]]), plan.metrics[m]), plan.metrics[m])];
      m := m + 1;
    }
    query := Query(Bodies(groups), keys, columns, source, Sortings(plan.orderBy), plan.limit + 1);
  }
}
