/** A bound query from request to result: plan, native compilation, alignment, ordering and truncation. */
module BoundQuery {
  import opened Common
  import opened BoundPlan
  import opened BoundPlanLaws
  import opened BoundGroups
  import opened BoundSql
  import opened BoundSqlLaws
  import opened Permutations

  datatype QueryError = Rejected(error: Error) | NotCompiled(reason: CompileError)

  // ---- Ordering and limiting the aligned rows ----

  function Position(columns: seq<(Column, string)>, name: string): (p: Option<nat>)
    ensures p.Some? ==> p.value < |columns| && columns[p.value].1 == name
    ensures p.None? ==> forall i | 0 <= i < |columns| :: columns[i].1 != name
  {
    if columns == [] then None
    else if columns[0].1 == name then Some(0)
    else match Position(columns[1..], name) case None => None case Some(p) => Some(p + 1)
  }

  /** Row `a` may come before row `b` under the order terms; `le` is the warehouse's order of cells. */
  predicate Precedes(le: (Cell, Cell) -> bool, columns: seq<(Column, string)>, terms: seq<Sorting>, a: seq<Cell>, b: seq<Cell>)
    requires |a| == |b| == |columns|
    decreases |terms|
  {
    if terms == [] then true
    else match Position(columns, terms[0].column)
      case None => Precedes(le, columns, terms[1..], a, b)
      case Some(p) =>
        var x, y := if terms[0].descending then b[p] else a[p], if terms[0].descending then a[p] else b[p];
        le(x, y) && (!le(y, x) || Precedes(le, columns, terms[1..], a, b))
  }

  predicate InOrder(le: (Cell, Cell) -> bool, query: Query, rows: seq<seq<Cell>>) {
    && (forall i | 0 <= i < |rows| :: |rows[i]| == |query.columns|)
    && forall i, k | 0 <= i < k < |rows| :: Precedes(le, query.columns, query.orderBy, rows[i], rows[k])
  }

  /** A possible answer of the warehouse: the rows in some order that satisfies ORDER BY, cut at LIMIT. */
  ghost predicate Answers(le: (Cell, Cell) -> bool, query: Query, db: string -> Relation, all: seq<seq<Cell>>,
                          out: seq<seq<Cell>>) {
    && multiset(all) == multiset(Eval(query, db)) && InOrder(le, query, all)
    && out == all[..if query.limit < |all| then query.limit else |all|]
  }

  /** The rows shown, and whether the result is reported as truncated. */
  function Shown(plan: Plan, out: seq<seq<Cell>>): (seq<seq<Cell>>, bool) {
    (out[..if plan.limit < |out| then plan.limit else |out|], |out| > plan.limit)
  }

  /** Truncation is reported exactly when the aligned result has more rows than the limit; the rows shown are the
      first ones of the ordered aligned result. */
  lemma TruncationExact(le: (Cell, Cell) -> bool, plan: Plan, groups: seq<SqlGroup>, query: Query, db: string -> Relation,
                        all: seq<seq<Cell>>, out: seq<seq<Cell>>)
    requires Owned(groups, plan.metrics) && AllUnique(plan.groupBy, groups, db)
    requires query == if |groups| == 1 then Direct(plan, groups) else General(plan, groups)
    requires Answers(le, query, db, all, out)
    ensures multiset(all) == multiset(AlignedRows(plan, groups, db))
    ensures Shown(plan, out).1 <==> |AlignedRows(plan, groups, db)| > plan.limit
    ensures Shown(plan, out).0 == all[..if plan.limit < |all| then plan.limit else |all|]
    ensures !Shown(plan, out).1 ==> multiset(Shown(plan, out).0) == multiset(AlignedRows(plan, groups, db))
  {
    if |groups| == 1 { DirectMeaning(plan, groups, db); } else { GeneralMeaning(plan, groups, db); }
    assert |all| == |multiset(all)| == |multiset(AlignedRows(plan, groups, db))| == |AlignedRows(plan, groups, db)|;
    if !Shown(plan, out).1 { assert Shown(plan, out).0 == all; }
  }

  // ---- What sorted rows look like ----

  /** The cell of a row that an order term sorts by. */
  function SortCell(columns: seq<(Column, string)>, term: Sorting, row: seq<Cell>): Cell
    requires |row| == |columns| && Position(columns, term.column).Some?
  {
    row[Position(columns, term.column).value]
  }

  predicate Tied(le: (Cell, Cell) -> bool, x: Cell, y: Cell) {
    le(x, y) && le(y, x)
  }

  lemma {:induction false} PrecedesAt(le: (Cell, Cell) -> bool, columns: seq<(Column, string)>, terms: seq<Sorting>,
                                      a: seq<Cell>, b: seq<Cell>, n: nat)
    requires |a| == |b| == |columns| && Precedes(le, columns, terms, a, b) && n < |terms|
    requires forall t: nat | t <= n :: Position(columns, terms[t].column).Some?
    requires forall t: nat | t < n :: Tied(le, SortCell(columns, terms[t], a), SortCell(columns, terms[t], b))
    ensures var x, y := SortCell(columns, terms[n], a), SortCell(columns, terms[n], b);
      if terms[n].descending then le(y, x) else le(x, y)
  {
    assert Position(columns, terms[0].column).Some?;
    if n > 0 {
      assert Tied(le, SortCell(columns, terms[0], a), SortCell(columns, terms[0], b));
      PrecedesAt(le, columns, terms[1..], a, b, n - 1);
    }
  }

  /** Of two rows shown, the earlier one comes first by the first order clause in which they differ, in its direction. */
  lemma ShownInOrder(le: (Cell, Cell) -> bool, plan: Plan, query: Query, db: string -> Relation, all: seq<seq<Cell>>,
                     out: seq<seq<Cell>>, i: nat, k: nat, n: nat)
    requires Answers(le, query, db, all, out) && i < k < |Shown(plan, out).0| && n < |query.orderBy|
    requires forall t: nat | t <= n :: Position(query.columns, query.orderBy[t].column).Some?
    requires var rows := Shown(plan, out).0; |rows[i]| == |rows[k]| == |query.columns| && forall t: nat | t < n ::
      Tied(le, SortCell(query.columns, query.orderBy[t], rows[i]), SortCell(query.columns, query.orderBy[t], rows[k]))
    ensures var rows := Shown(plan, out).0;
      var x, y := SortCell(query.columns, query.orderBy[n], rows[i]), SortCell(query.columns, query.orderBy[n], rows[k]);
      if query.orderBy[n].descending then le(y, x) else le(x, y)
  {
    assert Shown(plan, out).0[i] == all[i] && Shown(plan, out).0[k] == all[k];
    PrecedesAt(le, query.columns, query.orderBy, all[i], all[k], n);
  }

  // ---- Order terms survive the trip through the plan's strings ----

  /** An order term is read back as it was meant, unless an ascending column starts with a minus. */
  lemma OrderReadBack(column: string, descending: bool)
    ensures Sorted((if descending then "-" else "") + column) == Sorting(column, descending)
            <==> (descending || column == "" || column[0] != '-')
  {
    var term := (if descending then "-" else "") + column;
    if descending {
      assert term[1..] == column;
    } else {
      assert term == column;
      if column != "" && column[0] == '-' { assert Sorted(term).descending; }
    }
  }

  /** Every order clause of the final query sorts, in the requested direction, by the one output column that the
      requested field stands for: the last dimension of that name, or else the metric. */
  lemma SortsByOutput(input: Input, plan: Plan, groups: seq<SqlGroup>, query: Query, i: nat) returns (column: string, at: nat)
    requires WellFormed(input) && PlanFor(input) == Ok(plan) && i < |input.request.orderBy|
    requires Owned(groups, plan.metrics)
    requires query == if |groups| == 1 then Direct(plan, groups) else General(plan, groups)
    requires forall name | name in plan.groupBy || name in plan.metrics :: name == "" || name[0] != '-'
    ensures i < |query.orderBy| && query.orderBy[i] == Sorting(column, input.request.orderBy[i].descending)
    ensures |query.columns| == |plan.groupBy| + |plan.metrics| && |plan.groupBy| == |input.request.groupBy|
    ensures at < |query.columns| && Position(query.columns, column) == Some(at)
    ensures forall other | 0 <= other < |query.columns| && query.columns[other].1 == column :: other == at
    ensures var field := input.request.orderBy[i].fieldId;
      if field in Keys(input) then LastAt(Keys(input), at, field) && column == plan.groupBy[at]
      else at >= |plan.groupBy| && column == field == plan.metrics[at - |plan.groupBy|]
  {
    column, at := FieldColumn(input, plan, i);
    OutputNames(plan, groups, query);
    OutputsDistinct(input, plan);
    OnlyPosition(plan, query.columns, at);
    OrderReadBack(column, input.request.orderBy[i].descending);
  }

  /** The output that a requested order field stands for. */
  lemma FieldColumn(input: Input, plan: Plan, i: nat) returns (column: string, at: nat)
    requires WellFormed(input) && PlanFor(input) == Ok(plan) && i < |input.request.orderBy|
    ensures |plan.orderBy| == |input.request.orderBy| && |plan.groupBy| == |input.request.groupBy|
    ensures plan.orderBy[i] == (if input.request.orderBy[i].descending then "-" else "") + column
    ensures at < |plan.groupBy| + |plan.metrics| && OutputName(plan, at) == column
    ensures column in plan.groupBy || column in plan.metrics
    ensures var field := input.request.orderBy[i].fieldId;
      if field in Keys(input) then LastAt(Keys(input), at, field) && column == plan.groupBy[at]
      else at >= |plan.groupBy| && column == field == plan.metrics[at - |plan.groupBy|]
  {
    var field := input.request.orderBy[i].fieldId;
    column := OrderProjected(input, plan, i);
    if field in Keys(input) {
      var k: nat :| LastAt(Keys(input), k, field) && column == plan.groupBy[k];
      at := k;
    } else {
      var k :| 0 <= k < |plan.metrics| && plan.metrics[k] == column;
      at := |plan.groupBy| + k;
    }
  }

  lemma OnlyPosition(plan: Plan, columns: seq<(Column, string)>, at: nat)
    requires |columns| == |plan.groupBy| + |plan.metrics| && at < |columns|
    requires forall k: nat | k < |columns| :: columns[k].1 == OutputName(plan, k)
    requires forall a: nat, b: nat | a < b < |columns| :: OutputName(plan, a) != OutputName(plan, b)
    ensures Position(columns, OutputName(plan, at)) == Some(at)
    ensures forall other | 0 <= other < |columns| && columns[other].1 == OutputName(plan, at) :: other == at
  {
    var found := Position(columns, OutputName(plan, at));
    assert columns[at].1 == OutputName(plan, at);
    assert found.Some? && columns[found.value].1 == OutputName(plan, found.value);
  }

  function OutputName(plan: Plan, at: nat): string
    requires at < |plan.groupBy| + |plan.metrics|
  {
    if at < |plan.groupBy| then plan.groupBy[at] else plan.metrics[at - |plan.groupBy|]
  }

  lemma OutputNames(plan: Plan, groups: seq<SqlGroup>, query: Query)
    requires Owned(groups, plan.metrics)
    requires query == if |groups| == 1 then Direct(plan, groups) else General(plan, groups)
    ensures |query.columns| == |plan.groupBy| + |plan.metrics| && query.orderBy == Sortings(plan.orderBy)
    ensures forall at: nat | at < |query.columns| :: query.columns[at].1 == OutputName(plan, at)
  {
    var keyAlias := if |groups| == 1 then G(0) else K;
    assert query.columns == ColumnsFrom(keyAlias, plan, groups);
  }

  /** No two output columns share a name. */
  lemma OutputsDistinct(input: Input, plan: Plan)
    requires WellFormed(input) && PlanFor(input) == Ok(plan)
    ensures forall a: nat, b: nat | a < b < |plan.groupBy| + |plan.metrics| :: OutputName(plan, a) != OutputName(plan, b)
  {
    MetricsOnce(input, plan);
    assert Aligned(input, input.request.metrics[0]);
    forall a: nat, b: nat | a < b < |plan.groupBy| + |plan.metrics| ensures OutputName(plan, a) != OutputName(plan, b) {
      if a < |plan.groupBy| && b >= |plan.groupBy| {
        assert plan.groupBy[a] in plan.groupBy && plan.metrics[b - |plan.groupBy|] in plan.metrics;
      }
    }
  }

  // ---- Where each metric's values come from ----

  lemma {:induction false} FlatMember(lists: seq<seq<string>>, m: string) returns (g: nat)
    requires m in Flat(lists)
    ensures g < |lists| && m in lists[g]
  {
    var n := |lists| - 1;
    if m in lists[n] { g := n; } else { g := FlatMember(lists[..n], m); }
  }

  lemma {:induction false} InFlat(lists: seq<seq<string>>, m: string, g: nat)
    requires g < |lists| && m in lists[g]
    ensures m in Flat(lists)
  {
    if g < |lists| - 1 { InFlat(lists[..|lists| - 1], m, g); }
  }

  /** A metric counted once stands in one list only. */
  lemma {:induction false} CountedOnce(lists: seq<seq<string>>, m: string, g: nat, h: nat)
    requires multiset(Flat(lists))[m] <= 1 && g < |lists| && h < |lists| && m in lists[g] && m in lists[h]
    ensures g == h
  {
    var n := |lists| - 1;
    assert multiset(Flat(lists)) == multiset(Flat(lists[..n])) + multiset(lists[n]);
    if g < n && h < n {
      CountedOnce(lists[..n], m, g, h);
    } else if g < n || h < n {
      InFlat(lists[..n], m, if g < n then g else h);
    }
  }

  lemma {:induction false} ConcatMember(parts: seq<seq<SqlGroup>>, o: nat) returns (i: nat, k: nat)
    requires o < |Concat(parts)|
    ensures i < |parts| && k < |parts[i]| && parts[i][k] == Concat(parts)[o]
  {
    var n := |parts| - 1;
    if o < |Concat(parts[..n])| {
      i, k := ConcatMember(parts[..n], o);
    } else {
      i, k := n, o - |Concat(parts[..n])|;
    }
  }

  /** The compiled groups hold each metric of the plan once. */
  lemma CompiledOnce(input: Input, plan: Plan, compile: Group -> Outcome, parts: seq<seq<SqlGroup>>)
    requires WellFormed(input) && PlanFor(input) == Ok(plan)
    requires |parts| == |plan.groups| && AllCovered(plan.groups, compile, parts)
    ensures multiset(Flat(Metrics(Concat(parts)))) == multiset(plan.metrics)
  {
    MetricsOnce(input, plan);
    forall i | 0 <= i < |parts| ensures SameMetrics(parts[i], plan.groups[i].query.metrics) { assert Covers(plan.groups[i], compile, parts[i]); }
    FlatConcat(parts, plan.groups);
  }

  /** Every metric's values come from one SQL group, compiled for a set of metrics that all follow its own path. */
  lemma MetricSource(input: Input, plan: Plan, compile: Group -> Outcome, parts: seq<seq<SqlGroup>>, m: string)
    returns (i: nat, k: nat)
    requires WellFormed(input) && PlanFor(input) == Ok(plan) && m in plan.metrics
    requires |parts| == |plan.groups| && AllCovered(plan.groups, compile, parts)
    ensures Lists(Concat(parts), m) && i < |parts| && k < |parts[i]|
    ensures Concat(parts)[Owner(Concat(parts), m)] == parts[i][k]
    ensures forall g | 0 <= g < |Concat(parts)| && m in Concat(parts)[g].metrics :: g == Owner(Concat(parts), m)
    ensures i < |plan.groups| && |plan.groups[i].query.filters| == |input.request.filters|
    ensures forall f | 0 <= f < |input.request.filters| ::
      FiltersBy(plan.groups[i].query.filters[f], input.request.filters[f], input.common)
    ensures var filters, path := plan.groups[i].query.filters, plan.groups[i].dimensions;
      compile(Group(CompiledQuery(parts[i][k].metrics, Tokens(path), filters, [], input.request.limit), path))
        == Compiled(parts[i][k].sql)
    ensures forall x | x in parts[i][k].metrics ::
      x in input.request.metrics && Resolves(input, x) && PathOf(input, x) == plan.groups[i].dimensions
  {
    var groups := Concat(parts);
    CompiledOnce(input, plan, compile, parts);
    MetricsOnce(input, plan);
    assert m in multiset(plan.metrics);
    var g := FlatMember(Metrics(groups), m);
    assert m in groups[g].metrics;
    NoRepeatCounts(plan.metrics, m);
    forall h | 0 <= h < |groups| && m in groups[h].metrics ensures h == Owner(groups, m) {
      CountedOnce(Metrics(groups), m, h, Owner(groups, m));
    }
    i, k := ConcatMember(parts, Owner(groups, m));
    assert Covers(plan.groups[i], compile, parts[i]);
    PartFollowsPath(input, plan, i, parts[i], k);
    GroupQuery(input, plan, i);
  }

  /** Every group of a plan asks for the requested filters and limit along its path, unordered. */
  lemma GroupQuery(input: Input, plan: Plan, i: nat)
    requires WellFormed(input) && PlanFor(input) == Ok(plan) && i < |plan.groups|
    ensures var group := plan.groups[i];
      && group.query == CompiledQuery(group.query.metrics, Tokens(group.dimensions), group.query.filters, [], input.request.limit)
      && |group.query.filters| == |input.request.filters|
      && (forall f | 0 <= f < |input.request.filters| :: FiltersBy(group.query.filters[f], input.request.filters[f], input.common))
  {
    forall x | x in plan.metrics ensures x in input.request.metrics && Resolves(input, x) { assert Aligned(input, x); }
    forall f | 0 <= f < |input.request.filters|
      ensures FiltersBy(plan.groups[i].query.filters[f], input.request.filters[f], input.common)
    {
      assert FilterOk(input.common, input.request.filters[f]);
    }
  }

  lemma PartFollowsPath(input: Input, plan: Plan, i: nat, part: seq<SqlGroup>, k: nat)
    requires WellFormed(input) && PlanFor(input) == Ok(plan)
    requires i < |plan.groups| && SameMetrics(part, plan.groups[i].query.metrics) && k < |part|
    ensures forall x | x in part[k].metrics ::
      x in input.request.metrics && Resolves(input, x) && PathOf(input, x) == plan.groups[i].dimensions
  {
    forall x | x in plan.metrics ensures x in input.request.metrics && Resolves(input, x) { assert Aligned(input, x); }
    AlongMembers(input, plan.metrics, plan.groups[i].dimensions);
    forall x | x in part[k].metrics ensures x in plan.groups[i].query.metrics {
      InFlat(Metrics(part), x, k);
      assert x in multiset(plan.groups[i].query.metrics);
    }
  }

  lemma AllOwned(input: Input, plan: Plan, compile: Group -> Outcome, parts: seq<seq<SqlGroup>>)
    requires WellFormed(input) && PlanFor(input) == Ok(plan)
    requires |parts| == |plan.groups| && AllCovered(plan.groups, compile, parts)
    ensures Owned(Concat(parts), plan.metrics) && plan.metrics != []
  {
    forall m | m in plan.metrics ensures Lists(Concat(parts), m) {
      var i, k := MetricSource(input, plan, compile, parts, m);
    }
    FirstKept(input.request.metrics);
  }

  /** The whole way from a request to its SQL. A request is rejected with the planner's error; a planned query fails
      only with the outcome of the last engine call made; otherwise there is a query. */
  method QueryBound(input: Input, compile: Group -> Outcome)
    returns (query: Result<Query, QueryError>, ghost plan: Plan, ghost parts: seq<seq<SqlGroup>>, ghost calls: seq<Group>)
    requires WellFormed(input) && input.request.groupBy != []
    ensures forall e :: query == Err(Rejected(e)) <==> PlanFor(input) == Err(e)
    ensures PlanFor(input).Ok? ==> PlanFor(input) == Ok(plan) && AllCallsFor(plan.groups, calls)
    ensures forall e | query == Err(NotCompiled(e)) :: PlanFor(input).Ok? && LastBlamed(compile, calls, e)
    ensures PlanFor(input).Ok? && (forall i | 0 <= i < |plan.groups| :: Tame(plan.groups[i], compile)) ==> query.Ok?
    ensures query.Ok? ==> |parts| == |plan.groups| && AllCovered(plan.groups, compile, parts)
    ensures query.Ok? ==> Owned(Concat(parts), plan.metrics)
    ensures query.Ok? ==> query.value == if |Concat(parts)| == 1 then Direct(plan, Concat(parts)) else General(plan, Concat(parts))
  {
    plan, parts, calls := Plan([], [], [], [], 0), [], [];
    var planned := CompileBoundQuery(input);
    if planned.Err? { return Err(Rejected(planned.error)), plan, parts, calls; }
    plan := planned.value;
    var groups;
    groups, parts, calls := CompileGroups(planned.value.groups, compile);
    if groups.Err? { return Err(NotCompiled(groups.error)), plan, parts, calls; }
    AllOwned(input, plan, compile, parts);
    assert groups.value != [] by { assert Lists(groups.value, plan.metrics[0]); }
    var merged := MergeSql(planned.value, groups.value);
    query := Ok(merged);
  }
}
