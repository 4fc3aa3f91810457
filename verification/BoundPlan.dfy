/** Queries that bind each metric to its own dimension path: from a request to a plan of query groups. */
module BoundPlan {
  import opened Common

  const TIME := "time"

  datatype Error = InvalidDimensionOption | InvalidFilterOption | InvalidOrderField

  datatype Selected = Selected(optionId: string, grain: Option<string>)
  datatype GroupItem = Shared(selected: Selected) | Bound(name: string, bindings: map<string, Selected>)
  datatype Filter = Filter(optionId: string, operator: string, value: string)
  datatype Order = Order(fieldId: string, descending: bool)
  datatype Request = Request(metrics: seq<string>, groupBy: seq<GroupItem>, filters: seq<Filter>, orderBy: seq<Order>,
                             limit: nat)

  datatype Dimension = Dimension(token: string, dimensionType: string, operators: set<string>,
                                 grainTokens: map<string, string>)
  type Options = map<string, Dimension>
  datatype Input = Input(request: Request, common: Options, perMetric: map<string, Options>)

  datatype BoundGroupBy = BoundGroupBy(name: string, token: string, dimensionType: string, grain: Option<string>)
  type Path = seq<BoundGroupBy>

  datatype QueryFilter = QueryFilter(field: string, operator: string, value: string)
  datatype CompiledQuery = CompiledQuery(metrics: seq<string>, groupBy: seq<string>, filters: seq<QueryFilter>,
                                         orderBy: seq<string>, limit: nat)
  datatype Group = Group(query: CompiledQuery, dimensions: Path)
  datatype Plan = Plan(metrics: seq<string>, groupBy: seq<string>, groups: seq<Group>, orderBy: seq<string>, limit: nat)

  /** What the request model and the option catalogue guarantee to the compiler. */
  predicate WellFormed(input: Input) {
    && |input.request.metrics| > 0
    && (forall m | m in input.request.metrics :: m in input.perMetric)
    && (forall g | g in input.request.groupBy && g.Bound? ::
          g.name != "" && forall m | m in input.request.metrics :: m in g.bindings)
  }

  // ---- One selected dimension ----

  function Resolve(selected: Selected, options: Options, name: Option<string>): Result<BoundGroupBy, Error> {
    if selected.optionId !in options then Err(InvalidDimensionOption)
    else
      var dimension := options[selected.optionId];
      if selected.grain.Some? && selected.grain.value !in dimension.grainTokens then Err(InvalidDimensionOption)
      else if dimension.dimensionType == TIME && selected.grain.None? then Err(InvalidDimensionOption)
      else
        var token := if selected.grain.Some? && selected.grain.value != "" then dimension.grainTokens[selected.grain.value]
                     else dimension.token;
        Ok(BoundGroupBy(if name.Some? && name.value != "" then name.value else token, token, dimension.dimensionType,
                        selected.grain))
  }

  function ResolveFor(input: Input, m: string, i: nat): Result<BoundGroupBy, Error>
    requires WellFormed(input) && m in input.request.metrics && i < |input.request.groupBy|
  {
    match input.request.groupBy[i]
    case Shared(selected) => Resolve(selected, input.common, None)
    case Bound(name, bindings) => Resolve(bindings[m], input.perMetric[m], Some(name))
  }

  /** The key under which an order clause may name the i-th dimension. */
  function Key(item: GroupItem): string {
    match item
    case Shared(selected) => selected.optionId
    case Bound(name, _) => name
  }

  // ---- The whole path of a metric ----

  predicate Resolves(input: Input, m: string)
    requires WellFormed(input) && m in input.request.metrics
  {
    forall i | 0 <= i < |input.request.groupBy| :: ResolveFor(input, m, i).Ok?
  }

  function PathOf(input: Input, m: string): (path: Path)
    requires WellFormed(input) && m in input.request.metrics && Resolves(input, m)
    ensures |path| == |input.request.groupBy|
  {
    seq(|input.request.groupBy|, i requires 0 <= i < |input.request.groupBy| => ResolveFor(input, m, i).value)
  }

  function Names(path: Path): (names: seq<string>)
    ensures |names| == |path|
  {
    seq(|path|, i requires 0 <= i < |path| => path[i].name)
  }

  function Tokens(path: Path): (tokens: seq<string>)
    ensures |tokens| == |path|
  {
    seq(|path|, i requires 0 <= i < |path| => path[i].token)
  }

  function Types(path: Path): (types: seq<(string, Option<string>)>)
    ensures |types| == |path|
  {
    seq(|path|, i requires 0 <= i < |path| => (path[i].dimensionType, path[i].grain))
  }

  function Signature(path: Path): (signature: seq<(string, string, Option<string>)>)
    ensures |signature| == |path|
  {
    seq(|path|, i requires 0 <= i < |path| => (path[i].token, path[i].dimensionType, path[i].grain))
  }

  predicate Unambiguous(names: seq<string>, metrics: seq<string>) {
    && (forall i, k | 0 <= i < k < |names| :: names[i] != names[k])
    && (forall name | name in names :: name !in metrics)
  }

  /** The metric's path resolves to usable output columns, with the types and grains of the first metric's path. */
  predicate Aligned(input: Input, m: string)
    requires WellFormed(input) && m in input.request.metrics
  {
    var first := input.request.metrics[0];
    && Resolves(input, m) && Resolves(input, first)
    && Unambiguous(Names(PathOf(input, m)), input.request.metrics)
    && Types(PathOf(input, m)) == Types(PathOf(input, first))
  }

  predicate Alignable(input: Input)
    requires WellFormed(input)
  {
    forall m | m in input.request.metrics :: Aligned(input, m)
  }

  // ---- Filters ----

  predicate FilterOk(common: Options, filter: Filter) {
    filter.optionId in common && filter.operator in common[filter.optionId].operators
  }

  predicate FiltersOk(input: Input) {
    forall i | 0 <= i < |input.request.filters| :: FilterOk(input.common, input.request.filters[i])
  }

  function FiltersOf(common: Options, filters: seq<Filter>): seq<QueryFilter>
    requires forall i | 0 <= i < |filters| :: FilterOk(common, filters[i])
  {
    seq(|filters|, i requires 0 <= i < |filters| && FilterOk(common, filters[i]) =>
      QueryFilter(common[filters[i].optionId].token, filters[i].operator, filters[i].value))
  }

  /** Every group asks for the whole request without grouping and ordering. */
  function BaseQuery(input: Input): CompiledQuery
    requires FiltersOk(input)
  {
    CompiledQuery(input.request.metrics, [], FiltersOf(input.common, input.request.filters), [], input.request.limit)
  }

  // ---- Groups ----

  /** First occurrences, in order. */
  function Distinct<T(==,!new)>(s: seq<T>): (d: seq<T>)
    ensures forall x :: x in d <==> x in s
    ensures forall i, k | 0 <= i < k < |d| :: d[i] != d[k]
  {
    if s == [] then []
    else
      var d, last := Distinct(s[..|s| - 1]), s[|s| - 1];
      assert s == s[..|s| - 1] + [last];
      if last in d then d else d + [last]
  }

  /** These are requested metrics, and their paths resolve. */
  predicate Known(input: Input, ms: seq<string>)
    requires WellFormed(input)
  {
    forall m | m in ms :: m in input.request.metrics && Resolves(input, m)
  }

  function PathsOf(input: Input, ms: seq<string>): (paths: seq<Path>)
    requires WellFormed(input) && Known(input, ms)
    ensures |paths| == |ms|
  {
    seq(|ms|, i requires 0 <= i < |ms| => PathOf(input, ms[i]))
  }

  /** The metrics bound to one path. */
  function Along(input: Input, ms: seq<string>, path: Path): seq<string>
    requires WellFormed(input) && Known(input, ms)
  {
    if ms == [] then []
    else
      var last := ms[|ms| - 1];
      Along(input, ms[..|ms| - 1], path) + if PathOf(input, last) == path then [last] else []
  }

  function GroupAlong(input: Input, ms: seq<string>, path: Path): Group
    requires WellFormed(input) && FiltersOk(input) && Known(input, ms)
  {
    Group(BaseQuery(input).(metrics := Along(input, ms, path), groupBy := Tokens(path)), path)
  }

  /** One group for each different path, holding the metrics bound to it. */
  function Grouped(input: Input, ms: seq<string>): (groups: seq<Group>)
    requires WellFormed(input) && FiltersOk(input) && Known(input, ms)
  {
    var paths := Distinct(PathsOf(input, ms));
    seq(|paths|, i requires 0 <= i < |paths| => GroupAlong(input, ms, paths[i]))
  }

  // ---- Order ----

  /** Later assignments win. */
  function Assign(fields: map<string, string>, keys: seq<string>, columns: seq<string>): map<string, string>
    requires |keys| == |columns|
  {
    if keys == [] then fields
    else
      var n := |keys| - 1;
      Assign(fields, keys[..n], columns[..n])[keys[n] := columns[n]]
  }

  function Keys(input: Input): (keys: seq<string>)
    ensures |keys| == |input.request.groupBy|
  {
    seq(|input.request.groupBy|, i requires 0 <= i < |input.request.groupBy| => Key(input.request.groupBy[i]))
  }

  function MetricFields(ms: seq<string>): map<string, string> {
    map m | m in ms :: m
  }

  /** What an order clause may name, and the column each name stands for. */
  function OrderFields(input: Input): map<string, string>
    requires WellFormed(input) && Resolves(input, input.request.metrics[0])
  {
    Assign(MetricFields(input.request.metrics), Keys(input), Names(PathOf(input, input.request.metrics[0])))
  }

  function OrderTerm(fields: map<string, string>, order: Order): string
    requires order.fieldId in fields
  {
    (if order.descending then "-" else "") + fields[order.fieldId]
  }

  predicate OrderOk(fields: map<string, string>, orders: seq<Order>) {
    forall o | o in orders :: o.fieldId in fields
  }

  function OrderTerms(fields: map<string, string>, orders: seq<Order>): seq<string>
    requires OrderOk(fields, orders)
  {
    seq(|orders|, i requires 0 <= i < |orders| => OrderTerm(fields, orders[i]))
  }

  // ---- The plan ----

  /** Which requests compile, which error the others meet, and the plan. */
  function PlanFor(input: Input): Result<Plan, Error>
    requires WellFormed(input)
  {
    if !FiltersOk(input) then Err(InvalidFilterOption)
    else if !Alignable(input) then Err(InvalidDimensionOption)
    else
      assert Aligned(input, input.request.metrics[0]);
      if !OrderOk(OrderFields(input), input.request.orderBy) then Err(InvalidOrderField)
      else
      var ms := Distinct(input.request.metrics);
      Ok(Plan(ms, Names(PathOf(input, input.request.metrics[0])), Grouped(input, ms),
              OrderTerms(OrderFields(input), input.request.orderBy), input.request.limit))
  }

  // ---- The compiler as it runs ----

  method CompileBase(input: Input) returns (base: Result<CompiledQuery, Error>)
    ensures base == if FiltersOk(input) then Ok(BaseQuery(input)) else Err(InvalidFilterOption)
  {
    var filters: seq<QueryFilter> := [];
    var i := 0;
    while i < |input.request.filters|
      invariant 0 <= i <= |input.request.filters|
      invariant forall k | 0 <= k < i :: FilterOk(input.common, input.request.filters[k])
      invariant filters == FiltersOf(input.common, input.request.filters[..i])
    {
      var selected := input.request.filters[i];
      assert FilterOk(input.common, selected) <==>
             selected.optionId in input.common && selected.operator in input.common[selected.optionId].operators;
      if selected.optionId !in input.common { return Err(InvalidFilterOption); }
      var dimension := input.common[selected.optionId];
      if selected.operator !in dimension.operators { return Err(InvalidFilterOption); }
      filters := filters + [QueryFilter(dimension.token, selected.operator, selected.value)];
      i := i + 1;
    }
    assert input.request.filters[..i] == input.request.filters;
    return Ok(CompiledQuery(input.request.metrics, [], filters, [], input.request.limit));
  }

  method ResolvePath(input: Input, metric: string, fields: map<string, string>)
    returns (path: Result<Path, Error>, fields': map<string, string>)
    requires WellFormed(input) && metric in input.request.metrics
    ensures path == if Resolves(input, metric) then Ok(PathOf(input, metric)) else Err(InvalidDimensionOption)
    ensures Resolves(input, metric) ==> fields' == Assign(fields, Keys(input), Names(PathOf(input, metric)))
  {
    var dimensions: Path := [];
    fields' := fields;
    var i := 0;
    while i < |input.request.groupBy|
      invariant 0 <= i <= |input.request.groupBy| && |dimensions| == i
      invariant forall k | 0 <= k < i :: ResolveFor(input, metric, k) == Ok(dimensions[k])
      invariant fields' == Assign(fields, Keys(input)[..i], Names(dimensions))
    {
      var selected := input.request.groupBy[i];
      var resolved;
      if selected.Bound? {
        resolved := Resolve(selected.bindings[metric], input.perMetric[metric], Some(selected.name));
      } else {
        resolved := Resolve(selected.selected, input.common, None);
      }
      assert resolved == ResolveFor(input, metric, i);
      if resolved.Err? { return Err(resolved.error), fields'; }
      fields' := fields'[(if selected.Bound? then selected.name else selected.selected.optionId) := resolved.value.name];
      AssignOne(fields, Keys(input)[..i + 1], Names(dimensions + [resolved.value]), Keys(input)[..i], Names(dimensions));
      dimensions := dimensions + [resolved.value];
      i := i + 1;
    }
    assert Keys(input)[..i] == Keys(input);
    assert dimensions == PathOf(input, metric);
    return Ok(dimensions), fields';
  }

  lemma AssignOne(fields: map<string, string>, keys': seq<string>, columns': seq<string>, keys: seq<string>, columns: seq<string>)
    requires |keys| == |columns| && |keys'| == |columns'| == |keys| + 1
    requires keys'[..|keys|] == keys && columns'[..|keys|] == columns
    ensures Assign(fields, keys', columns') == Assign(fields, keys, columns)[keys'[|keys|] := columns'[|keys|]]
  {}

  /** Repeating the same assignments changes nothing. */
  lemma AssignAgain(fields: map<string, string>, keys: seq<string>, columns: seq<string>)
    requires |keys| == |columns|
    ensures Assign(Assign(fields, keys, columns), keys, columns) == Assign(fields, keys, columns)
  {
    AssignedValues(fields, Assign(fields, keys, columns), keys, columns);
  }

  lemma {:induction false} AssignedValues(fields: map<string, string>, other: map<string, string>, keys: seq<string>,
                                          columns: seq<string>)
    requires |keys| == |columns|
    ensures forall k | k !in keys :: (k in Assign(fields, keys, columns) <==> k in fields)
                                     && (k in fields ==> Assign(fields, keys, columns)[k] == fields[k])
    ensures forall k | k in keys :: k in Assign(fields, keys, columns) && k in Assign(other, keys, columns)
                                    && Assign(fields, keys, columns)[k] == Assign(other, keys, columns)[k]
                                    && Assign(fields, keys, columns)[k] in columns
    ensures forall k | k !in keys :: k in other ==> k in Assign(other, keys, columns) && Assign(other, keys, columns)[k] == other[k]
    ensures forall k | k !in keys :: k in Assign(other, keys, columns) ==> k in other
  {
    if keys != [] {
      var n := |keys| - 1;
      AssignedValues(fields, other, keys[..n], columns[..n]);
      assert keys == keys[..n] + [keys[n]] && columns == columns[..n] + [columns[n]];
    }
  }

  /** All metrics see the same output names. */
  lemma SameNames(input: Input, m: string, m': string)
    requires WellFormed(input) && m in input.request.metrics && m' in input.request.metrics
    requires Resolves(input, m) && Resolves(input, m')
    ensures Names(PathOf(input, m)) == Names(PathOf(input, m'))
  {
    forall i | 0 <= i < |input.request.groupBy| ensures PathOf(input, m)[i].name == PathOf(input, m')[i].name {
      assert input.request.groupBy[i] in input.request.groupBy;
      assert ResolveFor(input, m, i).Ok? && ResolveFor(input, m', i).Ok?;
    }
  }

  /** With equal names, equal signatures mean equal paths. */
  lemma SamePath(path: Path, path': Path)
    requires Names(path) == Names(path')
    ensures Signature(path) == Signature(path') <==> path == path'
  {
    if Signature(path) == Signature(path') {
      assert |path| == |Signature(path)| == |path'|;
      forall i | 0 <= i < |path| ensures path[i] == path'[i] {
        assert Signature(path)[i] == Signature(path')[i] && Names(path)[i] == Names(path')[i];
      }
    }
  }

  /** The dictionary of groups while it is filled: its keys are the signatures of the groups' paths. */
  predicate Indexed(index: map<seq<(string, string, Option<string>)>, nat>, groups: seq<Group>) {
    && (forall s | s in index :: index[s] < |groups| && Signature(groups[index[s]].dimensions) == s)
    && (forall i: nat | i < |groups| :: Signature(groups[i].dimensions) in index && index[Signature(groups[i].dimensions)] == i)
  }

  lemma PathsStep(input: Input, ms: seq<string>, m: string)
    requires WellFormed(input) && Known(input, ms) && Known(input, [m])
    ensures var paths, path := Distinct(PathsOf(input, ms)), PathOf(input, m);
      Distinct(PathsOf(input, ms + [m])) == if path in paths then paths else paths + [path]
  {
    var paths := PathsOf(input, ms);
    assert PathsOf(input, ms + [m]) == paths + [PathOf(input, m)];
    assert (paths + [PathOf(input, m)])[..|paths|] == paths;
  }

  lemma AlongStep(input: Input, ms: seq<string>, m: string, path: Path)
    requires WellFormed(input) && Known(input, ms) && Known(input, [m])
    ensures Along(input, ms + [m], path) == Along(input, ms, path) + if PathOf(input, m) == path then [m] else []
  {
    assert (ms + [m])[..|ms|] == ms;
  }

  /** A metric whose path is known joins the group of that path. */
  lemma KnownPath(input: Input, ms: seq<string>, m: string, g: nat)
    requires WellFormed(input) && FiltersOk(input) && Known(input, ms) && Known(input, [m])
    requires g < |Grouped(input, ms)| && Grouped(input, ms)[g].dimensions == PathOf(input, m)
    ensures var groups := Grouped(input, ms); var query := groups[g].query;
      Grouped(input, ms + [m]) == groups[g := groups[g].(query := query.(metrics := query.metrics + [m]))]
  {
    var paths, path := Distinct(PathsOf(input, ms)), PathOf(input, m);
    assert paths[g] == path;
    PathsStep(input, ms, m);
    AlongStep(input, ms, m, path);
    forall i | 0 <= i < |paths| && i != g
      ensures GroupAlong(input, ms + [m], paths[i]) == GroupAlong(input, ms, paths[i])
    {
      OtherGroup(input, ms, m, paths[i]);
    }
  }

  /** A metric with a path of its own opens a group. */
  lemma NewPath(input: Input, ms: seq<string>, m: string)
    requires WellFormed(input) && FiltersOk(input) && Known(input, ms) && Known(input, [m])
    requires PathOf(input, m) !in Distinct(PathsOf(input, ms))
    ensures Grouped(input, ms + [m]) == Grouped(input, ms) +
      [Group(BaseQuery(input).(metrics := [m], groupBy := Tokens(PathOf(input, m))), PathOf(input, m))]
  {
    var paths, path := Distinct(PathsOf(input, ms)), PathOf(input, m);
    PathsStep(input, ms, m);
    forall i | 0 <= i < |paths| ensures GroupAlong(input, ms + [m], paths[i]) == GroupAlong(input, ms, paths[i]) {
      OtherGroup(input, ms, m, paths[i]);
    }
    GroupedTogether(input, ms, m, paths, path);
    NewGroup(input, ms, m);
  }

  lemma OtherGroup(input: Input, ms: seq<string>, m: string, path: Path)
    requires WellFormed(input) && FiltersOk(input) && Known(input, ms) && Known(input, [m])
    requires path != PathOf(input, m)
    ensures GroupAlong(input, ms + [m], path) == GroupAlong(input, ms, path)
  {
    AlongStep(input, ms, m, path);
  }

  lemma NewGroup(input: Input, ms: seq<string>, m: string)
    requires WellFormed(input) && FiltersOk(input) && Known(input, ms) && Known(input, [m])
    requires PathOf(input, m) !in PathsOf(input, ms)
    ensures var path := PathOf(input, m);
      GroupAlong(input, ms + [m], path) == Group(BaseQuery(input).(metrics := [m], groupBy := Tokens(path)), path)
  {
    NoneAlong(input, ms, PathOf(input, m));
    AlongStep(input, ms, m, PathOf(input, m));
  }

  lemma GroupedTogether(input: Input, ms: seq<string>, m: string, paths: seq<Path>, path: Path)
    requires WellFormed(input) && FiltersOk(input) && Known(input, ms) && Known(input, [m])
    requires paths == Distinct(PathsOf(input, ms)) && Distinct(PathsOf(input, ms + [m])) == paths + [path]
    requires forall i | 0 <= i < |paths| :: GroupAlong(input, ms + [m], paths[i]) == GroupAlong(input, ms, paths[i])
    ensures Grouped(input, ms + [m]) == Grouped(input, ms) + [GroupAlong(input, ms + [m], path)]
  {
    assert |Grouped(input, ms + [m])| == |paths| + 1;
    forall i | 0 <= i < |paths| ensures Grouped(input, ms + [m])[i] == Grouped(input, ms)[i] {
      assert (paths + [path])[i] == paths[i];
    }
  }

  lemma {:induction false} NoneAlong(input: Input, ms: seq<string>, path: Path)
    requires WellFormed(input) && Known(input, ms)
    requires path !in PathsOf(input, ms)
    ensures Along(input, ms, path) == []
  {
    if ms != [] {
      var n := |ms| - 1;
      assert PathsOf(input, ms)[n] == PathOf(input, ms[n]);
      assert forall p | p in PathsOf(input, ms[..n]) :: p in PathsOf(input, ms) by {
        forall i | 0 <= i < n ensures PathsOf(input, ms[..n])[i] in PathsOf(input, ms) {
          assert PathsOf(input, ms)[i] == PathsOf(input, ms[..n])[i];
        }
      }
      NoneAlong(input, ms[..n], path);
    }
  }

  method DistinctNames(names: seq<string>, metrics: seq<string>) returns (ok: bool)
    ensures ok <==> Unambiguous(names, metrics)
  {
    var i := 0;
    while i < |names|
      invariant 0 <= i <= |names| && Unambiguous(names[..i], metrics)
    {
      assert names[i] in names;
      if names[i] in names[..i] || names[i] in metrics { return false; }
      assert names[..i + 1] == names[..i] + [names[i]];
      i := i + 1;
    }
    assert names[..i] == names;
    return true;
  }

  method CompileOrder(fields: map<string, string>, orders: seq<Order>) returns (terms: Result<seq<string>, Error>)
    ensures terms == if OrderOk(fields, orders) then Ok(OrderTerms(fields, orders)) else Err(InvalidOrderField)
  {
    var orderBy: seq<string> := [];
    var i := 0;
    while i < |orders|
      invariant 0 <= i <= |orders| && OrderOk(fields, orders[..i]) && orderBy == OrderTerms(fields, orders[..i])
    {
      var selected := orders[i];
      assert selected in orders;
      if selected.fieldId !in fields { return Err(InvalidOrderField); }
      assert orders[..i + 1] == orders[..i] + [selected];
      orderBy := orderBy + [(if selected.descending then "-" else "") + fields[selected.fieldId]];
      i := i + 1;
    }
    assert orders[..i] == orders;
    return Ok(orderBy);
  }

  predicate Named(groups: seq<Group>, names: seq<string>) {
    forall i | 0 <= i < |groups| :: Names(groups[i].dimensions) == names
  }

  method AddMetric(input: Input, base: CompiledQuery, ghost ms: seq<string>, metric: string, dimensions: Path,
                   groups: seq<Group>, index: map<seq<(string, string, Option<string>)>, nat>)
    returns (groups': seq<Group>, index': map<seq<(string, string, Option<string>)>, nat>)
    requires WellFormed(input) && FiltersOk(input) && base == BaseQuery(input)
    requires Known(input, ms) && Known(input, [metric]) && dimensions == PathOf(input, metric)
    requires groups == Grouped(input, ms) && Indexed(index, groups) && Named(groups, Names(dimensions))
    ensures groups' == Grouped(input, ms + [metric]) && Indexed(index', groups') && Named(groups', Names(dimensions))
  {
    var signature := Signature(dimensions);
    if signature in index {
      var g := index[signature];
      SamePath(groups[g].dimensions, dimensions);
      KnownPath(input, ms, metric, g);
      var query := groups[g].query;
      groups' := groups[g := groups[g].(query := query.(metrics := query.metrics + [metric]))];
      index' := index;
    } else {
      PathIsNew(input, ms, metric, index);
      NewPath(input, ms, metric);
      groups' := groups + [Group(base.(metrics := [metric], groupBy := Tokens(dimensions)), dimensions)];
      index' := index[signature := |groups|];
    }
  }

  lemma PathIsNew(input: Input, ms: seq<string>, metric: string, index: map<seq<(string, string, Option<string>)>, nat>)
    requires WellFormed(input) && FiltersOk(input) && Known(input, ms) && Known(input, [metric])
    requires Indexed(index, Grouped(input, ms)) && Named(Grouped(input, ms), Names(PathOf(input, metric)))
    requires Signature(PathOf(input, metric)) !in index
    ensures PathOf(input, metric) !in Distinct(PathsOf(input, ms))
  {
    var paths := Distinct(PathsOf(input, ms));
    forall i | 0 <= i < |paths| ensures paths[i] != PathOf(input, metric) {
      assert Grouped(input, ms)[i].dimensions == paths[i];
    }
  }

  /** The path of the next metric, or the reason it cannot be aligned with those before it. */
  method AlignPath(input: Input, metric: string, fields: map<string, string>, expected: Option<seq<(string, Option<string>)>>)
    returns (path: Result<Path, Error>, fields': map<string, string>)
    requires WellFormed(input) && metric in input.request.metrics
    requires var first := input.request.metrics[0];
      if expected.None? then metric == first && fields == MetricFields(input.request.metrics)
      else Resolves(input, first) && expected.value == Types(PathOf(input, first)) && fields == OrderFields(input)
    ensures path == if Aligned(input, metric) then Ok(PathOf(input, metric)) else Err(InvalidDimensionOption)
    ensures path.Ok? ==> Names(PathOf(input, metric)) == Names(PathOf(input, input.request.metrics[0]))
    ensures path.Ok? ==> fields' == OrderFields(input)
  {
    path, fields' := ResolvePath(input, metric, fields);
    if path.Err? { return; }
    var names, types := Names(path.value), Types(path.value);
    var distinct := DistinctNames(names, input.request.metrics);
    if !distinct { return Err(InvalidDimensionOption), fields'; }
    if expected.Some? {
      if types != expected.value { return Err(InvalidDimensionOption), fields'; }
      SameNames(input, metric, input.request.metrics[0]);
      AssignAgain(MetricFields(input.request.metrics), Keys(input), names);
    }
  }

  lemma FirstKept(s: seq<string>)
    requires s != []
    ensures Distinct(s) != [] && Distinct(s)[0] == s[0]
  {
    if |s| > 1 { FirstKept(s[..|s| - 1]); }
  }

  /** Paths and groups of all metrics, in turn; `fields` ends as what an order clause may name. */
  method AlignMetrics(input: Input, base: CompiledQuery, ms: seq<string>)
    returns (groups: Result<seq<Group>, Error>, outputNames: seq<string>, fields: map<string, string>)
    requires WellFormed(input) && FiltersOk(input) && base == BaseQuery(input)
    requires ms == Distinct(input.request.metrics) && ms != [] && ms[0] == input.request.metrics[0]
    ensures groups.Ok? <==> Alignable(input)
    ensures groups.Err? ==> groups.error == InvalidDimensionOption
    ensures groups.Ok? ==> Known(input, ms) && groups.value == Grouped(input, ms) && fields == OrderFields(input)
                           && outputNames == Names(PathOf(input, ms[0]))
  {
    var done: seq<Group> := [];
    var index: map<seq<(string, string, Option<string>)>, nat> := map[];
    fields, outputNames := MetricFields(input.request.metrics), [];
    var expected: Option<seq<(string, Option<string>)>> := None;
    var k := 0;
    while k < |ms|
      invariant 0 <= k <= |ms| && AllAligned(input, ms[..k])
      invariant if k == 0 then expected == None && fields == MetricFields(input.request.metrics)
                else Aligned(input, ms[0]) && expected == Some(Types(PathOf(input, ms[0])))
                     && outputNames == Names(PathOf(input, ms[0])) && fields == OrderFields(input)
      invariant done == Grouped(input, ms[..k]) && Indexed(index, done) && Named(done, outputNames)
    {
      var metric := ms[k];
      assert metric in input.request.metrics;
      var path;
      path, fields := AlignPath(input, metric, fields, expected);
      if path.Err? { return Err(path.error), outputNames, fields; }
      assert ms[..k + 1] == ms[..k] + [metric];
      OneMoreAligned(input, ms[..k], metric);
      expected, outputNames := Some(Types(path.value)), Names(path.value);
      done, index := AddMetric(input, base, ms[..k], metric, path.value, done, index);
      k := k + 1;
    }
    assert ms[..k] == ms;
    assert forall m | m in input.request.metrics :: m in ms && Aligned(input, m);
    return Ok(done), outputNames, fields;
  }

  predicate AllAligned(input: Input, ms: seq<string>)
    requires WellFormed(input)
    ensures AllAligned(input, ms) ==> Known(input, ms)
  {
    forall m | m in ms :: m in input.request.metrics && Aligned(input, m)
  }

  lemma OneMoreAligned(input: Input, ms: seq<string>, m: string)
    requires WellFormed(input) && AllAligned(input, ms) && m in input.request.metrics && Aligned(input, m)
    ensures AllAligned(input, ms + [m]) && Known(input, [m])
  {
    forall x | x in ms + [m] ensures x in input.request.metrics && Aligned(input, x) {
      if x !in ms { assert x == m; }
    }
  }

  /** The whole request: common filters, the path of each metric in turn, groups by path, then order. */
  method CompileBoundQuery(input: Input) returns (plan: Result<Plan, Error>)
    requires WellFormed(input)
    ensures plan == PlanFor(input)
  {
    var base := CompileBase(input);
    if base.Err? { return Err(base.error); }
    var ms := Distinct(input.request.metrics);
    FirstKept(input.request.metrics);
    var groups, outputNames, fields := AlignMetrics(input, base.value, ms);
    if groups.Err? { return Err(groups.error); }
    var orderBy := CompileOrder(fields, input.request.orderBy);
    if orderBy.Err? { return Err(orderBy.error); }
    return Ok(Plan(ms, outputNames, groups.value, orderBy.value, input.request.limit));
  }
}
