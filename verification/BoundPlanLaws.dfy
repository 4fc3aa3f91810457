/** What every compiled plan of a bound query guarantees. */
module BoundPlanLaws {
  import opened Common
  import opened BoundPlan

  function Flat(parts: seq<seq<string>>): seq<string> {
    if parts == [] then [] else Flat(parts[..|parts| - 1]) + parts[|parts| - 1]
  }

  function MetricLists(groups: seq<Group>): (lists: seq<seq<string>>)
    ensures |lists| == |groups|
  {
    seq(|groups|, i requires 0 <= i < |groups| => groups[i].query.metrics)
  }

  lemma {:induction false} FlatGrows(parts: seq<seq<string>>, g: nat, x: string)
    requires g < |parts|
    ensures multiset(Flat(parts[g := parts[g] + [x]])) == multiset(Flat(parts)) + multiset{x}
  {
    var n := |parts| - 1;
    var parts' := parts[g := parts[g] + [x]];
    if g == n {
      assert parts'[..n] == parts[..n];
    } else {
      FlatGrows(parts[..n], g, x);
      assert parts'[..n] == parts[..n][g := parts[g] + [x]];
    }
  }

  lemma FlatAppend(parts: seq<seq<string>>, last: seq<string>)
    ensures Flat(parts + [last]) == Flat(parts) + last
  {
    assert (parts + [last])[..|parts|] == parts;
  }

  /** The groups of a prefix of the metrics hold exactly that prefix. */
  lemma {:induction false} GroupedHolds(input: Input, ms: seq<string>)
    requires WellFormed(input) && FiltersOk(input) && Known(input, ms)
    ensures multiset(Flat(MetricLists(Grouped(input, ms)))) == multiset(ms)
  {
    if ms == [] {
      assert PathsOf(input, ms) == [];
      assert Grouped(input, ms) == [];
    } else {
      var n := |ms| - 1;
      var head, m := ms[..n], ms[n];
      assert ms == head + [m];
      GroupedHolds(input, head);
      OneMoreMetric(input, head, m);
    }
  }

  lemma OneMoreMetric(input: Input, head: seq<string>, m: string)
    requires WellFormed(input) && FiltersOk(input) && Known(input, head) && Known(input, head + [m]) && Known(input, [m])
    ensures multiset(Flat(MetricLists(Grouped(input, head + [m]))))
         == multiset(Flat(MetricLists(Grouped(input, head)))) + multiset{m}
  {
    var groups, groups' := Grouped(input, head), Grouped(input, head + [m]);
    var path, lists := PathOf(input, m), MetricLists(groups);
    var paths := Distinct(PathsOf(input, head));
    if path in paths {
      var g :| 0 <= g < |paths| && paths[g] == path;
      KnownPath(input, head, m, g);
      assert MetricLists(groups') == lists[g := lists[g] + [m]];
      FlatGrows(lists, g, m);
    } else {
      NewPath(input, head, m);
      assert MetricLists(groups') == lists + [[m]];
      FlatAppend(lists, [m]);
    }
  }

  /** Every requested metric is computed exactly once, and nothing else is. */
  lemma MetricsOnce(input: Input, plan: Plan)
    requires WellFormed(input) && PlanFor(input) == Ok(plan)
    ensures forall m :: m in plan.metrics <==> m in input.request.metrics
    ensures forall i, k | 0 <= i < k < |plan.metrics| :: plan.metrics[i] != plan.metrics[k]
    ensures multiset(Flat(MetricLists(plan.groups))) == multiset(plan.metrics)
  {
    assert Known(input, plan.metrics) by {
      forall m | m in plan.metrics ensures m in input.request.metrics && Resolves(input, m) { assert Aligned(input, m); }
    }
    GroupedHolds(input, plan.metrics);
  }

  lemma {:induction false} AlongMembers(input: Input, ms: seq<string>, path: Path)
    requires WellFormed(input) && Known(input, ms)
    ensures forall m | m in Along(input, ms, path) :: m in ms && PathOf(input, m) == path
  {
    if ms != [] { AlongMembers(input, ms[..|ms| - 1], path); }
  }

  /** The token a selection stands for in a catalogue of options. */
  function BoundToken(selected: Selected, options: Options): Option<string> {
    if selected.optionId !in options then None
    else if selected.grain.None? || selected.grain.value == "" then Some(options[selected.optionId].token)
    else if selected.grain.value in options[selected.optionId].grainTokens
    then Some(options[selected.optionId].grainTokens[selected.grain.value])
    else None
  }

  /** What an item of the request selects for a metric, and the catalogue it selects from. */
  function Chosen(item: GroupItem, m: string): Selected
    requires item.Bound? ==> m in item.bindings
  {
    match item case Shared(selected) => selected case Bound(_, bindings) => bindings[m]
  }

  function OptionsFor(input: Input, item: GroupItem, m: string): Options
    requires m in input.perMetric
  {
    if item.Bound? then input.perMetric[m] else input.common
  }

  /** The compiled filter restricts the dimension that the requested one selects, by the same operator and value. */
  predicate FiltersBy(compiled: QueryFilter, filter: Filter, common: Options) {
    && filter.optionId in common && filter.operator in common[filter.optionId].operators
    && compiled.field == common[filter.optionId].token
    && compiled.operator == filter.operator && compiled.value == filter.value
  }

  /** A metric is computed along exactly the dimensions bound for it, under the requested filters and limit. */
  lemma OwnPath(input: Input, plan: Plan, g: nat, m: string, i: nat)
    requires WellFormed(input) && PlanFor(input) == Ok(plan)
    requires g < |plan.groups| && m in plan.groups[g].query.metrics && i < |input.request.groupBy|
    ensures var group := plan.groups[g];
      && m in input.request.metrics
      && group.query.orderBy == [] && group.query.limit == input.request.limit == plan.limit
      && |group.query.filters| == |input.request.filters|
      && (forall f | 0 <= f < |input.request.filters| :: FiltersBy(group.query.filters[f], input.request.filters[f], input.common))
      && |group.dimensions| == |group.query.groupBy| == |input.request.groupBy|
      && group.query.groupBy[i] == group.dimensions[i].token
      && BoundAs(input, group.dimensions[i], input.request.groupBy[i], m)
  {
    forall x | x in plan.metrics ensures x in input.request.metrics && Resolves(input, x) { assert Aligned(input, x); }
    AlongMembers(input, plan.metrics, plan.groups[g].dimensions);
    assert ResolveFor(input, m, i).Ok? && PathOf(input, m)[i] == ResolveFor(input, m, i).value;
    ResolvedAs(input, m, i);
    forall f | 0 <= f < |input.request.filters|
      ensures FiltersBy(plan.groups[g].query.filters[f], input.request.filters[f], input.common)
    {
      assert FilterOk(input.common, input.request.filters[f]);
    }
  }

  /** The dimension is the one the item selects for the metric: its token, name, type and grain. */
  predicate BoundAs(input: Input, dimension: BoundGroupBy, item: GroupItem, m: string)
    requires m in input.perMetric && (item.Bound? ==> m in item.bindings)
  {
    && Some(dimension.token) == BoundToken(Chosen(item, m), OptionsFor(input, item, m))
    && dimension.name == (if item.Bound? then item.name else dimension.token)
    && dimension.grain == Chosen(item, m).grain
    && Chosen(item, m).optionId in OptionsFor(input, item, m)
    && dimension.dimensionType == OptionsFor(input, item, m)[Chosen(item, m).optionId].dimensionType
    && (dimension.dimensionType == TIME ==> dimension.grain.Some?)
  }

  lemma ResolvedAs(input: Input, m: string, i: nat)
    requires WellFormed(input) && m in input.request.metrics && i < |input.request.groupBy| && ResolveFor(input, m, i).Ok?
    ensures input.request.groupBy[i] in input.request.groupBy
    ensures BoundAs(input, ResolveFor(input, m, i).value, input.request.groupBy[i], m)
  {}

  // ---- The order of the metrics ----

  function IndexOf(s: seq<string>, x: string): (i: nat)
    requires x in s
    ensures i < |s| && s[i] == x && x !in s[..i]
  {
    if s[0] == x then 0 else 1 + IndexOf(s[1..], x)
  }

  lemma {:induction false} DistinctInOrder(s: seq<string>, i: nat, k: nat)
    requires i < k < |Distinct(s)|
    ensures IndexOf(s, Distinct(s)[i]) < IndexOf(s, Distinct(s)[k])
  {
    var n := |s| - 1;
    var head, d := s[..n], Distinct(s);
    assert s == head + [s[n]];
    if k < |Distinct(head)| {
      DistinctInOrder(head, i, k);
      SameIndex(head, s[n], d[i]);
      SameIndex(head, s[n], d[k]);
    } else {
      SameIndex(head, s[n], d[i]);
    }
  }

  lemma {:induction false} SameIndex(head: seq<string>, last: string, x: string)
    requires x in head
    ensures x in head + [last] && IndexOf(head + [last], x) == IndexOf(head, x)
  {
    if head[0] != x {
      SameIndex(head[1..], last, x);
      assert (head + [last])[1..] == head[1..] + [last];
    }
  }

  /** The result shows each metric once, in the order in which the request first names them. */
  lemma MetricsInOrder(input: Input, plan: Plan, i: nat, k: nat)
    requires WellFormed(input) && PlanFor(input) == Ok(plan) && i < k < |plan.metrics|
    ensures plan.metrics[i] in input.request.metrics && plan.metrics[k] in input.request.metrics
    ensures IndexOf(input.request.metrics, plan.metrics[i]) < IndexOf(input.request.metrics, plan.metrics[k])
  {
    assert plan.metrics[i] in plan.metrics && plan.metrics[k] in plan.metrics;
    DistinctInOrder(input.request.metrics, i, k);
  }

  // ---- Which requests compile ----

  predicate FiltersAllowed(input: Input) {
    forall f | f in input.request.filters :: f.optionId in input.common && f.operator in input.common[f.optionId].operators
  }

  /** The option exists, so does its grain, and a time dimension has one. */
  predicate Selectable(selected: Selected, options: Options) {
    && selected.optionId in options
    && (selected.grain.Some? ==> selected.grain.value in options[selected.optionId].grainTokens)
    && (options[selected.optionId].dimensionType == TIME ==> selected.grain.Some?)
  }

  predicate AllSelectable(input: Input)
    requires WellFormed(input)
  {
    forall m, item | m in input.request.metrics && item in input.request.groupBy ::
      Selectable(Chosen(item, m), OptionsFor(input, item, m))
  }

  /** The output column of an item: its own name, or the token it selects. */
  function ShownAs(input: Input, item: GroupItem): Option<string> {
    match item case Bound(name, _) => Some(name) case Shared(selected) => BoundToken(selected, input.common)
  }

  predicate ColumnsApart(input: Input) {
    var items := input.request.groupBy;
    && (forall i, k | 0 <= i < k < |items| :: ShownAs(input, items[i]) != ShownAs(input, items[k]))
    && (forall item, m | item in items && m in input.request.metrics :: ShownAs(input, item) != Some(m))
  }

  function KindFor(input: Input, item: GroupItem, m: string): (string, Option<string>)
    requires WellFormed(input) && m in input.request.metrics && item in input.request.groupBy
    requires Selectable(Chosen(item, m), OptionsFor(input, item, m))
  {
    (OptionsFor(input, item, m)[Chosen(item, m).optionId].dimensionType, Chosen(item, m).grain)
  }

  predicate KindsAgree(input: Input)
    requires WellFormed(input) && AllSelectable(input)
  {
    forall m, item | m in input.request.metrics && item in input.request.groupBy ::
      KindFor(input, item, m) == KindFor(input, item, input.request.metrics[0])
  }

  predicate DimensionsAllowed(input: Input)
    requires WellFormed(input)
  {
    AllSelectable(input) && ColumnsApart(input) && KindsAgree(input)
  }

  predicate OrdersAllowed(input: Input) {
    forall o | o in input.request.orderBy ::
      o.fieldId in input.request.metrics || exists item | item in input.request.groupBy :: Key(item) == o.fieldId
  }

  lemma ResolvesExactly(input: Input, m: string, i: nat)
    requires WellFormed(input) && m in input.request.metrics && i < |input.request.groupBy|
    ensures var item, resolved := input.request.groupBy[i], ResolveFor(input, m, i);
      && (resolved.Ok? <==> Selectable(Chosen(item, m), OptionsFor(input, item, m)))
      && (resolved.Ok? ==> Some(resolved.value.name) == ShownAs(input, item))
      && (resolved.Ok? ==> (resolved.value.dimensionType, resolved.value.grain) == KindFor(input, item, m))
  {
    assert input.request.groupBy[i] in input.request.groupBy;
  }

  lemma AllResolve(input: Input)
    requires WellFormed(input)
    ensures AllSelectable(input) <==> forall m | m in input.request.metrics :: Resolves(input, m)
  {
    forall m, i: nat | m in input.request.metrics && i < |input.request.groupBy|
      ensures ResolveFor(input, m, i).Ok?
              <==> Selectable(Chosen(input.request.groupBy[i], m), OptionsFor(input, input.request.groupBy[i], m))
    {
      ResolvesExactly(input, m, i);
    }
    if forall m | m in input.request.metrics :: Resolves(input, m) {
      forall m, item | m in input.request.metrics && item in input.request.groupBy
        ensures Selectable(Chosen(item, m), OptionsFor(input, item, m))
      {
        var i: nat :| i < |input.request.groupBy| && input.request.groupBy[i] == item;
        assert Resolves(input, m) && ResolveFor(input, m, i).Ok?;
      }
    }
  }

  /** The names of a metric's path are the output columns. */
  lemma NamesShown(input: Input, m: string)
    requires WellFormed(input) && m in input.request.metrics && Resolves(input, m)
    ensures forall i: nat | i < |input.request.groupBy| ::
      Some(Names(PathOf(input, m))[i]) == ShownAs(input, input.request.groupBy[i])
  {
    forall i: nat | i < |input.request.groupBy|
      ensures Some(Names(PathOf(input, m))[i]) == ShownAs(input, input.request.groupBy[i])
    {
      ResolvesExactly(input, m, i);
      assert ResolveFor(input, m, i).Ok?;
    }
  }

  lemma NamesApart(input: Input, m: string)
    requires WellFormed(input) && m in input.request.metrics && Resolves(input, m)
    ensures Unambiguous(Names(PathOf(input, m)), input.request.metrics) <==> ColumnsApart(input)
  {
    var names, items := Names(PathOf(input, m)), input.request.groupBy;
    NamesShown(input, m);
    assert forall i, k | 0 <= i < k < |items| :: names[i] != names[k] <==> ShownAs(input, items[i]) != ShownAs(input, items[k]);
    if forall name | name in names :: name !in input.request.metrics {
      forall item, x | item in items && x in input.request.metrics ensures ShownAs(input, item) != Some(x) {
        var i: nat :| i < |items| && items[i] == item;
        assert names[i] in names;
      }
    }
  }

  lemma KindsOfPaths(input: Input, m: string)
    requires WellFormed(input) && m in input.request.metrics && AllSelectable(input)
    requires Resolves(input, m) && Resolves(input, input.request.metrics[0])
    ensures Types(PathOf(input, m)) == Types(PathOf(input, input.request.metrics[0])) <==>
      forall item | item in input.request.groupBy :: KindFor(input, item, m) == KindFor(input, item, input.request.metrics[0])
  {
    var first, items := input.request.metrics[0], input.request.groupBy;
    forall i: nat | i < |items|
      ensures items[i] in items
      ensures Types(PathOf(input, m))[i] == KindFor(input, items[i], m)
      ensures Types(PathOf(input, first))[i] == KindFor(input, items[i], first)
    {
      assert items[i] in items && ResolveFor(input, m, i).Ok? && ResolveFor(input, first, i).Ok?;
      ResolvesExactly(input, m, i);
      ResolvesExactly(input, first, i);
    }
    if Types(PathOf(input, m)) == Types(PathOf(input, first)) {
      forall item | item in items ensures KindFor(input, item, m) == KindFor(input, item, first) {
        var i: nat :| i < |items| && items[i] == item;
        assert Types(PathOf(input, m))[i] == Types(PathOf(input, first))[i];
      }
    }
  }

  lemma AlignsExactly(input: Input)
    requires WellFormed(input)
    ensures Alignable(input) <==> DimensionsAllowed(input)
  {
    var ms, first := input.request.metrics, input.request.metrics[0];
    AllResolve(input);
    if Alignable(input) { forall m | m in ms ensures Resolves(input, m) { assert Aligned(input, m); } }
    if AllSelectable(input) {
      assert first in ms;
      forall m | m in ms
        ensures Aligned(input, m) <==> (ColumnsApart(input) && forall item | item in input.request.groupBy ::
                  KindFor(input, item, m) == KindFor(input, item, first))
      {
        NamesApart(input, m);
        KindsOfPaths(input, m);
      }
    }
  }

  lemma OrdersExactly(input: Input)
    requires WellFormed(input) && Resolves(input, input.request.metrics[0])
    ensures OrderOk(OrderFields(input), input.request.orderBy) <==> OrdersAllowed(input)
  {
    var names := Names(PathOf(input, input.request.metrics[0]));
    forall o | o in input.request.orderBy
      ensures o.fieldId in OrderFields(input) <==>
        (o.fieldId in input.request.metrics || exists item | item in input.request.groupBy :: Key(item) == o.fieldId)
    {
      var k := LastAssignment(MetricFields(input.request.metrics), Keys(input), names, o.fieldId);
      KeysAreItems(input, o.fieldId);
    }
  }

  lemma KeysAreItems(input: Input, field: string)
    ensures field in Keys(input) <==> exists item | item in input.request.groupBy :: Key(item) == field
  {
    if field in Keys(input) {
      var i: nat :| i < |Keys(input)| && Keys(input)[i] == field;
      assert input.request.groupBy[i] in input.request.groupBy;
    }
    if item :| item in input.request.groupBy && Key(item) == field {
      var i: nat :| i < |input.request.groupBy| && input.request.groupBy[i] == item;
      assert Keys(input)[i] == field;
    }
  }

  /** Exactly which requests compile, and which error every other one meets. */
  lemma CompilesExactly(input: Input)
    requires WellFormed(input)
    ensures PlanFor(input).Ok? <==> FiltersAllowed(input) && DimensionsAllowed(input) && OrdersAllowed(input)
    ensures PlanFor(input) == Err(InvalidFilterOption) <==> !FiltersAllowed(input)
    ensures PlanFor(input) == Err(InvalidDimensionOption) <==> FiltersAllowed(input) && !DimensionsAllowed(input)
    ensures PlanFor(input) == Err(InvalidOrderField) <==>
      FiltersAllowed(input) && DimensionsAllowed(input) && !OrdersAllowed(input)
  {
    assert FiltersOk(input) <==> FiltersAllowed(input) by {
      forall i | 0 <= i < |input.request.filters| ensures input.request.filters[i] in input.request.filters {}
      if FiltersOk(input) {
        forall f | f in input.request.filters ensures FilterOk(input.common, f) {
          var i :| 0 <= i < |input.request.filters| && input.request.filters[i] == f;
        }
      }
    }
    AlignsExactly(input);
    if Alignable(input) {
      assert Aligned(input, input.request.metrics[0]);
      OrdersExactly(input);
    }
  }

  /** Metrics share a group exactly when their whole paths have the same tokens, types and grains. */
  lemma OneGroupPerPath(input: Input, plan: Plan, g: nat, h: nat)
    requires WellFormed(input) && PlanFor(input) == Ok(plan) && g < |plan.groups| && h < |plan.groups|
    ensures Signature(plan.groups[g].dimensions) == Signature(plan.groups[h].dimensions) <==> g == h
  {
    SameColumns(input, plan, g);
    SameColumns(input, plan, h);
    SamePath(plan.groups[g].dimensions, plan.groups[h].dimensions);
  }

  lemma GroupPath(input: Input, plan: Plan, g: nat) returns (m: string)
    requires WellFormed(input) && PlanFor(input) == Ok(plan) && g < |plan.groups|
    ensures m in input.request.metrics && Aligned(input, m) && plan.groups[g].dimensions == PathOf(input, m)
  {
    forall x | x in plan.metrics ensures x in input.request.metrics && Resolves(input, x) { assert Aligned(input, x); }
    var paths := PathsOf(input, plan.metrics);
    assert plan.groups[g].dimensions in paths;
    var k :| 0 <= k < |paths| && paths[k] == plan.groups[g].dimensions;
    m := plan.metrics[k];
    assert m in plan.metrics;
  }

  /** All groups expose the same output columns, of the same types and grains, none of them a metric. */
  lemma SameColumns(input: Input, plan: Plan, g: nat)
    requires WellFormed(input) && PlanFor(input) == Ok(plan) && g < |plan.groups|
    ensures Names(plan.groups[g].dimensions) == plan.groupBy
    ensures forall h | 0 <= h < |plan.groups| :: Types(plan.groups[h].dimensions) == Types(plan.groups[g].dimensions)
    ensures Unambiguous(plan.groupBy, plan.metrics)
  {
    var first := input.request.metrics[0];
    assert Aligned(input, first);
    var m := GroupPath(input, plan, g);
    SameNames(input, m, first);
    forall h | 0 <= h < |plan.groups| ensures Types(plan.groups[h].dimensions) == Types(PathOf(input, first)) {
      var m' := GroupPath(input, plan, h);
    }
  }

  /** An order clause sorts by a projected column: the last dimension of that name, or else the metric. */
  lemma OrderProjected(input: Input, plan: Plan, i: nat) returns (column: string)
    requires WellFormed(input) && PlanFor(input) == Ok(plan) && i < |input.request.orderBy|
    ensures |plan.orderBy| == |input.request.orderBy| && |plan.groupBy| == |input.request.groupBy|
    ensures plan.orderBy[i] == (if input.request.orderBy[i].descending then "-" else "") + column
    ensures var field := input.request.orderBy[i].fieldId;
      if field in Keys(input)
      then exists k: nat :: (LastAt(Keys(input), k, field) && column == plan.groupBy[k])
      else column == field && field in plan.metrics
  {
    var first, field := input.request.metrics[0], input.request.orderBy[i].fieldId;
    assert Aligned(input, first) && input.request.orderBy[i] in input.request.orderBy;
    var k := LastAssignment(MetricFields(input.request.metrics), Keys(input), plan.groupBy, field);
    column := OrderFields(input)[field];
  }

  predicate LastAt(keys: seq<string>, i: nat, k: string) {
    i < |keys| && keys[i] == k && k !in keys[i + 1..]
  }

  lemma {:induction false} LastAssignment(fields: map<string, string>, keys: seq<string>, columns: seq<string>, k: string)
    returns (i: nat)
    requires |keys| == |columns|
    ensures k !in keys ==> (k in Assign(fields, keys, columns) <==> k in fields)
    ensures k !in keys && k in fields ==> Assign(fields, keys, columns)[k] == fields[k]
    ensures k in keys ==> LastAt(keys, i, k) && k in Assign(fields, keys, columns)
    ensures k in keys ==> Assign(fields, keys, columns)[k] == columns[i]
  {
    i := 0;
    if keys != [] {
      var n := |keys| - 1;
      i := LastAssignment(fields, keys[..n], columns[..n], k);
      assert keys == keys[..n] + [keys[n]];
      if k == keys[n] {
        i := n;
      } else if k in keys {
        assert keys[i + 1..] == keys[..n][i + 1..] + [keys[n]];
      }
    }
  }
}
