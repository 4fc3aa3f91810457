/** Native compilation of the groups of a plan: whole groups first, first-fit splitting when the engine refuses one. */
module BoundGroups {
  import opened Common
  import opened BoundPlan
  import opened BoundPlanLaws

  /** What the engine answers: SQL, a refusal of the combination, or any other failure. */
  datatype Outcome = Compiled(sql: string) | Invalid | Failed(reason: string)
  datatype CompileError = InvalidQuery | Failure(reason: string)
  datatype SqlGroup = SqlGroup(metrics: seq<string>, sql: string)

  function With(candidate: Group, ms: seq<string>): Group {
    candidate.(query := candidate.query.(metrics := ms))
  }

  function Metrics(parts: seq<SqlGroup>): (lists: seq<seq<string>>)
    ensures |lists| == |parts|
  {
    seq(|parts|, i requires 0 <= i < |parts| => parts[i].metrics)
  }

  /** Each group's SQL is the compilation of exactly its own metrics. */
  predicate Faithful(candidate: Group, compile: Group -> Outcome, parts: seq<SqlGroup>) {
    forall i | 0 <= i < |parts| ::
      compile(With(candidate, parts[i].metrics)) == Compiled(parts[i].sql)
  }

  predicate Filled(parts: seq<SqlGroup>) {
    forall i | 0 <= i < |parts| :: parts[i].metrics != []
  }

  /** These groups hold exactly these metrics, with their multiplicity. */
  predicate SameMetrics(parts: seq<SqlGroup>, ms: seq<string>) {
    multiset(Flat(Metrics(parts))) == multiset(ms)
  }

  /** The engine refused the metric beside some of the group's metrics. */
  predicate Refused(candidate: Group, compile: Group -> Outcome, ms: seq<string>, metric: string) {
    exists n :: 0 < n <= |ms| && compile(With(candidate, ms[..n] + [metric])) == Invalid
  }

  /** A metric went to a later group only because every earlier one refused it. */
  predicate FirstFit(candidate: Group, compile: Group -> Outcome, parts: seq<SqlGroup>) {
    forall a, b, m | 0 <= a < b < |parts| && m in parts[b].metrics :: Refused(candidate, compile, parts[a].metrics, m)
  }

  /** Some of these metrics, in their order. */
  predicate IsSub(part: seq<string>, ms: seq<string>) {
    part == [] || (ms != [] && (IsSub(part, ms[..|ms| - 1])
      || (part[|part| - 1] == ms[|ms| - 1] && IsSub(part[..|part| - 1], ms[..|ms| - 1]))))
  }

  lemma SubMore(part: seq<string>, ms: seq<string>, m: string)
    requires IsSub(part, ms)
    ensures IsSub(part, ms + [m]) && IsSub(part + [m], ms + [m])
  {
    assert (ms + [m])[..|ms|] == ms && (part + [m])[..|part|] == part;
  }

  lemma {:induction false} SubOfWhole(part: seq<string>, ms: seq<string>, n: nat)
    requires n <= |ms| && IsSub(part, ms[..n])
    ensures IsSub(part, ms)
    decreases |ms| - n
  {
    if n < |ms| {
      SubMore(part, ms[..n], ms[n]);
      assert ms[..n + 1] == ms[..n] + [ms[n]];
      SubOfWhole(part, ms, n + 1);
    } else {
      assert ms[..n] == ms;
    }
  }

  lemma {:induction false} SubOfItself(ms: seq<string>)
    ensures IsSub(ms, ms)
  {
    if ms != [] { SubOfItself(ms[..|ms| - 1]); }
  }

  predicate AllSubs(parts: seq<SqlGroup>, ms: seq<string>) {
    forall i | 0 <= i < |parts| :: IsSub(parts[i].metrics, ms)
  }

  // ---- The calls made, in order ----

  /** A call for some of the given metrics of the candidate. */
  predicate CallFor(candidate: Group, ms: seq<string>, call: Group) {
    call == With(candidate, call.query.metrics) && IsSub(call.query.metrics, ms)
  }

  predicate CallsFor(candidate: Group, ms: seq<string>, calls: seq<Group>) {
    forall i | 0 <= i < |calls| :: CallFor(candidate, ms, calls[i])
  }

  /** None of these calls failed for another reason than a refusal. */
  predicate Quiet(compile: Group -> Outcome, calls: seq<Group>) {
    forall i | 0 <= i < |calls| :: !compile(calls[i]).Failed?
  }

  /** The call's own outcome is this error; a refusal counts only for a single metric. */
  predicate Blamed(compile: Group -> Outcome, call: Group, error: CompileError) {
    match compile(call)
    case Compiled(_) => false
    case Invalid => error == InvalidQuery && |call.query.metrics| == 1
    case Failed(reason) => error == Failure(reason)
  }

  /** The last call is to blame, and the ones before it are not. */
  predicate LastBlamed(compile: Group -> Outcome, calls: seq<Group>, error: CompileError) {
    calls != [] && Blamed(compile, calls[|calls| - 1], error) && Quiet(compile, calls[..|calls| - 1])
  }

  /** An error is that of the last call made; without an error no call has failed. */
  predicate Accounted<T>(compile: Group -> Outcome, calls: seq<Group>, result: Result<T, CompileError>) {
    if result.Ok? then Quiet(compile, calls) else LastBlamed(compile, calls, result.error)
  }

  lemma OneMoreCall(candidate: Group, compile: Group -> Outcome, ms: seq<string>, calls: seq<Group>, part: seq<string>)
    requires CallsFor(candidate, ms, calls) && Quiet(compile, calls) && IsSub(part, ms)
    ensures CallsFor(candidate, ms, calls + [With(candidate, part)])
    ensures !compile(With(candidate, part)).Failed? ==> Quiet(compile, calls + [With(candidate, part)])
    ensures compile(With(candidate, part)).Failed? || (compile(With(candidate, part)).Invalid? && |part| == 1) ==>
      LastBlamed(compile, calls + [With(candidate, part)], ErrorOf(compile(With(candidate, part))))
  {
    var all := calls + [With(candidate, part)];
    assert all[..|calls|] == calls;
  }

  lemma MoreCalls<T>(candidate: Group, compile: Group -> Outcome, ms: seq<string>, calls: seq<Group>, more: seq<Group>,
                     result: Result<T, CompileError>)
    requires CallsFor(candidate, ms, calls) && Quiet(compile, calls)
    requires CallsFor(candidate, ms, more) && Accounted(compile, more, result)
    ensures CallsFor(candidate, ms, calls + more) && Accounted(compile, calls + more, result)
  {
    if result.Err? { assert (calls + more)[..|calls| + |more| - 1] == calls + more[..|more| - 1]; }
  }

  lemma CallsForWhole(candidate: Group, ms: seq<string>, n: nat, calls: seq<Group>)
    requires n <= |ms| && CallsFor(candidate, ms[..n], calls)
    ensures CallsFor(candidate, ms, calls)
  {
    forall i | 0 <= i < |calls| ensures CallFor(candidate, ms, calls[i]) {
      assert CallFor(candidate, ms[..n], calls[i]);
      SubOfWhole(calls[i].query.metrics, ms, n);
    }
  }

  function ErrorOf(outcome: Outcome): CompileError {
    if outcome.Failed? then Failure(outcome.reason) else InvalidQuery
  }

  /** The engine never fails otherwise on the candidate's metrics, and accepts each of them on its own. */
  ghost predicate Tame(candidate: Group, compile: Group -> Outcome) {
    && (forall ms | IsSub(ms, candidate.query.metrics) :: !compile(With(candidate, ms)).Failed?)
    && (forall m | m in candidate.query.metrics :: compile(With(candidate, [m])).Compiled?)
  }

  lemma TameIsOk<T>(candidate: Group, compile: Group -> Outcome, calls: seq<Group>, result: Result<T, CompileError>)
    requires Tame(candidate, compile) && CallsFor(candidate, candidate.query.metrics, calls) && Accounted(compile, calls, result)
    ensures result.Ok?
  {
    if result.Err? {
      var last := calls[|calls| - 1];
      assert CallFor(candidate, candidate.query.metrics, last);
      assert !compile(With(candidate, last.query.metrics)).Failed?;
      OnlyMetric(last.query.metrics, candidate.query.metrics);
    }
  }

  lemma {:induction false} OnlyMetric(part: seq<string>, ms: seq<string>)
    requires IsSub(part, ms)
    ensures |part| == 1 ==> part == [part[0]] && part[0] in ms
  {
    if |part| == 1 && IsSub(part, ms[..|ms| - 1]) { OnlyMetric(part, ms[..|ms| - 1]); }
  }

  lemma RefusedStays(candidate: Group, compile: Group -> Outcome, ms: seq<string>, metric: string, m: string)
    requires Refused(candidate, compile, ms, m)
    ensures Refused(candidate, compile, ms + [metric], m)
  {
    var n :| 0 < n <= |ms| && compile(With(candidate, ms[..n] + [m])) == Invalid;
    assert (ms + [metric])[..n] == ms[..n];
  }

  lemma GrownFirstFit(candidate: Group, compile: Group -> Outcome, parts: seq<SqlGroup>, index: nat, metric: string, sql: string)
    requires FirstFit(candidate, compile, parts) && index < |parts|
    requires forall a | 0 <= a < index :: Refused(candidate, compile, parts[a].metrics, metric)
    ensures FirstFit(candidate, compile, parts[index := SqlGroup(parts[index].metrics + [metric], sql)])
  {
    var parts' := parts[index := SqlGroup(parts[index].metrics + [metric], sql)];
    forall a, b, m | 0 <= a < b < |parts'| && m in parts'[b].metrics
      ensures Refused(candidate, compile, parts'[a].metrics, m)
    {
      if m in parts[b].metrics {
        assert Refused(candidate, compile, parts[a].metrics, m);
        if a == index { RefusedStays(candidate, compile, parts[a].metrics, metric, m); }
      } else {
        assert b == index && m == metric;
      }
    }
  }

  /** First-fit groups that hold exactly these metrics, each with its own SQL. */
  predicate Partition(candidate: Group, compile: Group -> Outcome, parts: seq<SqlGroup>, ms: seq<string>) {
    && SameMetrics(parts, ms) && AllSubs(parts, ms) && Filled(parts)
    && Faithful(candidate, compile, parts) && FirstFit(candidate, compile, parts)
  }

  /** Puts one more metric into the first group that takes it, or into a group of its own; `before` are the metrics
      placed so far. */
  method Place(candidate: Group, compile: Group -> Outcome, parts: seq<SqlGroup>, metric: string, ghost before: seq<string>)
    returns (placed: Result<seq<SqlGroup>, CompileError>, ghost calls: seq<Group>)
    requires Partition(candidate, compile, parts, before)
    ensures |calls| <= |parts| + 1 && CallsFor(candidate, before + [metric], calls)
    ensures Accounted(compile, calls, placed)
    ensures placed.Ok? ==> |placed.value| <= |parts| + 1 && Partition(candidate, compile, placed.value, before + [metric])
  {
    calls := [];
    var index := 0;
    while index < |parts|
      invariant 0 <= index <= |parts| && |calls| == index
      invariant CallsFor(candidate, before + [metric], calls) && Quiet(compile, calls)
      invariant forall a | 0 <= a < index :: Refused(candidate, compile, parts[a].metrics, metric)
    {
      var metrics := parts[index].metrics + [metric];
      var outcome := compile(With(candidate, metrics));
      SubMore(parts[index].metrics, before, metric);
      OneMoreCall(candidate, compile, before + [metric], calls, metrics);
      calls := calls + [With(candidate, metrics)];
      match outcome {
        case Compiled(sql) =>
          Grown(candidate, compile, parts, index, metric, sql, before);
          return Ok(parts[index := SqlGroup(metrics, sql)]), calls;
        case Failed(reason) =>
          return Err(Failure(reason)), calls;
        case Invalid =>
          RefusedHere(candidate, compile, parts[index].metrics, metric);
      }
      index := index + 1;
    }
    assert [] + [metric] == [metric];
    SubMore([], before, metric);
    var single := compile(With(candidate, [metric]));
    OneMoreCall(candidate, compile, before + [metric], calls, [] + [metric]);
    calls := calls + [With(candidate, [metric])];
    if !single.Compiled? { return Err(ErrorOf(single)), calls; }
    Alone(candidate, compile, parts, metric, single.sql, before);
    placed := Ok(parts + [SqlGroup([metric], single.sql)]);
  }

  lemma Grown(candidate: Group, compile: Group -> Outcome, parts: seq<SqlGroup>, index: nat, metric: string, sql: string,
              before: seq<string>)
    requires Partition(candidate, compile, parts, before) && index < |parts|
    requires forall a | 0 <= a < index :: Refused(candidate, compile, parts[a].metrics, metric)
    requires compile(With(candidate, parts[index].metrics + [metric])) == Compiled(sql)
    ensures Partition(candidate, compile, parts[index := SqlGroup(parts[index].metrics + [metric], sql)], before + [metric])
  {
    var parts' := parts[index := SqlGroup(parts[index].metrics + [metric], sql)];
    GrownFirstFit(candidate, compile, parts, index, metric, sql);
    GrownMetrics(parts, index, metric, sql);
    forall i | 0 <= i < |parts'| ensures IsSub(parts'[i].metrics, before + [metric]) { SubMore(parts[i].metrics, before, metric); }
    assert SameMetrics(parts', before + [metric]);
  }

  lemma Alone(candidate: Group, compile: Group -> Outcome, parts: seq<SqlGroup>, metric: string, sql: string, before: seq<string>)
    requires Partition(candidate, compile, parts, before)
    requires forall a | 0 <= a < |parts| :: Refused(candidate, compile, parts[a].metrics, metric)
    requires compile(With(candidate, [metric])) == Compiled(sql)
    ensures Partition(candidate, compile, parts + [SqlGroup([metric], sql)], before + [metric])
  {
    var parts' := parts + [SqlGroup([metric], sql)];
    AloneMetrics(parts, metric, sql);
    AloneFirstFit(candidate, compile, parts, metric, sql);
    AloneSubs(parts, before, metric, sql);
    assert SameMetrics(parts', before + [metric]);
  }

  lemma AloneSubs(parts: seq<SqlGroup>, before: seq<string>, metric: string, sql: string)
    requires AllSubs(parts, before)
    ensures AllSubs(parts + [SqlGroup([metric], sql)], before + [metric])
  {
    var parts' := parts + [SqlGroup([metric], sql)];
    forall i | 0 <= i < |parts'| ensures IsSub(parts'[i].metrics, before + [metric]) {
      if i < |parts| { SubMore(parts[i].metrics, before, metric); } else { AloneSub(before, metric); }
    }
  }

  lemma AloneSub(before: seq<string>, metric: string)
    ensures IsSub([metric], before + [metric])
  {
    SubMore([], before, metric);
    assert [] + [metric] == [metric];
  }

  lemma AloneMetrics(parts: seq<SqlGroup>, metric: string, sql: string)
    ensures multiset(Flat(Metrics(parts + [SqlGroup([metric], sql)]))) == multiset(Flat(Metrics(parts))) + multiset{metric}
  {
    assert Metrics(parts + [SqlGroup([metric], sql)]) == Metrics(parts) + [[metric]];
    FlatAppend(Metrics(parts), [metric]);
  }

  lemma AloneFirstFit(candidate: Group, compile: Group -> Outcome, parts: seq<SqlGroup>, metric: string, sql: string)
    requires FirstFit(candidate, compile, parts)
    requires forall a | 0 <= a < |parts| :: Refused(candidate, compile, parts[a].metrics, metric)
    ensures FirstFit(candidate, compile, parts + [SqlGroup([metric], sql)])
  {
    var parts' := parts + [SqlGroup([metric], sql)];
    forall a, b, m | 0 <= a < b < |parts'| && m in parts'[b].metrics ensures Refused(candidate, compile, parts'[a].metrics, m) {
      if b < |parts| { assert parts'[b] == parts[b]; } else { assert m == metric; }
    }
  }

  lemma RefusedHere(candidate: Group, compile: Group -> Outcome, ms: seq<string>, metric: string)
    requires ms != [] && compile(With(candidate, ms + [metric])) == Invalid
    ensures Refused(candidate, compile, ms, metric)
  {
    assert ms[..|ms|] == ms;
    assert compile(With(candidate, ms[..|ms|] + [metric])) == Invalid;
  }

  lemma GrownMetrics(parts: seq<SqlGroup>, index: nat, metric: string, sql: string)
    requires index < |parts|
    ensures multiset(Flat(Metrics(parts[index := SqlGroup(parts[index].metrics + [metric], sql)])))
         == multiset(Flat(Metrics(parts))) + multiset{metric}
  {
    var parts' := parts[index := SqlGroup(parts[index].metrics + [metric], sql)];
    assert Metrics(parts') == Metrics(parts)[index := Metrics(parts)[index] + [metric]];
    FlatGrows(Metrics(parts), index, metric);
  }

  function Triangle(n: nat): nat {
    if n == 0 then 0 else Triangle(n - 1) + n
  }

  lemma {:induction false} TriangleClosed(n: nat)
    ensures Triangle(n) == n * (n + 1) / 2
  {
    if n > 0 { TriangleClosed(n - 1); }
  }

  /** Everything the result for one candidate promises. */
  predicate Covers(candidate: Group, compile: Group -> Outcome, parts: seq<SqlGroup>) {
    && SameMetrics(parts, candidate.query.metrics)
    && AllSubs(parts, candidate.query.metrics)
    && Faithful(candidate, compile, parts)
    && FirstFit(candidate, compile, parts)
    && (|parts| > 1 ==> Filled(parts))
    && (compile(candidate).Compiled? ==> parts == [SqlGroup(candidate.query.metrics, compile(candidate).sql)])
  }

  method Split(candidate: Group, compile: Group -> Outcome)
    returns (parts: Result<seq<SqlGroup>, CompileError>, ghost calls: seq<Group>)
    ensures |calls| <= Triangle(|candidate.query.metrics|)
    ensures CallsFor(candidate, candidate.query.metrics, calls) && Accounted(compile, calls, parts)
    ensures parts.Ok? ==> Partition(candidate, compile, parts.value, candidate.query.metrics)
  {
    var metrics := candidate.query.metrics;
    var partitions: seq<SqlGroup> := [];
    calls := [];
    var i := 0;
    while i < |metrics|
      invariant 0 <= i <= |metrics| && |partitions| <= i && |calls| <= Triangle(i) <= Triangle(|metrics|)
      invariant CallsFor(candidate, metrics, calls) && Quiet(compile, calls)
      invariant Partition(candidate, compile, partitions, metrics[..i])
    {
      ghost var more;
      var placed;
      placed, more := Place(candidate, compile, partitions, metrics[i], metrics[..i]);
      assert metrics[..i + 1] == metrics[..i] + [metrics[i]];
      CallsForWhole(candidate, metrics, i + 1, more);
      MoreCalls(candidate, compile, metrics, calls, more, placed);
      calls := calls + more;
      TriangleGrows(i + 1, |metrics|);
      if placed.Err? { return Err(placed.error), calls; }
      partitions := placed.value;
      i := i + 1;
    }
    assert metrics[..i] == metrics;
    return Ok(partitions), calls;
  }

  lemma {:induction false} TriangleGrows(i: nat, n: nat)
    requires i <= n
    ensures Triangle(i) <= Triangle(n)
  {
    if i < n { TriangleGrows(i, n - 1); }
  }

  /** One candidate: the whole group if the engine takes it, otherwise a split. */
  method CompileCandidate(candidate: Group, compile: Group -> Outcome)
    returns (parts: Result<seq<SqlGroup>, CompileError>, ghost calls: seq<Group>)
    ensures |calls| <= 1 + Triangle(|candidate.query.metrics|)
    ensures CallsFor(candidate, candidate.query.metrics, calls) && Accounted(compile, calls, parts)
    ensures parts.Ok? ==> Covers(candidate, compile, parts.value)
    ensures Tame(candidate, compile) ==> parts.Ok?
  {
    var metrics := candidate.query.metrics;
    WholeIsItself(candidate);
    SubOfItself(metrics);
    var whole := compile(candidate);
    OneMoreCall(candidate, compile, metrics, [], metrics);
    calls := [] + [With(candidate, metrics)];
    if whole.Compiled? {
      WholeCovers(candidate, compile);
      parts := Ok([SqlGroup(metrics, whole.sql)]);
    } else if whole.Failed? || |metrics| == 1 {
      parts := Err(ErrorOf(whole));
    } else {
      ghost var more;
      parts, more := Split(candidate, compile);
      MoreCalls(candidate, compile, metrics, calls, more, parts);
      calls := calls + more;
    }
    if Tame(candidate, compile) { TameIsOk(candidate, compile, calls, parts); }
  }

  lemma WholeIsItself(candidate: Group)
    ensures With(candidate, candidate.query.metrics) == candidate
  {}

  lemma WholeCovers(candidate: Group, compile: Group -> Outcome)
    requires compile(candidate).Compiled?
    ensures Covers(candidate, compile, [SqlGroup(candidate.query.metrics, compile(candidate).sql)])
  {
    var part := SqlGroup(candidate.query.metrics, compile(candidate).sql);
    WholeIsItself(candidate);
    OneHolds(candidate, part);
    SubOfItself(candidate.query.metrics);
    assert FirstFit(candidate, compile, [part]);
    assert Faithful(candidate, compile, [part]);
  }

  lemma OneHolds(candidate: Group, part: SqlGroup)
    requires part.metrics == candidate.query.metrics
    ensures SameMetrics([part], candidate.query.metrics)
  {
    assert Metrics([part]) == [] + [part.metrics];
    FlatAppend([], part.metrics);
  }

  // ---- All candidates ----

  function Concat(parts: seq<seq<SqlGroup>>): seq<SqlGroup> {
    if parts == [] then [] else Concat(parts[..|parts| - 1]) + parts[|parts| - 1]
  }

  function CallBound(candidates: seq<Group>): nat {
    if candidates == [] then 0
    else CallBound(candidates[..|candidates| - 1]) + 1 + Triangle(|candidates[|candidates| - 1].query.metrics|)
  }

  /** Every candidate so far has its own part of the result. */
  predicate AllCovered(candidates: seq<Group>, compile: Group -> Outcome, parts: seq<seq<SqlGroup>>) {
    |parts| <= |candidates| && forall i | 0 <= i < |parts| :: Covers(candidates[i], compile, parts[i])
  }

  lemma OneMoreCovered(candidates: seq<Group>, compile: Group -> Outcome, parts: seq<seq<SqlGroup>>, last: seq<SqlGroup>)
    requires AllCovered(candidates, compile, parts) && |parts| < |candidates| && Covers(candidates[|parts|], compile, last)
    ensures AllCovered(candidates, compile, parts + [last])
  {
    forall i | 0 <= i < |parts| + 1 ensures Covers(candidates[i], compile, (parts + [last])[i]) {
      if i < |parts| { assert (parts + [last])[i] == parts[i]; }
    }
  }

  lemma ConcatAppend(parts: seq<seq<SqlGroup>>, last: seq<SqlGroup>)
    ensures Concat(parts + [last]) == Concat(parts) + last
  {
    assert (parts + [last])[..|parts|] == parts;
  }

  /** Each call is for some metrics of one of the candidates. */
  predicate AllCallsFor(candidates: seq<Group>, calls: seq<Group>) {
    forall k | 0 <= k < |calls| :: CallForSome(candidates, calls[k])
  }

  predicate CallForSome(candidates: seq<Group>, call: Group) {
    exists i :: 0 <= i < |candidates| && CallFor(candidates[i], candidates[i].query.metrics, call)
  }

  lemma AllMoreCalls<T>(candidates: seq<Group>, compile: Group -> Outcome, calls: seq<Group>, more: seq<Group>, i: nat,
                        result: Result<T, CompileError>)
    requires AllCallsFor(candidates, calls) && Quiet(compile, calls) && i < |candidates|
    requires CallsFor(candidates[i], candidates[i].query.metrics, more) && Accounted(compile, more, result)
    ensures AllCallsFor(candidates, calls + more) && Accounted(compile, calls + more, result)
  {
    forall k | 0 <= k < |calls + more| ensures CallForSome(candidates, (calls + more)[k]) {
      if k >= |calls| { assert CallFor(candidates[i], candidates[i].query.metrics, more[k - |calls|]); }
    }
    if result.Err? { assert (calls + more)[..|calls| + |more| - 1] == calls + more[..|more| - 1]; }
  }

  method CompileGroups(candidates: seq<Group>, compile: Group -> Outcome)
    returns (result: Result<seq<SqlGroup>, CompileError>, ghost parts: seq<seq<SqlGroup>>, ghost calls: seq<Group>)
    ensures |calls| <= CallBound(candidates) && AllCallsFor(candidates, calls)
    ensures Accounted(compile, calls, result)
    ensures result.Ok? ==> |parts| == |candidates| && AllCovered(candidates, compile, parts) && result.value == Concat(parts)
    ensures (forall i | 0 <= i < |candidates| :: Tame(candidates[i], compile)) ==> result.Ok?
  {
    var groups: seq<SqlGroup> := [];
    parts, calls := [], [];
    var i := 0;
    while i < |candidates|
      invariant 0 <= i <= |candidates| && |parts| == i && groups == Concat(parts)
      invariant |calls| <= CallBound(candidates[..i]) && AllCallsFor(candidates, calls) && Quiet(compile, calls)
      invariant AllCovered(candidates, compile, parts)
    {
      ghost var more;
      var one;
      one, more := CompileCandidate(candidates[i], compile);
      AllMoreCalls(candidates, compile, calls, more, i, one);
      calls := calls + more;
      OneMoreBound(candidates, i);
      if one.Err? { return Err(one.error), parts, calls; }
      OneMoreCovered(candidates, compile, parts, one.value);
      ConcatAppend(parts, one.value);
      parts, groups := parts + [one.value], groups + one.value;
      i := i + 1;
    }
    assert candidates[..i] == candidates;
    return Ok(groups), parts, calls;
  }

  lemma OneMoreBound(candidates: seq<Group>, i: nat)
    requires i < |candidates|
    ensures CallBound(candidates[..i + 1]) == CallBound(candidates[..i]) + 1 + Triangle(|candidates[i].query.metrics|)
    ensures CallBound(candidates[..i + 1]) <= CallBound(candidates)
  {
    assert candidates[..i + 1][..i] == candidates[..i];
    CallsGrow(candidates, i + 1);
  }

  lemma {:induction false} CallsGrow(candidates: seq<Group>, i: nat)
    requires i <= |candidates|
    ensures CallBound(candidates[..i]) <= CallBound(candidates)
    decreases |candidates| - i
  {
    if i < |candidates| {
      CallsGrow(candidates, i + 1);
      assert candidates[..i + 1][..i] == candidates[..i];
    } else {
      assert candidates[..i] == candidates;
    }
  }

  lemma {:induction false} FlatConcat(parts: seq<seq<SqlGroup>>, candidates: seq<Group>)
    requires |parts| == |candidates| && forall i | 0 <= i < |parts| :: SameMetrics(parts[i], candidates[i].query.metrics)
    ensures multiset(Flat(Metrics(Concat(parts)))) == multiset(Flat(MetricLists(candidates)))
  {
    if parts == [] {
      assert Metrics(Concat(parts)) == [] && MetricLists(candidates) == [];
    } else {
      var n := |parts| - 1;
      FlatConcat(parts[..n], candidates[..n]);
      MetricsSum(Concat(parts[..n]), parts[n]);
      FlatSum(Metrics(Concat(parts[..n])), Metrics(parts[n]));
      LastCandidate(candidates);
    }
  }

  lemma MetricsSum(a: seq<SqlGroup>, b: seq<SqlGroup>)
    ensures Metrics(a + b) == Metrics(a) + Metrics(b)
  {}

  lemma LastCandidate(candidates: seq<Group>)
    requires candidates != []
    ensures var n := |candidates| - 1;
      Flat(MetricLists(candidates)) == Flat(MetricLists(candidates[..n])) + candidates[n].query.metrics
  {
    assert MetricLists(candidates)[..|candidates| - 1] == MetricLists(candidates[..|candidates| - 1]);
  }

  lemma {:induction false} FlatSum(a: seq<seq<string>>, b: seq<seq<string>>)
    ensures Flat(a + b) == Flat(a) + Flat(b)
  {
    if b == [] {
      assert a + b == a;
    } else {
      var n := |b| - 1;
      assert (a + b)[..|a| + n] == a + b[..n];
      FlatSum(a, b[..n]);
    }
  }

  // ---- No two groups of a candidate could have been merged ----

  function Elements(ms: seq<string>): set<string> {
    set m | m in ms
  }

  /** Whether the engine takes a combination depends on its metrics only, and a non-empty part of what it takes
      it takes. */
  ghost predicate SubsetClosed(candidate: Group, compile: Group -> Outcome) {
    forall ms, more | ms != [] && Elements(ms) <= Elements(more) && compile(With(candidate, more)).Compiled? ::
      compile(With(candidate, ms)).Compiled?
  }

  lemma NoMergeLeft(candidate: Group, compile: Group -> Outcome, parts: seq<SqlGroup>, a: nat, b: nat, merged: seq<string>)
    requires Covers(candidate, compile, parts) && SubsetClosed(candidate, compile)
    requires a < b < |parts|
    requires Elements(parts[a].metrics) + Elements(parts[b].metrics) <= Elements(merged)
    ensures !compile(With(candidate, merged)).Compiled?
  {
    var m := parts[b].metrics[0];
    assert Refused(candidate, compile, parts[a].metrics, m);
    var n :| 0 < n <= |parts[a].metrics| && compile(With(candidate, parts[a].metrics[..n] + [m])) == Invalid;
    assert m in Elements(parts[b].metrics);
    forall x | x in Elements(parts[a].metrics[..n] + [m]) ensures x in Elements(merged) {
      if x != m { assert x in Elements(parts[a].metrics); }
    }
  }
}
