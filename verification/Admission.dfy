/** Admission of builds: idempotent requests, ownership of physical targets, immutable execution snapshots. */
module Admission {
  import opened Common

  type BuildId = nat
  type TargetKey = nat
  type Digest = nat

  datatype Error = InputConflict | Invalid | TargetConflict | SnapshotConflict

  datatype Snapshot = Snapshot(environment: nat, version: nat, content: string)
  datatype Request = Request(repository: string, key: string, snapshot: Snapshot, body: string)

  /** The columns of a build row that admission decides on; they are written once. */
  datatype Build = Build(repository: string, caller: string, key: string, digest: Digest, environment: nat, version: nat,
                         target: TargetKey, config: Snapshot)

  type Builds = map<BuildId, Build>

  /** How requests are fingerprinted and which physical target a snapshot writes to. */
  datatype Rules = Rules(digest: Request -> Digest, targetOf: Snapshot -> TargetKey)

  predicate SameRequest(build: Build, request: Request, caller: string) {
    build.repository == request.repository && build.caller == caller && build.key == request.key
  }

  function NewBuild(rules: Rules, request: Request, caller: string): Build {
    var snapshot := request.snapshot;
    Build(request.repository, caller, request.key, rules.digest(request), snapshot.environment, snapshot.version,
          rules.targetOf(snapshot), snapshot)
  }

  // ---- What the table keeps ----

  predicate TargetsOwned(builds: Builds) {
    forall a, b | a in builds && b in builds && builds[a].target == builds[b].target ::
      builds[a].environment == builds[b].environment
  }

  predicate SnapshotsFixed(builds: Builds) {
    forall a, b | a in builds && b in builds && builds[a].environment == builds[b].environment
      && builds[a].version == builds[b].version :: builds[a].config == builds[b].config
  }

  predicate RequestsUnique(builds: Builds) {
    forall a, b | a in builds && b in builds && builds[a].repository == builds[b].repository
      && builds[a].caller == builds[b].caller && builds[a].key == builds[b].key :: a == b
  }

  predicate Inv(builds: Builds) {
    TargetsOwned(builds) && SnapshotsFixed(builds) && RequestsUnique(builds)
  }

  // ---- Admission against all rows ----

  /** The verdict that looks at every row of the table. */
  ghost function Verdict(rules: Rules, builds: Builds, request: Request, caller: string, allowed: bool, newId: BuildId)
    : Result<BuildId, Error>
  {
    if exists b | b in builds :: SameRequest(builds[b], request, caller) then
      var b :| b in builds && SameRequest(builds[b], request, caller);
      if builds[b].digest == rules.digest(request) then Ok(b) else Err(InputConflict)
    else if !allowed then Err(Invalid)
    else if exists b | b in builds :: builds[b].target == rules.targetOf(request.snapshot)
                                      && builds[b].environment != request.snapshot.environment then Err(TargetConflict)
    else if exists b | b in builds :: SameVersion(builds[b], request.snapshot)
                                      && builds[b].config != request.snapshot then Err(SnapshotConflict)
    else Ok(newId)
  }

  ghost function After(rules: Rules, builds: Builds, request: Request, caller: string, allowed: bool, newId: BuildId): Builds {
    if Verdict(rules, builds, request, caller, allowed, newId) == Ok(newId) && newId !in builds
    then builds[newId := NewBuild(rules, request, caller)] else builds
  }

  /** Admission keeps one environment per target, one snapshot per version, and one build per request. */
  lemma AcceptKeeps(rules: Rules, builds: Builds, request: Request, caller: string, allowed: bool, newId: BuildId)
    requires Inv(builds) && newId !in builds
    ensures Inv(After(rules, builds, request, caller, allowed, newId))
  {
    var builds' := After(rules, builds, request, caller, allowed, newId);
    if builds' != builds {
      forall b | b in builds
        ensures !SameRequest(builds[b], request, caller)
        ensures builds[b].target == rules.targetOf(request.snapshot) ==> builds[b].environment == request.snapshot.environment
        ensures SameVersion(builds[b], request.snapshot) ==> builds[b].config == request.snapshot
      {}
    }
  }

  // ---- Admission as it runs, with one arbitrary row for each question ----

  class BuildStore {
    const rules: Rules
    var builds: Builds

    constructor (rules: Rules)
      ensures this.rules == rules && builds == map[] && Inv(builds)
    {
      this.rules, builds := rules, map[];
    }

    /** One row that satisfies the query, whichever the database returns. */
    method Pick(query: Build -> bool) returns (row: Option<BuildId>)
      ensures row.Some? ==> row.value in builds && query(builds[row.value])
      ensures row.None? ==> forall b | b in builds :: !query(builds[b])
    {
      var found := set b | b in builds && query(builds[b]);
      if found != {} {
        var b :| b in found;
        return Some(b);
      }
      forall b | b in builds ensures !query(builds[b]) { assert b !in found; }
      return None;
    }

    method Accept(request: Request, caller: string, validateNew: Snapshot -> bool, newId: BuildId)
      returns (result: Result<BuildId, Error>)
      requires Inv(builds) && newId !in builds
      modifies this`builds
      ensures Inv(builds)
      ensures result == Verdict(rules, old(builds), request, caller, validateNew(request.snapshot), newId)
      ensures builds == After(rules, old(builds), request, caller, validateNew(request.snapshot), newId)
    {
      AcceptKeeps(rules, builds, request, caller, validateNew(request.snapshot), newId);
      var snapshot, target := request.snapshot, rules.targetOf(request.snapshot);
      var prior := Pick((row: Build) => SameRequest(row, request, caller));
      if prior.Some? {
        result := if builds[prior.value].digest != rules.digest(request) then Err(InputConflict) else Ok(prior.value);
        return;
      }
      if !validateNew(snapshot) { return Err(Invalid); }
      var other := Pick((row: Build) => row.target == target && row.environment != snapshot.environment);
      if other.Some? { return Err(TargetConflict); }
      var version := Pick((row: Build) => SameVersion(row, snapshot));
      if version.Some? && builds[version.value].config != snapshot { return Err(SnapshotConflict); }
      OneRowSpeaksForAll(builds, snapshot, version);
      builds := builds[newId := NewBuild(rules, request, caller)];
      return Ok(newId);
    }
  }

  predicate SameVersion(build: Build, snapshot: Snapshot) {
    build.environment == snapshot.environment && build.version == snapshot.version
  }

  /** Comparing with any one row of the version is as strong as comparing with all of them. */
  lemma OneRowSpeaksForAll(builds: Builds, snapshot: Snapshot, row: Option<BuildId>)
    requires SnapshotsFixed(builds)
    requires row.None? ==> forall b | b in builds :: !SameVersion(builds[b], snapshot)
    requires row.Some? ==> row.value in builds && SameVersion(builds[row.value], snapshot)
    ensures (row.Some? ==> builds[row.value].config == snapshot) <==>
            forall b | b in builds && SameVersion(builds[b], snapshot) :: builds[b].config == snapshot
  {}

  // ---- Sequences of requests ----

  /** One call: the request, its caller, what the settings said about it, the id it would get, and its answer. */
  datatype Call = Call(request: Request, caller: string, allowed: bool, id: BuildId, answer: Result<BuildId, Error>)

  ghost predicate IsRun(rules: Rules, states: seq<Builds>, calls: seq<Call>) {
    && |states| == |calls| + 1 && states[0] == map[]
    && forall i | 0 <= i < |calls| :: Next(rules, states, calls, i)
  }

  ghost predicate Next(rules: Rules, states: seq<Builds>, calls: seq<Call>, i: nat)
    requires |states| == |calls| + 1 && i < |calls|
  {
    var c := calls[i];
    && c.id !in states[i]
    && c.answer == Verdict(rules, states[i], c.request, c.caller, c.allowed, c.id)
    && states[i + 1] == After(rules, states[i], c.request, c.caller, c.allowed, c.id)
  }

  lemma {:induction false} RunInv(rules: Rules, states: seq<Builds>, calls: seq<Call>, i: nat)
    requires IsRun(rules, states, calls) && i < |states|
    ensures Inv(states[i])
  {
    if i > 0 {
      RunInv(rules, states, calls, i - 1);
      var c := calls[i - 1];
      assert Next(rules, states, calls, i - 1);
      AcceptKeeps(rules, states[i - 1], c.request, c.caller, c.allowed, c.id);
    }
  }

  lemma {:induction false} RowsStay(rules: Rules, states: seq<Builds>, calls: seq<Call>, i: nat, k: nat, b: BuildId)
    requires IsRun(rules, states, calls) && i <= k < |states| && b in states[i]
    ensures b in states[k] && states[k][b] == states[i][b]
    decreases k
  {
    if i < k {
      RowsStay(rules, states, calls, i, k - 1, b);
      assert Next(rules, states, calls, k - 1);
    }
  }

  /** Over every sequence of requests: a physical target belongs to one environment, a configuration version of an
      environment to one snapshot, and a caller's key to one build. */
  lemma AdmissionInvariants(rules: Rules, states: seq<Builds>, calls: seq<Call>, i: nat, a: BuildId, b: BuildId)
    requires IsRun(rules, states, calls) && i < |states| && a in states[i] && b in states[i]
    ensures var x, y := states[i][a], states[i][b];
      && (x.target == y.target ==> x.environment == y.environment)
      && (x.environment == y.environment && x.version == y.version ==> x.config == y.config)
      && (x.repository == y.repository && x.caller == y.caller && x.key == y.key ==> a == b)
  {
    RunInv(rules, states, calls, i);
  }

  /** The caller has used this key for the repository before. */
  predicate Used(build: Build, c: Call) {
    build.repository == c.request.repository && build.caller == c.caller && build.key == c.request.key
  }

  /** The target belongs to another environment. */
  predicate Taken(rules: Rules, build: Build, c: Call) {
    build.target == rules.targetOf(c.request.snapshot) && build.environment != c.request.snapshot.environment
  }

  /** The version of the environment has another content. */
  predicate Differs(build: Build, c: Call) {
    && build.environment == c.request.snapshot.environment && build.version == c.request.snapshot.version
    && build.config != c.request.snapshot
  }

  /** The answer to a call, exactly: with a used key the build it made or a conflict, otherwise the first objection of
      settings, targets and snapshots, and without one a new row with the request's columns. */
  lemma AnswerExact(rules: Rules, states: seq<Builds>, calls: seq<Call>, i: nat)
    requires IsRun(rules, states, calls) && i < |calls|
    ensures var rows, c := states[i], calls[i];
      var used := exists b | b in rows :: Used(rows[b], c);
      var taken := exists b | b in rows :: Taken(rules, rows[b], c);
      var differs := exists b | b in rows :: Differs(rows[b], c);
      && (forall b | b in rows && Used(rows[b], c) ::
            c.answer == if rows[b].digest == rules.digest(c.request) then Ok(b) else Err(InputConflict))
      && (c.answer == Err(InputConflict) ==> used)
      && (c.answer == Err(Invalid) <==> !used && !c.allowed)
      && (c.answer == Err(TargetConflict) <==> !used && c.allowed && taken)
      && (c.answer == Err(SnapshotConflict) <==> !used && c.allowed && !taken && differs)
      && (c.answer == Ok(c.id) <==> !used && c.allowed && !taken && !differs)
      && (c.id in states[i + 1] <==> c.answer == Ok(c.id))
      && states[i + 1] == (
           if c.id !in states[i + 1] then rows
           else rows[c.id := Build(c.request.repository, c.caller, c.request.key, rules.digest(c.request),
                                   c.request.snapshot.environment, c.request.snapshot.version,
                                   rules.targetOf(c.request.snapshot), c.request.snapshot)])
  {
    RunInv(rules, states, calls, i);
    assert Next(rules, states, calls, i);
    var rows, c := states[i], calls[i];
    forall b | b in rows ensures Used(rows[b], c) <==> SameRequest(rows[b], c.request, c.caller) {}
    if b :| b in rows && Used(rows[b], c) {
      forall x | x in rows && SameRequest(rows[x], c.request, c.caller) ensures x == b {}
    }
    forall b | b in rows ensures Differs(rows[b], c) <==>
                                 SameVersion(rows[b], c.request.snapshot) && rows[b].config != c.request.snapshot {}
  }

  /** Once accepted, the same request gets the same build for ever, without changing anything, whatever the settings
      say by then; another request under the same key is refused. */
  lemma ReplayReturnsSameBuild(rules: Rules, states: seq<Builds>, calls: seq<Call>, i: nat, k: nat, again: Request,
                               allowed: bool, id: BuildId)
    requires IsRun(rules, states, calls) && i < |calls| && i < k < |states| && id !in states[k]
    requires Verdict(rules, states[i], calls[i].request, calls[i].caller, calls[i].allowed, calls[i].id).Ok?
    requires again.repository == calls[i].request.repository && again.key == calls[i].request.key
    ensures var c := calls[i]; var first := Verdict(rules, states[i], c.request, c.caller, c.allowed, c.id);
      && Verdict(rules, states[k], again, c.caller, allowed, id)
           == (if rules.digest(again) == rules.digest(c.request) then first else Err(InputConflict))
      && After(rules, states[k], again, c.caller, allowed, id) == states[k]
  {
    var c := calls[i];
    var b := Verdict(rules, states[i], c.request, c.caller, c.allowed, c.id).value;
    assert Next(rules, states, calls, i);
    RunInv(rules, states, calls, k);
    assert b in states[i + 1] && SameRequest(states[i + 1][b], c.request, c.caller)
        && states[i + 1][b].digest == rules.digest(c.request);
    RowsStay(rules, states, calls, i + 1, k, b);
    assert SameRequest(states[k][b], again, c.caller);
    forall x | x in states[k] && SameRequest(states[k][x], again, c.caller) ensures x == b {}
  }
}
