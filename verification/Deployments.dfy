/** Deployment targets, their intents, and the transactions of the deployment store. */
module Deployments {
  import opened Common

  type Key = nat       // repository, environment and branch together
  type BuildId = nat
  type Sha = nat
  type Time = nat

  datatype SourceState = Undeployed | Matched | Ahead | Diverged | Missing | Unknown
  datatype IntentStatus = WaitingForBuild | Pending | Checking | Deployed | Stale | Failed | Cancelled
  datatype Reason = NoReason | NewerIntent | SourceHeadChanged | TargetOrBuildChanged | Coded(code: string)

  datatype Target = Target(version: nat, desired: nat, active: Option<BuildId>, head: Option<Sha>,
                           observedAt: Option<Time>, state: SourceState)
  datatype Intent = Intent(build: BuildId, status: IntentStatus, reason: Reason, version: nat, deployedAt: Option<Time>)

  datatype BuildStatus = BuildQueued | BuildRunning | BuildSucceeded | BuildFailed | BuildCancelled | BuildOutcomeUnknown
  datatype Build = Build(status: BuildStatus, output: Option<nat>, commit: Option<Sha>)

  datatype Db = Db(now: Time, targets: map<Key, Target>, intents: map<(Key, nat), Intent>, builds: map<BuildId, Build>)

  const NEW_TARGET := Target(0, 0, None, None, None, Undeployed)

  predicate Open(status: IntentStatus) {
    status in {WaitingForBuild, Pending, Checking}
  }

  /** The open intents of one target give way; every other intent is as it was. */
  function Superseded(intents: map<(Key, nat), Intent>, key: Key): map<(Key, nat), Intent> {
    map id | id in intents ::
      if id.0 == key && Open(intents[id].status)
      then intents[id].(status := Stale, reason := NewerIntent, version := intents[id].version + 1)
      else intents[id]
  }

  function Accept(db: Db, key: Key, build: BuildId): Db
    requires build in db.builds
  {
    var before := if key in db.targets then db.targets[key] else NEW_TARGET;
    var target := before.(desired := before.desired + 1, version := before.version + 1);
    var status := if db.builds[build].status == BuildSucceeded then Pending else WaitingForBuild;
    db.(targets := db.targets[key := target],
        intents := Superseded(db.intents, key)[(key, target.desired) := Intent(build, status, NoReason, 1, None)])
  }

  predicate Current(db: Db, key: Key, version: nat, active: Option<BuildId>) {
    key in db.targets && db.targets[key].version == version && db.targets[key].active == active
  }

  function Observe(db: Db, key: Key, head: Option<Sha>, state: SourceState, version: nat, active: Option<BuildId>): Db {
    if !Current(db, key, version, active) then db
    else
      var target := db.targets[key].(head := head, observedAt := Some(db.now), state := state, version := version + 1,
                                     active := if state == Missing then None else active);
      db.(targets := db.targets[key := target],
          intents := if state == Missing then Superseded(db.intents, key) else db.intents)
  }

  /** The observation a settlement relies on is still the target's own. */
  predicate Fresh(target: Target, version: Option<nat>, head: Option<Sha>) {
    version == Some(target.version) && target.head == head && target.state != Unknown && target.state != Missing
  }

  predicate Deployable(build: Build, head: Option<Sha>) {
    build.status == BuildSucceeded && build.output.Some? && build.commit == head
  }

  datatype Verdict = Ignored | Switched | Closed(status: IntentStatus, reason: Reason)

  function SettleVerdict(db: Db, key: Key, gen: nat, status: IntentStatus, reason: Reason,
                         version: Option<nat>, head: Option<Sha>): Verdict {
    if (key, gen) !in db.intents || key !in db.targets || !Open(db.intents[(key, gen)].status) then Ignored
    else
      var target := db.targets[key];
      if target.desired != gen then Closed(Stale, NewerIntent)
      else if (status == Deployed || reason == SourceHeadChanged) && !Fresh(target, version, head) then Ignored
      else if status != Deployed then Closed(status, reason)
      else if db.intents[(key, gen)].build in db.builds && Deployable(db.builds[db.intents[(key, gen)].build], head) then Switched
      else Closed(Stale, TargetOrBuildChanged)
  }

  function Settle(db: Db, key: Key, gen: nat, status: IntentStatus, reason: Reason,
                  version: Option<nat>, head: Option<Sha>): Db {
    match SettleVerdict(db, key, gen, status, reason, version, head)
    case Ignored => db
    case Closed(status', reason') =>
      var intent := db.intents[(key, gen)];
      db.(intents := db.intents[(key, gen) := intent.(status := status', reason := reason', version := intent.version + 1)])
    case Switched =>
      var intent, target := db.intents[(key, gen)], db.targets[key];
      db.(targets := db.targets[key := target.(active := Some(intent.build), version := target.version + 1, state := Matched)],
          intents := db.intents[(key, gen) := intent.(status := Deployed, reason := reason, version := intent.version + 1,
                                                      deployedAt := Some(db.now))])
  }

  /** The store as it runs. */
  class DeploymentStore {
    var now: Time
    var targets: map<Key, Target>
    var intents: map<(Key, nat), Intent>
    var builds: map<BuildId, Build>

    ghost function Tables(): Db
      reads this
    {
      Db(now, targets, intents, builds)
    }

    constructor ()
      ensures Tables() == Db(0, map[], map[], map[])
    {
      now, targets, intents, builds := 0, map[], map[], map[];
    }

    method MarkStale(key: Key)
      modifies this`intents
      ensures intents == Superseded(old(intents), key)
    {
      var left := set id | id in intents && id.0 == key && Open(intents[id].status);
      while left != {}
        invariant intents.Keys == old(intents).Keys
        invariant forall id | id in left :: id in intents && id.0 == key && Open(intents[id].status)
        invariant forall id | id in intents ::
          intents[id] == if id in left then old(intents)[id] else Superseded(old(intents), key)[id]
        decreases left
      {
        var id :| id in left;
        var intent := intents[id];
        intents := intents[id := intent.(status := Stale, reason := NewerIntent, version := intent.version + 1)];
        left := left - {id};
      }
    }

    method AcceptIntent(key: Key, build: BuildId) returns (generation: nat)
      requires build in builds
      modifies this`targets, this`intents
      ensures Tables() == Accept(old(Tables()), key, build)
      ensures key in targets && generation == targets[key].desired
    {
      if key !in targets { targets := targets[key := NEW_TARGET]; }
      var target := targets[key];
      MarkStale(key);
      target := target.(desired := target.desired + 1);
      target := target.(version := target.version + 1);
      targets := targets[key := target];
      generation := target.desired;
      var status := if builds[build].status == BuildSucceeded then Pending else WaitingForBuild;
      intents := intents[(key, generation) := Intent(build, status, NoReason, 1, None)];
    }

    method ObserveHead(key: Key, head: Option<Sha>, state: SourceState, version: nat, active: Option<BuildId>)
      returns (observed: Option<Target>)
      modifies this`targets, this`intents
      ensures Tables() == Observe(old(Tables()), key, head, state, version, active)
      ensures observed == if Current(old(Tables()), key, version, active) then Some(targets[key]) else None
    {
      if key !in targets || targets[key].version != version || targets[key].active != active { return None; }
      var target := targets[key];
      target := target.(head := head, observedAt := Some(now), state := state);
      target := target.(version := target.version + 1);
      if state == Missing { target := target.(active := None); }
      targets := targets[key := target];
      if state == Missing { MarkStale(key); }
      return Some(target);
    }

    method Judge(key: Key, gen: nat, wanted: IntentStatus, why: Reason, version: Option<nat>, head: Option<Sha>)
      returns (verdict: Verdict)
      ensures verdict == SettleVerdict(Tables(), key, gen, wanted, why, version, head)
    {
      if (key, gen) !in intents || key !in targets || !Open(intents[(key, gen)].status) { return Ignored; }
      var status, reason := wanted, why;
      var target, intent := targets[key], intents[(key, gen)];
      if target.desired != gen { status, reason := Stale, NewerIntent; }
      if status == Deployed || reason == SourceHeadChanged {
        if version != Some(target.version) || target.head != head || target.state == Unknown || target.state == Missing {
          return Ignored;
        }
      }
      if status != Deployed { return Closed(status, reason); }
      if intent.build !in builds || builds[intent.build].status != BuildSucceeded || builds[intent.build].output.None?
         || builds[intent.build].commit != head {
        return Closed(Stale, TargetOrBuildChanged);
      }
      return Switched;
    }

    method SettleIntent(key: Key, gen: nat, wanted: IntentStatus, why: Reason, version: Option<nat>, head: Option<Sha>)
      modifies this`targets, this`intents
      ensures Tables() == Settle(old(Tables()), key, gen, wanted, why, version, head)
    {
      var verdict := Judge(key, gen, wanted, why, version, head);
      if verdict == Ignored { return; }
      var intent := intents[(key, gen)];
      intent := intent.(version := intent.version + 1);
      if verdict.Closed? {
        intent := intent.(status := verdict.status, reason := verdict.reason);
      } else {
        var target := targets[key];
        targets := targets[key := target.(active := Some(intent.build), version := target.version + 1, state := Matched)];
        intent := intent.(status := Deployed, reason := why, deployedAt := Some(now));
      }
      intents := intents[(key, gen) := intent];
    }
  }
}
