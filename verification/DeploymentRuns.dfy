/** Order of deployments, and agreement of source state and active build, over whole runs. */
module DeploymentRuns {
  import opened Common
  import opened Deployments
  import opened DeploymentProtocol

  const INITIAL: System := System(Db(0, map[], map[], map[]), map[])

  ghost predicate IsRun(states: seq<System>, steps: seq<Step>) {
    && |states| == |steps| + 1 && states[0] == INITIAL
    && forall i | 0 <= i < |steps| :: Next(states, steps, i)
  }

  predicate Next(states: seq<System>, steps: seq<Step>, i: nat)
    requires |states| == |steps| + 1 && i < |steps|
  {
    Enabled(states[i], steps[i]) && states[i + 1] == Apply(states[i], steps[i])
  }

  lemma {:induction false} RunInv(states: seq<System>, steps: seq<Step>, i: nat)
    requires IsRun(states, steps) && i < |states|
    ensures Inv(states[i])
  {
    if i > 0 {
      RunInv(states, steps, i - 1);
      assert Next(states, steps, i - 1);
      StepKeeps(states[i - 1], steps[i - 1]);
    }
  }

  lemma StepEvolves(states: seq<System>, steps: seq<Step>, i: nat)
    requires IsRun(states, steps) && i < |steps|
    ensures Evolves(states[i].db, states[i + 1].db)
  {
    RunInv(states, steps, i);
    assert Next(states, steps, i);
    StepKeeps(states[i], steps[i]);
  }

  lemma {:induction false} RunEvolves(states: seq<System>, steps: seq<Step>, i: nat, k: nat)
    requires IsRun(states, steps) && i <= k < |states|
    ensures Evolves(states[i].db, states[k].db)
    decreases k
  {
    if i < k {
      RunEvolves(states, steps, i, k - 1);
      StepEvolves(states, steps, k - 1);
      EvolvesTwice(states[i].db, states[k - 1].db, states[k].db);
    }
  }

  /** The generations of a target are exactly 1..desired. */
  lemma GenerationsExact(states: seq<System>, steps: seq<Step>, i: nat, key: Key, g: nat)
    requires IsRun(states, steps) && i < |states| && key in states[i].db.targets
    ensures (key, g) in states[i].db.intents <==> 1 <= g <= states[i].db.targets[key].desired
  {
    RunInv(states, steps, i);
    if (key, g) in states[i].db.intents { assert IntentOk(states[i].db, (key, g)); }
  }

  /** At most one intent of a target is open, and it is the newest. */
  lemma OnlyNewestOpen(states: seq<System>, steps: seq<Step>, i: nat, key: Key, g: nat, h: nat)
    requires IsRun(states, steps) && i < |states|
    requires (key, g) in states[i].db.intents && Open(states[i].db.intents[(key, g)].status)
    requires (key, h) in states[i].db.intents
    ensures h <= g && (Open(states[i].db.intents[(key, h)].status) ==> h == g)
  {
    RunInv(states, steps, i);
    assert IntentOk(states[i].db, (key, g)) && IntentOk(states[i].db, (key, h));
  }

  /** A closed intent never changes again. */
  lemma ClosedIntentsFinal(states: seq<System>, steps: seq<Step>, i: nat, k: nat, id: (Key, nat))
    requires IsRun(states, steps) && i <= k < |states|
    requires id in states[i].db.intents && !Open(states[i].db.intents[id].status)
    ensures id in states[k].db.intents && states[k].db.intents[id] == states[i].db.intents[id]
  {
    RunEvolves(states, steps, i, k);
  }

  /** Whatever is deployed later has a higher generation than everything deployed before, and no earlier time. */
  lemma DeploymentsAscend(states: seq<System>, steps: seq<Step>, i: nat, k: nat, key: Key, g: nat, h: nat)
    requires IsRun(states, steps) && i <= k < |states|
    requires DeployedAt(states[i].db, key, g) && !DeployedAt(states[i].db, key, h) && DeployedAt(states[k].db, key, h)
    ensures g < h && (key, g) in states[k].db.intents && (key, h) in states[k].db.intents
    ensures states[k].db.intents[(key, g)].deployedAt.Some? && states[k].db.intents[(key, h)].deployedAt.Some?
    ensures states[k].db.intents[(key, g)].deployedAt.value <= states[k].db.intents[(key, h)].deployedAt.value
  {
    RunInv(states, steps, i);
    RunInv(states, steps, k);
    RunEvolves(states, steps, i, k);
    var db, db' := states[i].db, states[k].db;
    assert IntentOk(db, (key, g)) && IntentOk(db', (key, g)) && IntentOk(db', (key, h));
    assert DeployedAt(db', key, g);
    assert (key, h) in db.intents ==> IntentOk(db, (key, h));
    assert h <= db.targets[key].desired ==> (key, h) in db.intents;
  }

  /** The active build is none, or the build of the deployed intent with the highest generation. */
  lemma ActiveIsNewestDeployed(states: seq<System>, steps: seq<Step>, i: nat, key: Key)
    requires IsRun(states, steps) && i < |states| && key in states[i].db.targets
    requires states[i].db.targets[key].active.Some?
    ensures exists g: nat :: (LastDeployed(states[i].db, key, g)
                              && states[i].db.targets[key].active == Some(states[i].db.intents[(key, g)].build))
  {
    RunInv(states, steps, i);
    assert ActiveOk(states[i].db, key);
  }

  /** The source state a target shows is true of its active build and its observed head. */
  lemma SourceStateAgrees(states: seq<System>, steps: seq<Step>, i: nat, key: Key)
    requires IsRun(states, steps) && i < |states| && key in states[i].db.targets
    ensures var db, target := states[i].db, states[i].db.targets[key];
      && (target.state in {Matched, Ahead, Diverged} ==>
            && target.active.Some? && target.head.Some? && target.active.value in db.builds
            && var build := db.builds[target.active.value];
            && build.status == BuildSucceeded && build.output.Some?
            && (build.commit == target.head <==> target.state == Matched))
      && (target.state in {Undeployed, Missing} ==> target.active.None?)
  {
    RunInv(states, steps, i);
    var db := states[i].db;
    assert TargetOk(db, key);
    if db.targets[key].active.Some? { assert BuildOk(db.builds[db.targets[key].active.value]); }
  }

  /** A version names one row of a target for ever. */
  lemma VersionNamesRow(states: seq<System>, steps: seq<Step>, i: nat, k: nat, key: Key)
    requires IsRun(states, steps) && i <= k < |states| && key in states[i].db.targets
    ensures key in states[k].db.targets
    ensures states[k].db.targets[key] == states[i].db.targets[key] <==>
            states[k].db.targets[key].version == states[i].db.targets[key].version
  {
    RunEvolves(states, steps, i, k);
  }

  /** Once a target has changed, an observation or a settlement that rests on the row seen before has no effect:
      it neither overwrites, nor deploys, nor closes any intent for a changed head. */
  lemma StaleTokenPowerless(states: seq<System>, steps: seq<Step>, i: nat, k: nat, key: Key, gen: nat,
                            head: Option<Sha>, state: SourceState, status: IntentStatus, reason: Reason)
    requires IsRun(states, steps) && i <= k < |states|
    requires key in states[i].db.targets && key in states[k].db.targets
    requires states[k].db.targets[key] != states[i].db.targets[key]
    ensures var seen := states[i].db.targets[key];
      Observe(states[k].db, key, head, state, seen.version, seen.active) == states[k].db
    ensures status == Deployed || reason == SourceHeadChanged ==>
      Settle(states[k].db, key, gen, status, reason, Some(states[i].db.targets[key].version), head) == states[k].db
  {
    VersionNamesRow(states, steps, i, k, key);
    RunInv(states, steps, k);
    if (key, gen) in states[k].db.intents { assert IntentOk(states[k].db, (key, gen)); }
  }

  /** What a decision that changes anything was based on, and what it did. */
  predicate TrueDecision(db: Db, db': Db, key: Key, gen: nat, target: Target) {
    && key in db.targets && db.targets[key] == target && target.desired == gen && target.head.Some?
    && (key, gen) in db'.intents && key in db'.targets
    && var intent := db'.intents[(key, gen)];
    && intent.build in db.builds && db.builds[intent.build].commit.Some?
    && (db.builds[intent.build].commit == target.head ==>
          intent.status == Deployed && db'.targets[key].active == Some(intent.build) && db'.targets[key].state == Matched)
    && (db.builds[intent.build].commit != target.head ==>
          intent.status == Stale && intent.reason == SourceHeadChanged && db'.targets == db.targets)
  }

  lemma DecisionIsTrue(db: Db, key: Key, gen: nat, build: Build, target: Target)
    requires SessionOk(db, Deciding(key, gen, build, target))
    requires (key, gen) in db.intents ==> IntentOk(db, (key, gen))
    ensures var db' := Decision(db, key, gen, build, target); db' != db ==> TrueDecision(db, db', key, gen, target)
  {}

  /** A reconciler deploys an intent only when the observed head is its build's commit, and closes it for a changed
      head only when an actually observed head differs; either way the target row it read is still the current one. */
  lemma DecisionsAreTrue(states: seq<System>, steps: seq<Step>, i: nat, o: nat)
    requires IsRun(states, steps) && i < |steps| && steps[i] == Decide(o)
    ensures o in states[i].sessions && states[i].sessions[o].Deciding?
    ensures var c := states[i].sessions[o];
      states[i + 1].db != states[i].db ==> TrueDecision(states[i].db, states[i + 1].db, c.key, c.gen, c.target)
  {
    RunInv(states, steps, i);
    assert Next(states, steps, i);
    var c, db := states[i].sessions[o], states[i].db;
    assert SessionOk(db, c);
    DecisionIsTrue(db, c.key, c.gen, c.build, c.target);
  }

  /** The rejection of an outdated generation inside a settlement is never needed: acceptance has closed it before. */
  lemma NewerIntentAlreadyClosed(states: seq<System>, steps: seq<Step>, i: nat, key: Key, gen: nat, status: IntentStatus,
                                 reason: Reason, version: Option<nat>, head: Option<Sha>)
    requires IsRun(states, steps) && i < |states| && key in states[i].db.targets && states[i].db.targets[key].desired != gen
    ensures Settle(states[i].db, key, gen, status, reason, version, head) == states[i].db
  {
    RunInv(states, steps, i);
    if (key, gen) in states[i].db.intents { assert IntentOk(states[i].db, (key, gen)); }
  }
}
