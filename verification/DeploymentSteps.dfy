/** What observations, acceptances and settlements of a run do to the rows, said of the rows and the answers alone. */
module DeploymentSteps {
  import opened Common
  import opened Deployments
  import opened DeploymentProtocol
  import opened DeploymentRuns

  lemma AtStep(states: seq<System>, steps: seq<Step>, i: nat)
    requires IsRun(states, steps) && i < |steps|
    ensures Inv(states[i]) && Enabled(states[i], steps[i]) && states[i + 1] == Apply(states[i], steps[i])
  {
    RunInv(states, steps, i);
    assert Next(states, steps, i);
  }

  /** The commit a build row shows. */
  function CommitOf(db: Db, build: Option<BuildId>): Option<Sha> {
    if build.Some? && build.value in db.builds then db.builds[build.value].commit else None
  }

  // ---- Ancestry ----

  /** The answer about ancestry follows the history `descends(commit, head)`. */
  predicate TrueAnswer(s: System, step: Step, descends: (Sha, Sha) -> bool) {
    step.HearAnswer? && step.answer.HeadIs? && step.o in s.sessions && s.sessions[step.o].Looking? ==>
      var commit := CommitOf(s.db, s.sessions[step.o].snapshot.active);
      commit.Some? ==>
        && (step.ancestry == Descends ==> descends(commit.value, step.answer.sha))
        && (step.ancestry == DoesNot ==> !descends(commit.value, step.answer.sha))
  }

  ghost predicate TrueAnswers(states: seq<System>, steps: seq<Step>, descends: (Sha, Sha) -> bool) {
    |steps| < |states| && forall i | 0 <= i < |steps| :: TrueAnswer(states[i], steps[i], descends)
  }

  /** Ahead means that the head differs from the active commit and descends from it, diverged that it does not. */
  predicate Ancestral(db: Db, active: Option<BuildId>, head: Option<Sha>, state: SourceState, descends: (Sha, Sha) -> bool) {
    var commit := CommitOf(db, active);
    state in {Ahead, Diverged} ==>
      commit.Some? && head.Some? && commit != head && (descends(commit.value, head.value) <==> state == Ahead)
  }

  predicate TargetsAncestral(db: Db, descends: (Sha, Sha) -> bool) {
    forall key | key in db.targets :: Ancestral(db, db.targets[key].active, db.targets[key].head, db.targets[key].state, descends)
  }

  predicate SessionAncestral(db: Db, c: Session, descends: (Sha, Sha) -> bool) {
    c.Answered? ==> Ancestral(db, c.snapshot.active, c.head, c.state, descends)
  }

  predicate AllAncestral(s: System, descends: (Sha, Sha) -> bool) {
    TargetsAncestral(s.db, descends) && forall o | o in s.sessions :: SessionAncestral(s.db, s.sessions[o], descends)
  }

  lemma StaysAncestral(db: Db, db': Db, active: Option<BuildId>, head: Option<Sha>, state: SourceState,
                       descends: (Sha, Sha) -> bool)
    requires Evolves(db, db') && Ancestral(db, active, head, state, descends)
    ensures Ancestral(db', active, head, state, descends)
  {}

  lemma SessionsStay(s: System, s': System, changed: set<nat>, descends: (Sha, Sha) -> bool)
    requires Evolves(s.db, s'.db) && AllAncestral(s, descends)
    requires forall o | o in s'.sessions && o !in changed :: o in s.sessions && s'.sessions[o] == s.sessions[o]
    requires forall o | o in s'.sessions && o in changed :: SessionAncestral(s'.db, s'.sessions[o], descends)
    ensures forall o | o in s'.sessions :: SessionAncestral(s'.db, s'.sessions[o], descends)
  {
    forall o | o in s'.sessions ensures SessionAncestral(s'.db, s'.sessions[o], descends) {
      if o !in changed {
        assert SessionAncestral(s.db, s.sessions[o], descends);
        if s.sessions[o].Answered? {
          var c := s.sessions[o];
          StaysAncestral(s.db, s'.db, c.snapshot.active, c.head, c.state, descends);
        }
      }
    }
  }

  /** Each target keeps active build, head and state, or says nothing about ancestry. */
  predicate SameShown(db: Db, db': Db) {
    forall key | key in db'.targets && db'.targets[key].state in {Ahead, Diverged} ::
      && key in db.targets && db'.targets[key].active == db.targets[key].active
      && db'.targets[key].head == db.targets[key].head && db'.targets[key].state == db.targets[key].state
  }

  lemma TargetsStay(db: Db, db': Db, descends: (Sha, Sha) -> bool)
    requires Evolves(db, db') && TargetsAncestral(db, descends)
    requires SameShown(db, db')
    ensures TargetsAncestral(db', descends)
  {
    forall key | key in db'.targets
      ensures Ancestral(db', db'.targets[key].active, db'.targets[key].head, db'.targets[key].state, descends)
    {
      var t := db'.targets[key];
      if t.state in {Ahead, Diverged} { StaysAncestral(db, db', t.active, t.head, t.state, descends); }
    }
  }

  lemma HeardAncestral(s: System, step: Step, descends: (Sha, Sha) -> bool)
    requires Inv(s) && Enabled(s, step) && step.HearAnswer? && TrueAnswer(s, step, descends)
    ensures SessionAncestral(Apply(s, step).db, Apply(s, step).sessions[step.o], descends)
  {
    var c := s.sessions[step.o];
    assert SessionOk(s.db, c);
    if c.snapshot.active.Some? { assert BuildOk(s.db.builds[c.snapshot.active.value]); }
  }

  lemma SavedAncestral(s: System, o: nat, descends: (Sha, Sha) -> bool)
    requires Inv(s) && Enabled(s, SaveObservation(o)) && AllAncestral(s, descends)
    requires Evolves(s.db, Apply(s, SaveObservation(o)).db)
    ensures TargetsAncestral(Apply(s, SaveObservation(o)).db, descends)
  {
    var c, db' := s.sessions[o], Apply(s, SaveObservation(o)).db;
    assert SessionAncestral(s.db, c, descends);
    forall key | key in db'.targets
      ensures Ancestral(db', db'.targets[key].active, db'.targets[key].head, db'.targets[key].state, descends)
    {
      assert key in s.db.targets;
      var t := s.db.targets[key];
      assert Ancestral(s.db, t.active, t.head, t.state, descends);
    }
  }

  lemma AcceptShows(db: Db, key: Key, build: BuildId)
    requires build in db.builds
    ensures SameShown(db, Accept(db, key, build))
  {}

  lemma SettleShows(db: Db, key: Key, gen: nat, status: IntentStatus, reason: Reason, version: Option<nat>, head: Option<Sha>)
    ensures SameShown(db, Settle(db, key, gen, status, reason, version, head))
  {}

  lemma DecisionShows(db: Db, c: Session)
    requires c.Deciding?
    ensures SameShown(db, Decision(db, c.key, c.gen, c.build, c.target))
  {
    SettleShows(db, c.key, c.gen, Stale, SourceHeadChanged, Some(c.target.version), c.target.head);
    SettleShows(db, c.key, c.gen, Deployed, NoReason, Some(c.target.version), c.target.head);
  }

  lemma OtherTargets(s: System, step: Step, descends: (Sha, Sha) -> bool)
    requires Inv(s) && Enabled(s, step) && !step.SaveObservation? && TargetsAncestral(s.db, descends)
    requires Evolves(s.db, Apply(s, step).db)
    ensures TargetsAncestral(Apply(s, step).db, descends)
  {
    match step {
      case AcceptBuild(key, b) => AcceptShows(s.db, key, b);
      case CloseFailed(key, gen, status, code) => SettleShows(s.db, key, gen, status, Coded(code), None, None);
      case Decide(o) => DecisionShows(s.db, s.sessions[o]);
      case _ =>
    }
    TargetsStay(s.db, Apply(s, step).db, descends);
  }

  lemma StepAncestral(s: System, step: Step, descends: (Sha, Sha) -> bool)
    requires Inv(s) && Enabled(s, step) && TrueAnswer(s, step, descends) && AllAncestral(s, descends)
    ensures AllAncestral(Apply(s, step), descends)
  {
    StepKeeps(s, step);
    var s' := Apply(s, step);
    if step.SaveObservation? { SavedAncestral(s, step.o, descends); } else { OtherTargets(s, step, descends); }
    if step.HearAnswer? { HeardAncestral(s, step, descends); }
    SessionsStay(s, s', Touched(step), descends);
  }

  function Touched(step: Step): set<nat> {
    match step
    case BeginObserve(o, _) => {o}
    case BeginReconcile(o, _, _) => {o}
    case HearAnswer(o, _, _) => {o}
    case SaveObservation(o) => {o}
    case Reread(o) => {o}
    case Decide(o) => {o}
    case _ => {}
  }

  lemma {:induction false} RunAncestral(states: seq<System>, steps: seq<Step>, descends: (Sha, Sha) -> bool, i: nat)
    requires IsRun(states, steps) && TrueAnswers(states, steps, descends) && i < |states|
    ensures AllAncestral(states[i], descends)
  {
    if i > 0 {
      RunAncestral(states, steps, descends, i - 1);
      AtStep(states, steps, i - 1);
      StepAncestral(states[i - 1], steps[i - 1], descends);
    }
  }

  /** When the answers about ancestry are true to one history, so is every row: a target shown ahead has a head that
      descends from its active commit and differs from it, and one shown diverged has a head that does not descend. */
  lemma AheadIsDescendant(states: seq<System>, steps: seq<Step>, descends: (Sha, Sha) -> bool, i: nat, key: Key)
    requires IsRun(states, steps) && TrueAnswers(states, steps, descends) && i < |states| && key in states[i].db.targets
    ensures var target := states[i].db.targets[key]; var commit := CommitOf(states[i].db, target.active);
      target.state in {Ahead, Diverged} ==>
        commit.Some? && target.head.Some? && commit != target.head
        && (descends(commit.value, target.head.value) <==> target.state == Ahead)
  {
    RunAncestral(states, steps, descends, i);
  }

  // ---- Observations ----

  /** What the row of a target shows after an answer, given the commit of its active build. */
  predicate Shows(target: Target, active: Option<BuildId>, commit: Option<Sha>, answer: HeadAnswer, ancestry: AncestryAnswer) {
    match answer
    case Unreachable => target.state == Unknown && target.head.None? && target.active == active
    case BranchAbsent => target.state == Missing && target.head.None? && target.active.None?
    case HeadIs(sha) =>
      && target.active == active
      && (target.state == Undeployed <==> active.None?)
      && (target.state == Matched <==> active.Some? && commit == Some(sha))
      && (target.state == Ahead <==> active.Some? && commit != Some(sha) && ancestry == Descends)
      && (target.state == Diverged <==> active.Some? && commit != Some(sha) && ancestry == DoesNot)
      && (target.state == Unknown <==> active.Some? && commit != Some(sha) && ancestry in {NoReader, AncestryFailed})
      && (target.head.None? <==> active.Some? && commit != Some(sha) && ancestry == AncestryFailed)
      && (target.head.Some? ==> target.head.value == sha)
  }

  /** The open intents of the target have given way to a newer fact; nothing else of the intents differs. */
  predicate GaveWay(intents: map<(Key, nat), Intent>, intents': map<(Key, nat), Intent>, key: Key) {
    && intents'.Keys == intents.Keys
    && forall id | id in intents ::
         if id.0 == key && intents[id].status in {WaitingForBuild, Pending, Checking}
         then intents'[id] == Intent(intents[id].build, Stale, NewerIntent, intents[id].version + 1, intents[id].deployedAt)
         else intents'[id] == intents[id]
  }

  lemma SupersededGivesWay(intents: map<(Key, nat), Intent>, key: Key)
    ensures GaveWay(intents, Superseded(intents, key), key)
  {}

  /** A call that heard its answer at step i, and saves it at step k. */
  predicate HeardAndSaves(states: seq<System>, steps: seq<Step>, i: nat, k: nat, o: nat)
    requires |states| == |steps| + 1
  {
    && i < k < |steps| && steps[i].HearAnswer? && steps[i].o == o && steps[k] == SaveObservation(o)
    && o in states[i].sessions && states[i].sessions[o].Looking?
    && o in states[i + 1].sessions && o in states[k].sessions && states[k].sessions[o] == states[i + 1].sessions[o]
  }

  lemma SavedFromAnswer(states: seq<System>, steps: seq<Step>, i: nat, k: nat, o: nat)
    requires IsRun(states, steps) && HeardAndSaves(states, steps, i, k, o)
    ensures var c := states[i].sessions[o]; var active := c.snapshot.active;
      && states[k].sessions[o].Answered? && states[k].sessions[o].key == c.key && states[k].sessions[o].snapshot == c.snapshot
      && CommitOf(states[k].db, active) == CommitOf(states[i].db, active)
      && (active.Some? <==> ActiveBuild(states[i].db, c.snapshot).Some?)
      && (active.Some? ==> CommitOf(states[k].db, active) == ActiveBuild(states[i].db, c.snapshot).value.commit)
      && (states[k].sessions[o].head, states[k].sessions[o].state)
           == Classify(ActiveBuild(states[i].db, c.snapshot), steps[i].answer, steps[i].ancestry)
  {
    AtStep(states, steps, i);
    RunEvolves(states, steps, i, k);
    var c := states[i].sessions[o];
    assert SessionOk(states[i].db, c);
    if c.snapshot.active.Some? { assert BuildOk(states[i].db.builds[c.snapshot.active.value]); }
  }

  /** An observation that is still current becomes the row: the state says exactly how the head heard compares with the
      commit of the active build. One that is not current changes nothing. */
  lemma ObservationExact(states: seq<System>, steps: seq<Step>, i: nat, k: nat, o: nat)
    requires IsRun(states, steps) && HeardAndSaves(states, steps, i, k, o)
    ensures var key, seen, db, db' := states[i].sessions[o].key, states[i].sessions[o].snapshot, states[k].db, states[k + 1].db;
      && key in db.targets
      && (db.targets[key] != seen ==> db' == db)
      && (db.targets[key] == seen ==>
            && key in db'.targets && var target := db'.targets[key];
            && db' == db.(targets := db.targets[key := target], intents := db'.intents)
            && target.version == seen.version + 1 && target.desired == seen.desired && target.observedAt == Some(db.now)
            && Shows(target, seen.active, CommitOf(db, seen.active), steps[i].answer, steps[i].ancestry)
            && (if steps[i].answer == BranchAbsent then GaveWay(db.intents, db'.intents, key) else db'.intents == db.intents))
  {
    SavedFromAnswer(states, steps, i, k, o);
    AtStep(states, steps, k);
    var c := states[k].sessions[o];
    assert SessionOk(states[k].db, c);
    SavedRows(states[k].db, c);
    ShownByAnswer(ActiveBuild(states[i].db, c.snapshot), c.snapshot, steps[i].answer, steps[i].ancestry);
  }

  lemma SavedRows(db: Db, c: Session)
    requires c.Answered? && Seen(db, c.key, c.snapshot)
    ensures var db' := Observe(db, c.key, c.head, c.state, c.snapshot.version, c.snapshot.active); var seen := c.snapshot;
      && (db.targets[c.key] != seen ==> db' == db)
      && (db.targets[c.key] == seen ==>
            && db'.targets == db.targets[c.key := seen.(version := seen.version + 1, head := c.head, state := c.state,
                 observedAt := Some(db.now), active := if c.state == Missing then None else seen.active)]
            && db' == db.(targets := db'.targets, intents := db'.intents)
            && (if c.state == Missing then GaveWay(db.intents, db'.intents, c.key) else db'.intents == db.intents))
  {
    SupersededGivesWay(db.intents, c.key);
  }

  lemma ShownByAnswer(active: Option<Build>, seen: Target, answer: HeadAnswer, ancestry: AncestryAnswer)
    requires active.Some? <==> seen.active.Some?
    ensures var heard := Classify(active, answer, ancestry);
      && (heard.1 == Missing <==> answer == BranchAbsent)
      && forall target: Target | target.head == heard.0 && target.state == heard.1
                   && target.active == (if heard.1 == Missing then None else seen.active) ::
           Shows(target, seen.active, if active.Some? then active.value.commit else None, answer, ancestry)
  {}

  /** With a true and available answer about ancestry, a saved observation shows the target ahead exactly when the head
      is a descendant of the active commit other than itself. */
  lemma AheadExactly(states: seq<System>, steps: seq<Step>, descends: (Sha, Sha) -> bool, i: nat, k: nat, o: nat)
    requires IsRun(states, steps) && TrueAnswers(states, steps, descends) && HeardAndSaves(states, steps, i, k, o)
    requires states[i].sessions[o].key in states[k].db.targets
    requires states[k].db.targets[states[i].sessions[o].key] == states[i].sessions[o].snapshot
    requires steps[i].answer.HeadIs? && steps[i].ancestry in {Descends, DoesNot}
    ensures var key, seen := states[i].sessions[o].key, states[i].sessions[o].snapshot;
      && key in states[k + 1].db.targets
      && var target, commit := states[k + 1].db.targets[key], CommitOf(states[k].db, seen.active);
      && target.head == Some(steps[i].answer.sha)
      && (target.state == Ahead <==>
            commit.Some? && commit.value != steps[i].answer.sha && descends(commit.value, steps[i].answer.sha))
      && (target.state == Diverged <==>
            commit.Some? && commit.value != steps[i].answer.sha && !descends(commit.value, steps[i].answer.sha))
  {
    ObservationExact(states, steps, i, k, o);
    SavedFromAnswer(states, steps, i, k, o);
    AtStep(states, steps, i);
    var c := states[i].sessions[o];
    assert SessionOk(states[i].db, c);
    if c.snapshot.active.Some? { assert BuildOk(states[i].db.builds[c.snapshot.active.value]); }
    assert TrueAnswer(states[i], steps[i], descends);
  }

  // ---- Intents ----

  /** An accepted build becomes the newest intent of its target, to be deployed at once if it has succeeded; the one
      before it gives way if it is open, and what is deployed and observed stays. */
  lemma AcceptExact(states: seq<System>, steps: seq<Step>, i: nat, key: Key, build: BuildId)
    requires IsRun(states, steps) && i < |steps| && steps[i] == AcceptBuild(key, build)
    ensures var db, db' := states[i].db, states[i + 1].db;
      && build in db.builds && key in db'.targets
      && var target := db'.targets[key]; var before := if key in db.targets then db.targets[key] else NEW_TARGET;
      && db' == db.(targets := db.targets[key := target], intents := db'.intents)
      && target == before.(desired := before.desired + 1, version := before.version + 1)
      && (key, target.desired) !in db.intents && (key, target.desired) in db'.intents
      && db'.intents[(key, target.desired)]
           == Intent(build, if db.builds[build].status == BuildSucceeded then Pending else WaitingForBuild, NoReason, 1, None)
      && GaveWay(db.intents, db'.intents - {(key, target.desired)}, key)
      && (forall id | id in db.intents && id != (key, before.desired) :: db'.intents[id] == db.intents[id])
  {
    AtStep(states, steps, i);
    var db := states[i].db;
    IntentBounds(db);
    SupersededGivesWay(db.intents, key);
    forall id | id in db.intents ensures IntentOk(db, id) {}
  }

  /** A reconciler acts exactly when its intent is open and the row it read is still the target's and says something: it
      deploys its build if the head is the build's commit, and otherwise closes the intent for a changed head. */
  lemma DecisionExact(states: seq<System>, steps: seq<Step>, i: nat, o: nat)
    requires IsRun(states, steps) && i < |steps| && steps[i] == Decide(o)
    ensures o in states[i].sessions && states[i].sessions[o].Deciding?
    ensures var c, db, db' := states[i].sessions[o], states[i].db, states[i + 1].db; var id := (c.key, c.gen);
      && c.key in db.targets && id in db.intents && db.intents[id].build in db.builds
      && var intent, target := db.intents[id], db.targets[c.key];
      && db' == (
        if intent.status !in {WaitingForBuild, Pending, Checking} || target != c.target || target.state in {Unknown, Missing}
        then db
        else if target.head == db.builds[intent.build].commit
        then db.(targets := db.targets[c.key := target.(active := Some(intent.build), version := target.version + 1,
                                                        state := Matched)],
                 intents := db.intents[id := Intent(intent.build, Deployed, NoReason, intent.version + 1, Some(db.now))])
        else db.(intents := db.intents[id := Intent(intent.build, Stale, SourceHeadChanged, intent.version + 1,
                                                    intent.deployedAt)]))
  {
    AtStep(states, steps, i);
    var c, db := states[i].sessions[o], states[i].db;
    assert SessionOk(db, c) && IntentOk(db, (c.key, c.gen));
  }

  /** A failed or cancelled build closes its intent if that is still open, and changes no target. */
  lemma CloseExact(states: seq<System>, steps: seq<Step>, i: nat, key: Key, gen: nat, status: IntentStatus, code: string)
    requires IsRun(states, steps) && i < |steps| && steps[i] == CloseFailed(key, gen, status, code)
    ensures var db, id := states[i].db, (key, gen);
      states[i + 1].db ==
        if id in db.intents && db.intents[id].status in {WaitingForBuild, Pending, Checking}
        then db.(intents := db.intents[id := Intent(db.intents[id].build, status, Coded(code), db.intents[id].version + 1,
                                                    db.intents[id].deployedAt)])
        else db
  {
    AtStep(states, steps, i);
    if (key, gen) in states[i].db.intents { assert IntentOk(states[i].db, (key, gen)); }
  }
}
