/** Observers and reconcilers with slow Git reads, acting on the deployment store in any interleaving. */
module DeploymentProtocol {
  import opened Common
  import opened Deployments

  // ---- What the store keeps ----

  /** A source state agrees with the active build and the observed head. */
  predicate Agrees(db: Db, active: Option<BuildId>, head: Option<Sha>, state: SourceState) {
    match state
    case Matched => head.Some? && active.Some? && active.value in db.builds && db.builds[active.value].commit == head
    case Ahead => head.Some? && active.Some? && active.value in db.builds && db.builds[active.value].commit != head
    case Diverged => head.Some? && active.Some? && active.value in db.builds && db.builds[active.value].commit != head
    case Undeployed => active.None?
    case Missing => head.None?
    case Unknown => true
  }

  predicate BuildOk(build: Build) {
    build.status == BuildSucceeded ==> build.output.Some? && build.commit.Some?
  }

  predicate TargetOk(db: Db, key: Key)
    requires key in db.targets
  {
    var target := db.targets[key];
    && Agrees(db, target.active, target.head, target.state)
    && (target.state == Missing ==> target.active.None?)
    && (target.active.Some? ==> target.active.value in db.builds && db.builds[target.active.value].status == BuildSucceeded)
  }

  predicate IntentOk(db: Db, id: (Key, nat))
    requires id in db.intents
  {
    var intent := db.intents[id];
    && id.0 in db.targets && 1 <= id.1 <= db.targets[id.0].desired
    && intent.build in db.builds
    && (Open(intent.status) ==> id.1 == db.targets[id.0].desired)
    && (intent.deployedAt.Some? <==> intent.status == Deployed)
    && (intent.status == Deployed ==> intent.deployedAt.value <= db.now)
  }

  predicate NoGap(db: Db) {
    forall key, g: nat | key in db.targets && 1 <= g <= db.targets[key].desired :: (key, g) in db.intents
  }

  predicate DeployedAt(db: Db, key: Key, g: nat) {
    (key, g) in db.intents && db.intents[(key, g)].status == Deployed
  }

  /** Deployments of one target follow the order in which their intents were accepted. */
  ghost predicate InOrder(db: Db) {
    forall key, g: nat, h: nat | DeployedAt(db, key, g) && DeployedAt(db, key, h) && g < h
      && db.intents[(key, g)].deployedAt.Some? && db.intents[(key, h)].deployedAt.Some? ::
      db.intents[(key, g)].deployedAt.value <= db.intents[(key, h)].deployedAt.value
  }

  ghost predicate LastDeployed(db: Db, key: Key, g: nat) {
    DeployedAt(db, key, g) && forall h: nat | DeployedAt(db, key, h) :: h <= g
  }

  /** The active build is that of the newest deployed intent. */
  ghost predicate ActiveOk(db: Db, key: Key)
    requires key in db.targets
  {
    db.targets[key].active.Some? ==>
      exists g: nat :: LastDeployed(db, key, g) && db.targets[key].active == Some(db.intents[(key, g)].build)
  }

  predicate RowsOk(db: Db) {
    && (forall b | b in db.builds :: BuildOk(db.builds[b]))
    && (forall key | key in db.targets :: TargetOk(db, key))
    && (forall id | id in db.intents :: IntentOk(db, id))
  }

  ghost predicate StoreOk(db: Db) {
    RowsOk(db) && NoGap(db) && InOrder(db) && (forall key | key in db.targets :: ActiveOk(db, key))
  }

  // ---- What never changes once it is there ----

  /** A newer row of a target; with the same version it is the same row, and a change leaves either an observed head,
      a failed or empty observation, or a newer intent behind. */
  predicate Later(t: Target, t': Target) {
    && t.version <= t'.version && t.desired <= t'.desired
    && (t.version == t'.version ==> t == t')
    && (t.version < t'.version ==> t'.head.Some? || t'.state in {Unknown, Missing} || t.desired < t'.desired)
  }

  predicate BuildLater(b: Build, b': Build) {
    && (b.status == BuildSucceeded ==> b' == b)
    && (b.status in {BuildFailed, BuildCancelled} ==> b'.status == b.status)
    && (b.commit.Some? ==> b'.commit == b.commit)
  }

  predicate Evolves(db: Db, db': Db) {
    && db.now <= db'.now
    && (forall b | b in db.builds :: b in db'.builds && BuildLater(db.builds[b], db'.builds[b]))
    && (forall key | key in db.targets :: key in db'.targets && Later(db.targets[key], db'.targets[key]))
    && (forall id | id in db.intents :: id in db'.intents && db'.intents[id].build == db.intents[id].build
          && (!Open(db.intents[id].status) ==> db'.intents[id] == db.intents[id]))
  }

  lemma EvolvesTwice(db: Db, mid: Db, db': Db)
    requires Evolves(db, mid) && Evolves(mid, db')
    ensures Evolves(db, db')
  {}

  // ---- The transactions keep it ----

  lemma AcceptTargets(db: Db, key: Key, build: BuildId)
    requires RowsOk(db) && NoGap(db) && build in db.builds
    ensures var db' := Accept(db, key, build);
      && (forall k | k in db'.targets :: TargetOk(db', k)) && NoGap(db') && Evolves(db, db')
  {
    var db' := Accept(db, key, build);
    forall k | k in db'.targets ensures TargetOk(db', k) {
      if k in db.targets { assert TargetOk(db, k); }
    }
    IntentBounds(db);
  }

  lemma AcceptIntents(db: Db, key: Key, build: BuildId)
    requires forall id | id in db.intents :: IntentOk(db, id)
    requires build in db.builds
    ensures var db' := Accept(db, key, build); forall id | id in db'.intents :: IntentOk(db', id)
  {
    var db' := Accept(db, key, build);
    forall id | id in db'.intents ensures IntentOk(db', id) {
      if id in db.intents { assert IntentOk(db, id); }
    }
  }

  lemma AcceptOrder(db: Db, key: Key, build: BuildId)
    requires StoreOk(db) && build in db.builds
    ensures var db' := Accept(db, key, build); InOrder(db') && forall k | k in db'.targets :: ActiveOk(db', k)
  {
    var db' := Accept(db, key, build);
    IntentBounds(db);
    SameDeployments(db, db', {(key, db'.targets[key].desired)});
  }

  lemma IntentBounds(db: Db)
    requires RowsOk(db)
    ensures forall id | id in db.intents :: id.0 in db.targets && id.1 <= db.targets[id.0].desired
  {
    forall id | id in db.intents ensures id.0 in db.targets && id.1 <= db.targets[id.0].desired { assert IntentOk(db, id); }
  }

  predicate SameDeployment(i: Intent, i': Intent) {
    i'.build == i.build && i'.deployedAt == i.deployedAt && (i'.status == Deployed <==> i.status == Deployed)
  }

  /** Nothing was deployed or undeployed; active builds are kept or dropped. */
  lemma SameDeployments(db: Db, db': Db, added: set<(Key, nat)>)
    requires InOrder(db) && forall key | key in db.targets :: ActiveOk(db, key)
    requires forall id | id in db.intents && id !in added :: id in db'.intents && SameDeployment(db.intents[id], db'.intents[id])
    requires forall id | id in db'.intents && id !in added :: id in db.intents
    requires forall id | id in added :: (id in db'.intents ==> db'.intents[id].status != Deployed) &&
                                        (id in db.intents ==> db.intents[id].status != Deployed)
    requires forall key | key in db'.targets && db'.targets[key].active.Some? ::
      key in db.targets && db'.targets[key].active == db.targets[key].active
    ensures InOrder(db') && forall key | key in db'.targets :: ActiveOk(db', key)
  {
    forall key: Key, g: nat ensures DeployedAt(db', key, g) <==> DeployedAt(db, key, g) {
      if (key, g) !in added && (key, g) in db.intents { assert SameDeployment(db.intents[(key, g)], db'.intents[(key, g)]); }
    }
    forall key, g: nat, h: nat | DeployedAt(db', key, g) && DeployedAt(db', key, h) && g < h
                       && db'.intents[(key, g)].deployedAt.Some? && db'.intents[(key, h)].deployedAt.Some?
      ensures db'.intents[(key, g)].deployedAt.value <= db'.intents[(key, h)].deployedAt.value
    {
      assert SameDeployment(db.intents[(key, g)], db'.intents[(key, g)]);
      assert SameDeployment(db.intents[(key, h)], db'.intents[(key, h)]);
    }
    forall key | key in db'.targets ensures ActiveOk(db', key) {
      if db'.targets[key].active.Some? { SameActive(db, db', added, key); }
    }
  }

  lemma SameActive(db: Db, db': Db, added: set<(Key, nat)>, key: Key)
    requires key in db.targets && ActiveOk(db, key) && db.targets[key].active.Some?
    requires key in db'.targets && db'.targets[key].active == db.targets[key].active
    requires forall g: nat :: DeployedAt(db', key, g) <==> DeployedAt(db, key, g)
    requires forall g: nat | DeployedAt(db, key, g) ::
      (key, g) in db'.intents && db'.intents[(key, g)].build == db.intents[(key, g)].build
    ensures ActiveOk(db', key)
  {
    var g: nat :| LastDeployed(db, key, g) && db.targets[key].active == Some(db.intents[(key, g)].build);
    assert LastDeployed(db', key, g);
  }

  lemma ObserveRows(db: Db, key: Key, head: Option<Sha>, state: SourceState, version: nat, active: Option<BuildId>)
    requires RowsOk(db) && NoGap(db)
    requires Current(db, key, version, active) ==> Agrees(db, active, head, state)
    requires head.None? ==> state in {Unknown, Missing}
    ensures var db' := Observe(db, key, head, state, version, active); RowsOk(db') && NoGap(db') && Evolves(db, db')
  {
    var db' := Observe(db, key, head, state, version, active);
    forall k | k in db'.targets ensures TargetOk(db', k) { assert TargetOk(db, k); }
    forall id | id in db'.intents ensures IntentOk(db', id) { assert IntentOk(db, id); }
  }

  lemma ObserveOrder(db: Db, key: Key, head: Option<Sha>, state: SourceState, version: nat, active: Option<BuildId>)
    requires StoreOk(db)
    ensures var db' := Observe(db, key, head, state, version, active);
      InOrder(db') && forall k | k in db'.targets :: ActiveOk(db', k)
  {
    SameDeployments(db, Observe(db, key, head, state, version, active), {});
  }

  lemma SettleTargets(db: Db, key: Key, gen: nat, status: IntentStatus, reason: Reason, version: Option<nat>, head: Option<Sha>)
    requires RowsOk(db)
    ensures var db' := Settle(db, key, gen, status, reason, version, head);
      && (forall k | k in db'.targets :: TargetOk(db', k)) && (NoGap(db) ==> NoGap(db'))
  {
    var db' := Settle(db, key, gen, status, reason, version, head);
    forall k | k in db'.targets ensures TargetOk(db', k) { assert TargetOk(db, k); }
  }

  lemma SettleIntents(db: Db, key: Key, gen: nat, status: IntentStatus, reason: Reason, version: Option<nat>, head: Option<Sha>)
    requires forall id | id in db.intents :: IntentOk(db, id)
    requires !Open(status)
    ensures var db' := Settle(db, key, gen, status, reason, version, head); forall id | id in db'.intents :: IntentOk(db', id)
  {
    var db' := Settle(db, key, gen, status, reason, version, head);
    forall id | id in db'.intents ensures IntentOk(db', id) { assert IntentOk(db, id); }
  }

  lemma SettleEvolves(db: Db, key: Key, gen: nat, status: IntentStatus, reason: Reason, version: Option<nat>, head: Option<Sha>)
    requires RowsOk(db)
    ensures Evolves(db, Settle(db, key, gen, status, reason, version, head))
  {
    if SettleVerdict(db, key, gen, status, reason, version, head) == Switched {
      assert BuildOk(db.builds[db.intents[(key, gen)].build]);
    }
  }

  /** A switch makes the settled intent the newest deployed one, in time and in generation. */
  lemma SettleOrder(db: Db, key: Key, gen: nat, status: IntentStatus, reason: Reason, version: Option<nat>, head: Option<Sha>)
    requires StoreOk(db) && !Open(status)
    ensures var db' := Settle(db, key, gen, status, reason, version, head);
      InOrder(db') && forall k | k in db'.targets :: ActiveOk(db', k)
  {
    var verdict := SettleVerdict(db, key, gen, status, reason, version, head);
    var db' := Settle(db, key, gen, status, reason, version, head);
    if verdict == Switched {
      SwitchOrder(db, key, gen, reason, version, head, status);
    } else if verdict.Closed? {
      SameDeployments(db, db', {(key, gen)});
    }
  }

  lemma SwitchOrder(db: Db, key: Key, gen: nat, reason: Reason, version: Option<nat>, head: Option<Sha>, status: IntentStatus)
    requires StoreOk(db) && SettleVerdict(db, key, gen, status, reason, version, head) == Switched
    ensures var db' := Settle(db, key, gen, status, reason, version, head);
      InOrder(db') && forall k | k in db'.targets :: ActiveOk(db', k)
  {
    var db' := Settle(db, key, gen, status, reason, version, head);
    forall k: Key, g: nat ensures DeployedAt(db', k, g) <==> DeployedAt(db, k, g) || (k, g) == (key, gen) {}
    forall g: nat | DeployedAt(db, key, g) ensures g < gen && db.intents[(key, g)].deployedAt.Some?
                                              && db.intents[(key, g)].deployedAt.value <= db.now {
      assert IntentOk(db, (key, g));
    }
    assert LastDeployed(db', key, gen);
    forall k | k in db'.targets ensures ActiveOk(db', k) {
      if k != key && db'.targets[k].active.Some? { SameActive(db, db', {}, k); }
    }
  }

  // ---- Observers and reconcilers ----

  /** What the remote answers: a head, no such branch, or a failure. */
  datatype HeadAnswer = HeadIs(sha: Sha) | BranchAbsent | Unreachable
  datatype AncestryAnswer = NoReader | Descends | DoesNot | AncestryFailed

  /** The head and source state an observer derives from the answers and the active build it looked up. */
  function Classify(active: Option<Build>, answer: HeadAnswer, ancestry: AncestryAnswer): (Option<Sha>, SourceState) {
    match answer
    case Unreachable => (None, Unknown)
    case BranchAbsent => (None, Missing)
    case HeadIs(sha) =>
      if active.None? then (Some(sha), Undeployed)
      else if active.value.commit == Some(sha) then (Some(sha), Matched)
      else match ancestry
           case NoReader => (Some(sha), Unknown)
           case Descends => (Some(sha), Ahead)
           case DoesNot => (Some(sha), Diverged)
           case AncestryFailed => (None, Unknown)
  }

  /** A call in progress. `intent` is the generation being reconciled and the build row read for it, if any;
      every target row held here may have been overtaken. */
  datatype Session =
    | Looking(key: Key, intent: Option<(nat, Build)>, snapshot: Target)
    | Answered(key: Key, intent: Option<(nat, Build)>, snapshot: Target, head: Option<Sha>, state: SourceState)
    | Rereading(key: Key, intent: Option<(nat, Build)>, snapshot: Target)
    | Deciding(key: Key, gen: nat, build: Build, target: Target)
    | Idle

  datatype System = System(db: Db, sessions: map<nat, Session>)

  datatype Step =
    | Tick(elapsed: nat)
    | BuildMoves(b: BuildId, row: Build)
    | AcceptBuild(key: Key, b: BuildId)
    | BeginObserve(o: nat, key: Key)
    | BeginReconcile(o: nat, key: Key, gen: nat)
    | CloseFailed(key: Key, gen: nat, status: IntentStatus, code: string)
    | HearAnswer(o: nat, answer: HeadAnswer, ancestry: AncestryAnswer)
    | SaveObservation(o: nat)
    | Reread(o: nat)
    | Decide(o: nat)

  function Holding(key: Key, intent: Option<(nat, Build)>, target: Target): Session {
    if intent.Some? then Deciding(key, intent.value.0, intent.value.1, target) else Idle
  }

  /** The intent and build rows a reconciler read may be older than the target row it starts from, so the intent
      need no longer be open. */
  predicate Enabled(s: System, step: Step) {
    match step
    case Tick(_) => true
    case BuildMoves(b, row) => BuildOk(row) && (b in s.db.builds ==> BuildLater(s.db.builds[b], row))
    case AcceptBuild(_, b) => b in s.db.builds
    case BeginObserve(_, key) => key in s.db.targets
    case BeginReconcile(_, key, gen) =>
      && key in s.db.targets && (key, gen) in s.db.intents
      && s.db.intents[(key, gen)].build in s.db.builds
      && s.db.builds[s.db.intents[(key, gen)].build].status == BuildSucceeded
    case CloseFailed(_, _, status, _) => status in {Failed, Cancelled}
    case HearAnswer(o, _, _) => o in s.sessions && s.sessions[o].Looking?
    case SaveObservation(o) => o in s.sessions && s.sessions[o].Answered?
    case Reread(o) => o in s.sessions && s.sessions[o].Rereading?
    case Decide(o) => o in s.sessions && s.sessions[o].Deciding?
  }

  function ActiveBuild(db: Db, target: Target): Option<Build> {
    if target.active.Some? && target.active.value in db.builds then Some(db.builds[target.active.value]) else None
  }

  /** The settlement a reconciler asks for, from the target row it holds. */
  function Decision(db: Db, key: Key, gen: nat, build: Build, target: Target): Db {
    if target.state == Unknown then db
    else if target.head != build.commit
    then Settle(db, key, gen, Stale, SourceHeadChanged, Some(target.version), target.head)
    else Settle(db, key, gen, Deployed, NoReason, Some(target.version), target.head)
  }

  function Apply(s: System, step: Step): System
    requires Enabled(s, step)
  {
    match step
    case Tick(elapsed) => s.(db := s.db.(now := s.db.now + elapsed))
    case BuildMoves(b, row) => s.(db := s.db.(builds := s.db.builds[b := row]))
    case AcceptBuild(key, b) => s.(db := Accept(s.db, key, b))
    case BeginObserve(o, key) => s.(sessions := s.sessions[o := Looking(key, None, s.db.targets[key])])
    case BeginReconcile(o, key, gen) =>
      s.(sessions := s.sessions[o := Looking(key, Some((gen, s.db.builds[s.db.intents[(key, gen)].build])), s.db.targets[key])])
    case CloseFailed(key, gen, status, code) => s.(db := Settle(s.db, key, gen, status, Coded(code), None, None))
    case HearAnswer(o, answer, ancestry) =>
      var c := s.sessions[o];
      var heard := Classify(ActiveBuild(s.db, c.snapshot), answer, ancestry);
      s.(sessions := s.sessions[o := Answered(c.key, c.intent, c.snapshot, heard.0, heard.1)])
    case SaveObservation(o) =>
      var c := s.sessions[o];
      var db' := Observe(s.db, c.key, c.head, c.state, c.snapshot.version, c.snapshot.active);
      var session := if Current(s.db, c.key, c.snapshot.version, c.snapshot.active)
                     then Holding(c.key, c.intent, db'.targets[c.key])
                     else Rereading(c.key, c.intent, c.snapshot);
      System(db', s.sessions[o := session])
    case Reread(o) =>
      var c := s.sessions[o];
      if c.key in s.db.targets then s.(sessions := s.sessions[o := Holding(c.key, c.intent, s.db.targets[c.key])]) else s
    case Decide(o) =>
      var c := s.sessions[o];
      System(Decision(s.db, c.key, c.gen, c.build, c.target), s.sessions[o := Idle])
  }

  // ---- What a call in progress may rely on ----

  predicate Reconciles(db: Db, key: Key, intent: Option<(nat, Build)>, snapshot: Target) {
    intent.Some? ==>
      && (key, intent.value.0) in db.intents && intent.value.0 <= snapshot.desired
      && intent.value.1.status == BuildSucceeded && BuildOk(intent.value.1)
      && db.intents[(key, intent.value.0)].build in db.builds
      && db.builds[db.intents[(key, intent.value.0)].build] == intent.value.1
  }

  predicate Seen(db: Db, key: Key, snapshot: Target) {
    && key in db.targets && Later(snapshot, db.targets[key])
    && (snapshot.active.Some? ==>
          snapshot.active.value in db.builds && db.builds[snapshot.active.value].status == BuildSucceeded)
  }

  /** A target row that says something about the source, unless a newer intent has taken over. */
  predicate Informed(target: Target, gen: nat) {
    target.head.Some? || target.state in {Unknown, Missing} || gen < target.desired
  }

  predicate SessionOk(db: Db, c: Session) {
    match c
    case Idle => true
    case Looking(key, intent, snapshot) => Seen(db, key, snapshot) && Reconciles(db, key, intent, snapshot)
    case Answered(key, intent, snapshot, head, state) =>
      && Seen(db, key, snapshot) && Reconciles(db, key, intent, snapshot)
      && Agrees(db, snapshot.active, head, state) && (head.None? ==> state in {Unknown, Missing})
    case Rereading(key, intent, snapshot) =>
      && Seen(db, key, snapshot) && Reconciles(db, key, intent, snapshot)
      && snapshot.version < db.targets[key].version
    case Deciding(key, gen, build, target) =>
      && Seen(db, key, target) && Reconciles(db, key, Some((gen, build)), target) && Informed(target, gen)
  }

  predicate SessionsOk(s: System) {
    forall o | o in s.sessions :: SessionOk(s.db, s.sessions[o])
  }

  ghost predicate Inv(s: System) {
    StoreOk(s.db) && SessionsOk(s)
  }

  lemma SessionKept(db: Db, db': Db, c: Session)
    requires SessionOk(db, c) && Evolves(db, db')
    ensures SessionOk(db', c)
  {}

  lemma SessionsKept(s: System, s': System, changed: set<nat>)
    requires SessionsOk(s) && Evolves(s.db, s'.db)
    requires s'.sessions.Keys <= s.sessions.Keys + changed
    requires forall o | o in s'.sessions && o !in changed :: o in s.sessions && s'.sessions[o] == s.sessions[o]
    requires forall o | o in s'.sessions && o in changed :: SessionOk(s'.db, s'.sessions[o])
    ensures SessionsOk(s')
  {
    forall o | o in s'.sessions ensures SessionOk(s'.db, s'.sessions[o]) {
      if o !in changed { SessionKept(s.db, s'.db, s.sessions[o]); }
    }
  }

  lemma AcceptKeeps(db: Db, key: Key, build: BuildId)
    requires StoreOk(db) && build in db.builds
    ensures StoreOk(Accept(db, key, build)) && Evolves(db, Accept(db, key, build))
  {
    AcceptTargets(db, key, build);
    AcceptIntents(db, key, build);
    AcceptOrder(db, key, build);
  }

  lemma ObserveKeeps(db: Db, key: Key, head: Option<Sha>, state: SourceState, version: nat, active: Option<BuildId>)
    requires StoreOk(db)
    requires Current(db, key, version, active) ==> Agrees(db, active, head, state)
    requires head.None? ==> state in {Unknown, Missing}
    ensures var db' := Observe(db, key, head, state, version, active); StoreOk(db') && Evolves(db, db')
  {
    ObserveRows(db, key, head, state, version, active);
    ObserveOrder(db, key, head, state, version, active);
  }

  lemma SettleKeeps(db: Db, key: Key, gen: nat, status: IntentStatus, reason: Reason, version: Option<nat>, head: Option<Sha>)
    requires StoreOk(db) && !Open(status)
    ensures var db' := Settle(db, key, gen, status, reason, version, head); StoreOk(db') && Evolves(db, db')
  {
    SettleTargets(db, key, gen, status, reason, version, head);
    SettleIntents(db, key, gen, status, reason, version, head);
    SettleEvolves(db, key, gen, status, reason, version, head);
    SettleOrder(db, key, gen, status, reason, version, head);
  }

  lemma WorldKeeps(db: Db, db': Db)
    requires StoreOk(db) && db'.targets == db.targets && db'.intents == db.intents && db.now <= db'.now
    requires forall b | b in db.builds :: b in db'.builds && BuildLater(db.builds[b], db'.builds[b])
    requires forall b | b in db'.builds :: BuildOk(db'.builds[b])
    ensures StoreOk(db') && Evolves(db, db')
  {
    WorldRows(db, db');
    SameDeployments(db, db', {});
  }

  lemma WorldRows(db: Db, db': Db)
    requires RowsOk(db) && db'.targets == db.targets && db'.intents == db.intents && db.now <= db'.now
    requires forall b | b in db.builds :: b in db'.builds && BuildLater(db.builds[b], db'.builds[b])
    requires forall b | b in db'.builds :: BuildOk(db'.builds[b])
    ensures RowsOk(db')
  {
    forall k | k in db'.targets ensures TargetOk(db', k) { assert TargetOk(db, k); }
    forall id | id in db'.intents ensures IntentOk(db', id) { assert IntentOk(db, id); }
  }

  lemma StoreStep(s: System, step: Step)
    requires Inv(s) && Enabled(s, step)
    requires step.Tick? || step.BuildMoves? || step.AcceptBuild? || step.CloseFailed?
    ensures Inv(Apply(s, step)) && Evolves(s.db, Apply(s, step).db)
  {
    var s' := Apply(s, step);
    match step {
      case Tick(_) => WorldKeeps(s.db, s'.db);
      case BuildMoves(_, _) => WorldKeeps(s.db, s'.db);
      case AcceptBuild(key, b) => AcceptKeeps(s.db, key, b);
      case CloseFailed(key, gen, status, code) => SettleKeeps(s.db, key, gen, status, Coded(code), None, None);
    }
    SessionsKept(s, s', {});
  }

  lemma BeginStep(s: System, step: Step)
    requires Inv(s) && Enabled(s, step) && (step.BeginObserve? || step.BeginReconcile?)
    ensures Inv(Apply(s, step)) && Evolves(s.db, Apply(s, step).db)
  {
    assert TargetOk(s.db, step.key);
    if step.BeginReconcile? { assert IntentOk(s.db, (step.key, step.gen)); }
    SessionsKept(s, Apply(s, step), {step.o});
  }

  /** The active build's row is final, so it does not matter when it is read. */
  lemma HearStep(s: System, o: nat, answer: HeadAnswer, ancestry: AncestryAnswer)
    requires Inv(s) && Enabled(s, HearAnswer(o, answer, ancestry))
    ensures var step := HearAnswer(o, answer, ancestry); Inv(Apply(s, step)) && Evolves(s.db, Apply(s, step).db)
  {
    assert SessionOk(s.db, s.sessions[o]);
    SessionsKept(s, Apply(s, HearAnswer(o, answer, ancestry)), {o});
  }

  lemma SaveStep(s: System, o: nat)
    requires Inv(s) && Enabled(s, SaveObservation(o))
    ensures Inv(Apply(s, SaveObservation(o))) && Evolves(s.db, Apply(s, SaveObservation(o)).db)
  {
    var c, s' := s.sessions[o], Apply(s, SaveObservation(o));
    assert SessionOk(s.db, c);
    ObserveKeeps(s.db, c.key, c.head, c.state, c.snapshot.version, c.snapshot.active);
    SavedSession(s.db, c);
    SessionsKept(s, s', {o});
  }

  lemma SavedSession(db: Db, c: Session)
    requires c.Answered? && SessionOk(db, c) && StoreOk(db)
    requires var db' := Observe(db, c.key, c.head, c.state, c.snapshot.version, c.snapshot.active); StoreOk(db') && Evolves(db, db')
    ensures var db' := Observe(db, c.key, c.head, c.state, c.snapshot.version, c.snapshot.active);
      if Current(db, c.key, c.snapshot.version, c.snapshot.active)
      then SessionOk(db', Holding(c.key, c.intent, db'.targets[c.key]))
      else SessionOk(db', Rereading(c.key, c.intent, c.snapshot))
  {
    var db' := Observe(db, c.key, c.head, c.state, c.snapshot.version, c.snapshot.active);
    assert TargetOk(db', c.key);
  }

  lemma RereadStep(s: System, o: nat)
    requires Inv(s) && Enabled(s, Reread(o))
    ensures Inv(Apply(s, Reread(o))) && Evolves(s.db, Apply(s, Reread(o)).db)
  {
    var c := s.sessions[o];
    assert SessionOk(s.db, c) && TargetOk(s.db, c.key);
    SessionsKept(s, Apply(s, Reread(o)), {o});
  }

  lemma DecisionKeeps(db: Db, key: Key, gen: nat, build: Build, target: Target)
    requires StoreOk(db)
    ensures StoreOk(Decision(db, key, gen, build, target)) && Evolves(db, Decision(db, key, gen, build, target))
  {
    if target.state == Unknown {
    } else if target.head != build.commit {
      SettleKeeps(db, key, gen, Stale, SourceHeadChanged, Some(target.version), target.head);
    } else {
      SettleKeeps(db, key, gen, Deployed, NoReason, Some(target.version), target.head);
    }
  }

  lemma DecideStep(s: System, o: nat)
    requires Inv(s) && Enabled(s, Decide(o))
    ensures Inv(Apply(s, Decide(o))) && Evolves(s.db, Apply(s, Decide(o)).db)
  {
    var c := s.sessions[o];
    DecisionKeeps(s.db, c.key, c.gen, c.build, c.target);
    SessionEnds(s, o, Decision(s.db, c.key, c.gen, c.build, c.target));
  }

  lemma SessionEnds(s: System, o: nat, db': Db)
    requires SessionsOk(s) && o in s.sessions && Evolves(s.db, db')
    ensures SessionsOk(System(db', s.sessions[o := Idle]))
  {
    SessionsKept(s, System(db', s.sessions[o := Idle]), {o});
  }

  lemma StepKeeps(s: System, step: Step)
    requires Inv(s) && Enabled(s, step)
    ensures Inv(Apply(s, step)) && Evolves(s.db, Apply(s, step).db)
  {
    match step
    case BeginObserve(_, _) => BeginStep(s, step);
    case BeginReconcile(_, _, _) => BeginStep(s, step);
    case HearAnswer(o, answer, ancestry) => HearStep(s, o, answer, ancestry);
    case SaveObservation(o) => SaveStep(s, o);
    case Reread(o) => RereadStep(s, o);
    case Decide(o) => DecideStep(s, o);
    case _ => StoreStep(s, step);
  }
}
