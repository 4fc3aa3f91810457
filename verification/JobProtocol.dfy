/** Workers, executors and operators acting on the job tables in any interleaving, and what every run keeps. */
module JobProtocol {
  import opened Common
  import opened Jobs

  /** How far the process behind an attempt has come. `InEngine` lasts until its warehouse work has really ended. */
  datatype Progress = Fetching | SourceReady | TargetHeld | EngineAllowed | InEngine | Exited

  datatype System = System(db: Db, progress: map<AttemptId, Progress>)

  datatype Step =
    | Tick(elapsed: nat)
    | AdmitJob(j: JobId, job: Job)
    | RegisterSource(p: ProjectId, s: SetId)
    | StoreSet(s: SetId, row: ArtifactSet)
    | DeleteSet(s: SetId)
    | ClaimJob(j: JobId, a: AttemptId, token: Token, configs: set<Version>, toolchain: Version, locked: set<JobId>)
    | Renew(j: JobId, token: Token, delay: Time)
    | Label(j: JobId, token: Token, phase: string)
    | Pin(b: BuildId, sha: Sha, token: Token)
    | Attach(j: JobId, token: Token, s: SetId, digest: Option<Digest>)
    | SourceFixed(a: AttemptId)
    | ClaimTarget(a: AttemptId, cleared: set<JobId>, result: TargetResult)
    | AuthorizeEngine(a: AttemptId, phase: string)
    | EnterEngine(a: AttemptId)
    | Exit(a: AttemptId)
    | FinishJob(j: JobId, token: Token, out: Option<SetId>, delay: Time)
    | FailJob(j: JobId, token: Token, code: string, stopped: bool)
    | ReleaseTarget(j: JobId, token: Token, stopped: bool)
    | RecoverJobs(order: seq<JobId>)
    | Confirm(a: AttemptId, token: Token)

  /** Whoever reports that an attempt has stopped knows that its process has. */
  predicate KnownStopped(s: System, token: Token) {
    forall a | a in s.db.attempts && s.db.attempts[a].token == token :: a in s.progress && s.progress[a] == Exited
  }

  predicate At(s: System, a: AttemptId, p: Progress) {
    a in s.progress && s.progress[a] == p && a in s.db.attempts
  }

  /** The rows the query returned: distinct unfinished jobs whose current lease has run out. */
  predicate AllExpired(db: Db, order: seq<JobId>) {
    && (forall i | 0 <= i < |order| :: Expired(db, order[i]))
    && (forall i, k | 0 <= i < k < |order| :: order[i] != order[k])
  }

  ghost predicate Enabled(s: System, step: Step, lease: Time) {
    var db := s.db;
    match step
    case Tick(_) => true
    case AdmitJob(j, job) =>
      && j !in db.jobs && NewJob(job) && InputAvailable(db, job)
      && (job.build.Some? ==> job.build.value !in db.builds)
    case RegisterSource(_, t) => t in db.sets && db.sets[t].state == Sealed && db.sets[t].kind == SourceSet
    case StoreSet(t, row) => t !in db.sets && NewSet(db, row)
    case DeleteSet(_) => true
    case ClaimJob(j, a, token, configs, toolchain, locked) =>
      && FirstEligible(db, j, configs, toolchain, locked)
      && a !in db.attempts && (forall b | b in db.attempts :: db.attempts[b].token != token)
    case Renew(_, _, _) => true
    case Label(_, _, _) => true
    case Pin(_, _, _) => true
    case Attach(_, _, _, _) => true
    case SourceFixed(a) => At(s, a, Fetching) && db.attempts[a].job in db.jobs && db.jobs[db.attempts[a].job].input.Some?
    case ClaimTarget(a, cleared, result) =>
      At(s, a, SourceReady) && TargetOutcome(db, db.attempts[a].job, db.attempts[a].token, cleared, result)
    case AuthorizeEngine(a, _) => At(s, a, TargetHeld)
    case EnterEngine(a) => At(s, a, EngineAllowed)
    case Exit(a) => a in s.progress
    case FinishJob(_, token, _, _) => KnownStopped(s, token)
    case FailJob(_, token, _, stopped) => stopped ==> KnownStopped(s, token)
    case ReleaseTarget(_, _, _) => true
    case RecoverJobs(order) => AllExpired(db, order)
    case Confirm(_, token) => KnownStopped(s, token)
  }

  function Apply(s: System, step: Step, lease: Time): System {
    var db := s.db;
    match step
    case Tick(elapsed) => s.(db := db.(now := db.now + elapsed))
    case AdmitJob(j, job) => s.(db := Admit(db, j, job))
    case RegisterSource(p, t) => s.(db := db.(projectSources := db.projectSources[p := t]))
    case StoreSet(t, row) => s.(db := db.(sets := db.sets[t := row]))
    case DeleteSet(t) => s.(db := DeleteUnreferenced(db, t))
    case ClaimJob(j, a, token, _, _, _) =>
      if j in db.jobs then System(Claim(db, j, a, token, lease), s.progress[a := Fetching]) else s
    case Renew(j, token, delay) => s.(db := Heartbeat(db, j, token, lease, delay))
    case Label(j, token, phase) => s.(db := Phase(db, j, token, phase, false))
    case Pin(b, sha, token) => s.(db := PinSource(db, b, sha, token))
    case Attach(j, token, t, digest) => s.(db := AttachInput(db, j, token, t, digest))
    case SourceFixed(a) => s.(progress := s.progress[a := SourceReady])
    case ClaimTarget(a, cleared, result) =>
      if a !in db.attempts then s
      else System(TargetClaim(db, db.attempts[a].job, cleared, result),
                  if result == TargetGranted then s.progress[a := TargetHeld] else s.progress)
    case AuthorizeEngine(a, phase) =>
      if a !in db.attempts then s
      else
        var j, token := db.attempts[a].job, db.attempts[a].token;
        System(Phase(db, j, token, phase, true),
               s.progress[a := if Authorized(db, j, token).Some? then EngineAllowed else Exited])
    case EnterEngine(a) => s.(progress := s.progress[a := InEngine])
    case Exit(a) => s.(progress := s.progress[a := Exited])
    case FinishJob(j, token, out, delay) => s.(db := Finish(db, j, token, out, delay))
    case FailJob(j, token, code, stopped) => s.(db := Fail(db, j, token, code, stopped))
    case ReleaseTarget(j, token, stopped) => s.(db := Release(db, j, token, stopped))
    case RecoverJobs(order) => s.(db := Recover(db, order))
    case Confirm(a, token) => s.(db := ConfirmStopped(db, a, token))
  }

  // ---- Invariants ----

  /** Each job agrees with its current attempt. */
  predicate JobOk(db: Db, j: JobId)
    requires j in db.jobs
  {
    var job := db.jobs[j];
    && job.attemptNo <= job.maxAttempts
    && (job.current.Some? ==>
          && job.current.value in db.attempts
          && db.attempts[job.current.value].job == j
          && db.attempts[job.current.value].number == job.attemptNo)
    && (job.status == Queued <==> job.current.None?)
    && (job.status == Queued ==> job.attemptNo < job.maxAttempts)
    && (job.status == Running <==> job.current.Some? && db.attempts[job.current.value].state == Executing)
    && (job.targetClaimed ==> job.target.Some?)
  }

  /** Each attempt agrees with its job. */
  predicate AttemptOk(db: Db, a: AttemptId)
    requires a in db.attempts
  {
    var attempt := db.attempts[a];
    && attempt.job in db.jobs
    && var job := db.jobs[attempt.job];
    && 1 <= attempt.number <= job.attemptNo
    && (attempt.stopConfirmedAt.None? <==> Active(attempt.state))
    && (Active(attempt.state) || attempt.stage == External ==> job.current == Some(a))
    && (attempt.stage == External && Active(attempt.state) && job.target.Some? ==> job.targetClaimed)
  }

  predicate Identified(db: Db) {
    && (forall a, b | a in db.attempts && b in db.attempts && a != b :: db.attempts[a].token != db.attempts[b].token)
    && (forall a, b | a in db.attempts && b in db.attempts && a != b && db.attempts[a].job == db.attempts[b].job ::
          db.attempts[a].number != db.attempts[b].number)
  }

  predicate OneOwner(db: Db) {
    forall j, k | j in db.jobs && k in db.jobs && db.jobs[j].targetClaimed && db.jobs[k].targetClaimed
                  && db.jobs[j].target == db.jobs[k].target :: j == k
  }

  predicate JobsOk(db: Db) {
    forall j | j in db.jobs :: JobOk(db, j)
  }

  predicate AttemptsOk(db: Db) {
    forall a | a in db.attempts :: AttemptOk(db, a)
  }

  predicate Lifecycle(db: Db) {
    JobsOk(db) && AttemptsOk(db) && Identified(db) && OneOwner(db)
  }

  /** What a process may rely on, given how far it has come. */
  predicate ProgressOk(s: System, a: AttemptId)
    requires a in s.db.attempts && s.db.attempts[a].job in s.db.jobs
  {
    var attempt := s.db.attempts[a];
    var job := s.db.jobs[attempt.job];
    && a in s.progress
    && (s.progress[a] in {SourceReady, TargetHeld, EngineAllowed, InEngine} ==> job.input.Some?)
    && (s.progress[a] == TargetHeld && attempt.state == Executing && job.target.Some? ==> job.targetClaimed)
    && (s.progress[a] in {EngineAllowed, InEngine} ==> attempt.stage == External && Active(attempt.state))
  }

  predicate ProcessesOk(s: System) {
    && s.progress.Keys == s.db.attempts.Keys
    && forall a | a in s.db.attempts :: s.db.attempts[a].job in s.db.jobs && ProgressOk(s, a)
  }

  predicate Inv(s: System) {
    Lifecycle(s.db) && ProcessesOk(s)
  }

  // ---- Updates of one job and one of its attempts ----

  /** `db'` differs from `db` in at most job `j` and attempt `a`, neither of which changes identity. */
  predicate LocalChange(db: Db, db': Db, j: JobId, a: AttemptId) {
    && j in db.jobs && a in db.attempts && db.attempts[a].job == j
    && j in db'.jobs && a in db'.attempts
    && db'.jobs == db.jobs[j := db'.jobs[j]]
    && db'.attempts == db.attempts[a := db'.attempts[a]]
    && db'.attempts[a].job == j && db'.attempts[a].number == db.attempts[a].number
    && db'.attempts[a].token == db.attempts[a].token
    && db'.jobs[j].attemptNo == db.jobs[j].attemptNo
    && db'.jobs[j].target == db.jobs[j].target
  }

  /** Nothing job `k` depends on has changed. */
  predicate JobKept(db: Db, db': Db, k: JobId)
    requires k in db.jobs
  {
    && k in db'.jobs && db'.jobs[k] == db.jobs[k]
    && (db.jobs[k].current.Some? && db.jobs[k].current.value in db.attempts ==>
          var a := db.jobs[k].current.value; a in db'.attempts && db'.attempts[a] == db.attempts[a])
  }

  lemma JobsFrame(db: Db, db': Db, changed: set<JobId>)
    requires JobsOk(db) && db'.jobs.Keys <= db.jobs.Keys + changed
    requires forall k | k in db.jobs && k !in changed :: JobKept(db, db', k)
    requires forall k | k in db'.jobs && k in changed :: JobOk(db', k)
    ensures JobsOk(db')
  {
    forall k | k in db'.jobs ensures JobOk(db', k) {
      if k !in changed { assert JobKept(db, db', k); }
    }
  }

  /** Attempt `b` is as it was, and its job still answers for it. */
  predicate AttemptKept(db: Db, db': Db, b: AttemptId)
    requires b in db.attempts && db.attempts[b].job in db.jobs
  {
    var j := db.attempts[b].job;
    && b in db'.attempts && db'.attempts[b] == db.attempts[b]
    && j in db'.jobs && db'.jobs[j].attemptNo >= db.jobs[j].attemptNo && db'.jobs[j].target == db.jobs[j].target
    && (db.jobs[j].current == Some(b) ==> db'.jobs[j].current == Some(b))
    && (Active(db.attempts[b].state) && db.jobs[j].targetClaimed ==> db'.jobs[j].targetClaimed)
  }

  lemma AttemptsFrame(db: Db, db': Db, changed: set<AttemptId>)
    requires AttemptsOk(db) && db'.attempts.Keys <= db.attempts.Keys + changed
    requires forall b | b in db.attempts && b !in changed :: AttemptOk(db, b) && AttemptKept(db, db', b)
    requires forall b | b in db'.attempts && b in changed :: AttemptOk(db', b)
    ensures AttemptsOk(db')
  {
    forall b | b in db'.attempts ensures AttemptOk(db', b) {
      if b !in changed { assert AttemptKept(db, db', b); }
    }
  }

  lemma IdentifiedFrame(db: Db, db': Db)
    requires Identified(db) && db'.attempts.Keys == db.attempts.Keys
    requires forall b | b in db.attempts ::
      && db'.attempts[b].token == db.attempts[b].token && db'.attempts[b].job == db.attempts[b].job
      && db'.attempts[b].number == db.attempts[b].number
    ensures Identified(db')
  {}

  lemma OneOwnerFrame(db: Db, db': Db)
    requires OneOwner(db)
    requires forall j | j in db'.jobs && db'.jobs[j].targetClaimed ::
      j in db.jobs && db.jobs[j].targetClaimed && db.jobs[j].target == db'.jobs[j].target
    ensures OneOwner(db')
  {}

  lemma LocalLifecycle(db: Db, db': Db, j: JobId, a: AttemptId)
    requires Lifecycle(db) && LocalChange(db, db', j, a)
    requires db.jobs[j].current == Some(a)
    requires db'.jobs[j].current in {None, Some(a)}
    requires JobOk(db', j) && AttemptOk(db', a)
    requires db'.jobs[j].targetClaimed ==> db.jobs[j].targetClaimed
    ensures Lifecycle(db')
  {
    LocalJobs(db, db', j, a);
    LocalAttempts(db, db', j, a);
    IdentifiedFrame(db, db');
    OneOwnerFrame(db, db');
  }

  lemma LocalJobs(db: Db, db': Db, j: JobId, a: AttemptId)
    requires JobsOk(db) && LocalChange(db, db', j, a) && JobOk(db', j)
    ensures JobsOk(db')
  {
    forall k | k in db.jobs && k !in {j} ensures JobKept(db, db', k) {
      assert JobOk(db, k);
    }
    JobsFrame(db, db', {j});
  }

  lemma LocalAttempts(db: Db, db': Db, j: JobId, a: AttemptId)
    requires AttemptsOk(db) && LocalChange(db, db', j, a) && db.jobs[j].current == Some(a) && AttemptOk(db', a)
    ensures AttemptsOk(db')
  {
    forall b | b in db.attempts && b !in {a} ensures AttemptOk(db, b) && AttemptKept(db, db', b) {
      assert AttemptOk(db, b);
    }
    AttemptsFrame(db, db', {a});
  }

  // ---- Every transaction keeps the lifecycle ----

  lemma AuthorizedFacts(db: Db, j: JobId, token: Token)
    requires Lifecycle(db) && Authorized(db, j, token).Some?
    ensures var a := Authorized(db, j, token).value;
      && j in db.jobs && a in db.attempts && db.jobs[j].current == Some(a) && db.attempts[a].job == j
      && db.jobs[j].status == Running && db.attempts[a].state == Executing && db.attempts[a].token == token
      && JobOk(db, j) && AttemptOk(db, a)
  {
    assert JobOk(db, j);
  }

  lemma AdmitKeeps(db: Db, j: JobId, job: Job)
    requires Lifecycle(db) && j !in db.jobs && NewJob(job)
    ensures Lifecycle(Admit(db, j, job))
  {
    var db' := Admit(db, j, job);
    AdmitRows(db, db', j);
    IdentifiedFrame(db, db');
    OneOwnerFrame(db, db');
  }

  lemma AdmitRows(db: Db, db': Db, j: JobId)
    requires JobsOk(db) && AttemptsOk(db) && j !in db.jobs && j in db'.jobs && NewJob(db'.jobs[j])
    requires db'.jobs == db.jobs[j := db'.jobs[j]] && db'.attempts == db.attempts
    ensures JobsOk(db') && AttemptsOk(db')
  {
    JobsFrame(db, db', {j});
    forall b | b in db.attempts ensures AttemptOk(db, b) && AttemptKept(db, db', b) {
      assert AttemptOk(db, b);
    }
    AttemptsFrame(db, db', {});
  }

  lemma ClaimKeeps(db: Db, j: JobId, a: AttemptId, token: Token, lease: Time)
    requires Lifecycle(db) && j in db.jobs && db.jobs[j].status == Queued && a !in db.attempts
    requires forall b | b in db.attempts :: db.attempts[b].token != token
    ensures Lifecycle(Claim(db, j, a, token, lease))
  {
    var db' := Claim(db, j, a, token, lease);
    ClaimRows(db, j, a, token, lease);
    ClaimIdentified(db, j, a, token, lease);
    OneOwnerFrame(db, db');
  }

  lemma ClaimRows(db: Db, j: JobId, a: AttemptId, token: Token, lease: Time)
    requires JobsOk(db) && AttemptsOk(db) && j in db.jobs && db.jobs[j].status == Queued && a !in db.attempts
    ensures var db' := Claim(db, j, a, token, lease); JobsOk(db') && AttemptsOk(db')
  {
    var db' := Claim(db, j, a, token, lease);
    assert JobOk(db, j);
    forall k | k in db.jobs && k !in {j} ensures JobKept(db, db', k) {
      assert JobOk(db, k);
    }
    JobsFrame(db, db', {j});
    forall b | b in db.attempts && b !in {a} ensures AttemptOk(db, b) && AttemptKept(db, db', b) {
      assert AttemptOk(db, b);
    }
    AttemptsFrame(db, db', {a});
  }

  lemma ClaimIdentified(db: Db, j: JobId, a: AttemptId, token: Token, lease: Time)
    requires AttemptsOk(db) && Identified(db) && j in db.jobs && a !in db.attempts
    requires forall b | b in db.attempts :: db.attempts[b].token != token
    ensures Identified(Claim(db, j, a, token, lease))
  {
    forall b | b in db.attempts && db.attempts[b].job == j ensures db.attempts[b].number <= db.jobs[j].attemptNo {
      assert AttemptOk(db, b);
    }
  }

  lemma HeartbeatKeeps(db: Db, j: JobId, token: Token, lease: Time, delay: Time)
    requires Lifecycle(db)
    ensures Lifecycle(Heartbeat(db, j, token, lease, delay))
  {
    if Authorized(db, j, token).Some? {
      AuthorizedFacts(db, j, token);
      LocalLifecycle(db, Heartbeat(db, j, token, lease, delay), j, Authorized(db, j, token).value);
    } else {
      TickKeeps(db, delay);
    }
  }

  lemma TickKeeps(db: Db, elapsed: nat)
    requires Lifecycle(db)
    ensures Lifecycle(db.(now := db.now + elapsed))
  {
    SameRows(db, db.(now := db.now + elapsed));
  }

  /** The lifecycle speaks of jobs and attempts only. */
  lemma SameRows(db: Db, db': Db)
    requires Lifecycle(db) && db'.jobs == db.jobs && db'.attempts == db.attempts
    ensures Lifecycle(db')
  {
    SameRowsOk(db, db');
    IdentifiedFrame(db, db');
    OneOwnerFrame(db, db');
  }

  lemma SameRowsOk(db: Db, db': Db)
    requires JobsOk(db) && AttemptsOk(db) && db'.jobs == db.jobs && db'.attempts == db.attempts
    ensures JobsOk(db') && AttemptsOk(db')
  {
    JobsFrame(db, db', {});
    forall b | b in db.attempts ensures AttemptOk(db, b) && AttemptKept(db, db', b) {
      assert AttemptOk(db, b);
    }
    AttemptsFrame(db, db', {});
  }

  /** Going external needs the physical target in hand, if there is one. */
  lemma PhaseKeeps(db: Db, j: JobId, token: Token, phase: string, external: bool)
    requires Lifecycle(db)
    requires external && Authorized(db, j, token).Some? && db.jobs[j].target.Some? ==> db.jobs[j].targetClaimed
    ensures Lifecycle(Phase(db, j, token, phase, external))
  {
    if Authorized(db, j, token).Some? {
      AuthorizedFacts(db, j, token);
      LocalLifecycle(db, Phase(db, j, token, phase, external), j, Authorized(db, j, token).value);
    }
  }

  lemma AttachKeeps(db: Db, j: JobId, token: Token, s: SetId, digest: Option<Digest>)
    requires Lifecycle(db)
    ensures Lifecycle(AttachInput(db, j, token, s, digest))
  {
    if AttachVerdict(db, j, token, s) == Attached {
      AuthorizedFacts(db, j, token);
      LocalLifecycle(db, AttachInput(db, j, token, s, digest), j, Authorized(db, j, token).value);
    }
  }

  lemma PinKeeps(db: Db, b: BuildId, sha: Sha, token: Token)
    requires Lifecycle(db)
    ensures Lifecycle(PinSource(db, b, sha, token))
  {
    if PinVerdict(db, b, sha, token) == Pinned {
      var j := db.builds[b].run;
      AuthorizedFacts(db, j, token);
      LocalLifecycle(db, PinSource(db, b, sha, token), j, Authorized(db, j, token).value);
    }
  }

  lemma FinishKeeps(db: Db, j: JobId, token: Token, out: Option<SetId>, delay: Time)
    requires Lifecycle(db)
    ensures Lifecycle(Finish(db, j, token, out, delay))
  {
    if FinishVerdict(db, j, token, out, delay) == Committed {
      AuthorizedFacts(db, j, token);
      LocalLifecycle(db, Finish(db, j, token, out, delay), j, Authorized(db, j, token).value);
    } else {
      TickKeeps(db, delay);
    }
  }

  lemma FailKeeps(db: Db, j: JobId, token: Token, code: string, stopped: bool)
    requires Lifecycle(db)
    ensures Lifecycle(Fail(db, j, token, code, stopped))
  {
    if Authorized(db, j, token).Some? {
      AuthorizedFacts(db, j, token);
      LocalLifecycle(db, Fail(db, j, token, code, stopped), j, Authorized(db, j, token).value);
    }
  }

  /** An unfinished job with a current attempt is running it. */
  lemma ExpiredFacts(db: Db, j: JobId)
    requires Lifecycle(db) && Expired(db, j)
    ensures var a := db.jobs[j].current.value;
      && db.jobs[j].status == Running && a in db.attempts && db.attempts[a].job == j
      && db.attempts[a].state == Executing && JobOk(db, j) && AttemptOk(db, a)
  {
    assert JobOk(db, j);
  }

  lemma RecoverOneKeeps(db: Db, j: JobId)
    requires Lifecycle(db) && Expired(db, j)
    ensures Lifecycle(RecoverOne(db, j))
  {
    ExpiredFacts(db, j);
    LocalLifecycle(db, RecoverOne(db, j), j, db.jobs[j].current.value);
  }

  lemma RecoverOneElsewhere(db: Db, j: JobId, k: JobId)
    requires Lifecycle(db) && Expired(db, j) && Expired(db, k) && j != k
    ensures Expired(RecoverOne(db, j), k)
  {
    ExpiredFacts(db, j);
    ExpiredFacts(db, k);
  }

  lemma AllExpiredAfterOne(db: Db, order: seq<JobId>)
    requires Lifecycle(db) && order != [] && AllExpired(db, order)
    ensures AllExpired(RecoverOne(db, order[0]), order[1..])
  {
    forall i | 0 <= i < |order[1..]| ensures Expired(RecoverOne(db, order[0]), order[1..][i]) {
      RecoverOneElsewhere(db, order[0], order[i + 1]);
    }
  }

  lemma {:induction false} RecoverKeeps(db: Db, order: seq<JobId>, rest: seq<JobId>)
    requires Lifecycle(db) && AllExpired(db, order + rest)
    ensures Lifecycle(Recover(db, order)) && AllExpired(Recover(db, order), rest)
  {
    if order == [] {
      assert order + rest == rest;
    } else {
      var head, last := order[..|order| - 1], order[|order| - 1];
      assert order + rest == head + ([last] + rest);
      RecoverKeeps(db, head, [last] + rest);
      assert ([last] + rest)[0] == last && ([last] + rest)[1..] == rest;
      RecoverOneKeeps(Recover(db, head), last);
      AllExpiredAfterOne(Recover(db, head), [last] + rest);
    }
  }

  lemma ConfirmKeeps(db: Db, a: AttemptId, token: Token)
    requires Lifecycle(db)
    ensures Lifecycle(ConfirmStopped(db, a, token))
  {
    if a in db.attempts && db.attempts[a].token == token && db.attempts[a].state == ExpiredUnconfirmed {
      assert AttemptOk(db, a) && JobOk(db, db.attempts[a].job);
      LocalLifecycle(db, ConfirmStopped(db, a, token), db.attempts[a].job, a);
    }
  }

  lemma ReleaseKeeps(db: Db, j: JobId, token: Token, stopped: bool)
    requires Lifecycle(db)
    ensures Lifecycle(Release(db, j, token, stopped))
  {
    if stopped && Releasable(db, j, token) {
      var a := db.jobs[j].current.value;
      assert JobOk(db, j) && AttemptOk(db, a);
      LocalLifecycle(db, Release(db, j, token, stopped), j, a);
    }
  }

  /** Taking over from safe owners leaves one owner per target and no unconfirmed external attempt without it. */
  lemma TargetClaimKeeps(db: Db, j: JobId, token: Token, cleared: set<JobId>, result: TargetResult)
    requires Lifecycle(db) && TargetOutcome(db, j, token, cleared, result)
    ensures Lifecycle(TargetClaim(db, j, cleared, result))
  {
    TargetClaimRows(db, j, cleared, result);
    IdentifiedFrame(db, TargetClaim(db, j, cleared, result));
    TargetClaimOwner(db, j, token, cleared, result);
  }

  /** A target claim changes nothing of a job but the claim flag, and sets it only where there is a target. */
  predicate FlagOnly(db: Db, db': Db, k: JobId, cleared: set<JobId>)
    requires k in db.jobs
  {
    && k in db'.jobs && db'.jobs[k] == db.jobs[k].(targetClaimed := db'.jobs[k].targetClaimed)
    && (db'.jobs[k].targetClaimed ==> db.jobs[k].targetClaimed || db.jobs[k].target.Some?)
    && (db.jobs[k].targetClaimed && k !in cleared ==> db'.jobs[k].targetClaimed)
  }

  lemma TargetClaimEffect(db: Db, j: JobId, cleared: set<JobId>, result: TargetResult)
    ensures var db' := TargetClaim(db, j, cleared, result);
      && db'.attempts == db.attempts && db'.jobs.Keys == db.jobs.Keys
      && forall k | k in db.jobs :: FlagOnly(db, db', k, cleared)
  {
    var db' := TargetClaim(db, j, cleared, result);
    assert ClearClaims(db, cleared).jobs.Keys == db.jobs.Keys;
    forall k | k in db.jobs ensures FlagOnly(db, db', k, cleared) {
      assert k in ClearClaims(db, cleared).jobs;
    }
  }

  lemma TargetClaimRows(db: Db, j: JobId, cleared: set<JobId>, result: TargetResult)
    requires JobsOk(db) && AttemptsOk(db)
    requires forall o | o in cleared :: !Unsafe(db, o)
    ensures var db' := TargetClaim(db, j, cleared, result); JobsOk(db') && AttemptsOk(db')
  {
    var db' := TargetClaim(db, j, cleared, result);
    TargetClaimEffect(db, j, cleared, result);
    FlagsOnlyJobs(db, db', cleared);
    FlagsOnlyAttempts(db, db', cleared);
  }

  lemma FlagsOnlyJobs(db: Db, db': Db, cleared: set<JobId>)
    requires JobsOk(db) && db'.attempts == db.attempts && db'.jobs.Keys == db.jobs.Keys
    requires forall k | k in db.jobs :: FlagOnly(db, db', k, cleared)
    ensures JobsOk(db')
  {
    forall k | k in db'.jobs ensures JobOk(db', k) {
      assert JobOk(db, k) && FlagOnly(db, db', k, cleared);
    }
  }

  lemma FlagsOnlyAttempts(db: Db, db': Db, cleared: set<JobId>)
    requires AttemptsOk(db) && db'.attempts == db.attempts && db'.jobs.Keys == db.jobs.Keys
    requires forall o | o in cleared :: !Unsafe(db, o)
    requires forall k | k in db.jobs :: FlagOnly(db, db', k, cleared)
    ensures AttemptsOk(db')
  {
    forall b | b in db.attempts ensures AttemptOk(db, b) && AttemptKept(db, db', b) {
      assert AttemptOk(db, b) && FlagOnly(db, db', db.attempts[b].job, cleared);
    }
    AttemptsFrame(db, db', {});
  }

  lemma TargetClaimOwner(db: Db, j: JobId, token: Token, cleared: set<JobId>, result: TargetResult)
    requires OneOwner(db) && TargetOutcome(db, j, token, cleared, result)
    ensures OneOwner(TargetClaim(db, j, cleared, result))
  {
    var db' := TargetClaim(db, j, cleared, result);
    if result == TargetGranted && j in db.jobs && db.jobs[j].target.Some? {
      forall k | k in db.jobs && k != j && db'.jobs[k].targetClaimed ensures db'.jobs[k].target != db'.jobs[j].target {
        assert k !in Owners(db, j);
      }
      OneOwnerFrame(db.(jobs := db.jobs - {j}), db'.(jobs := db'.jobs - {j}));
      forall i, k | i in db'.jobs && k in db'.jobs && db'.jobs[i].targetClaimed && db'.jobs[k].targetClaimed
                    && db'.jobs[i].target == db'.jobs[k].target ensures i == k {
        if i != j && k != j { assert i in db'.jobs - {j} && k in db'.jobs - {j}; }
      }
    } else {
      OneOwnerFrame(db, db');
    }
  }

  // ---- Every step keeps what the processes rely on ----

  /** What a process relies on survives a change that keeps its attempt alive and its job's input and claim. */
  predicate ProgressKept(s: System, s': System, b: AttemptId)
    requires b in s.db.attempts && s.db.attempts[b].job in s.db.jobs && b in s.progress
  {
    var j := s.db.attempts[b].job;
    && b in s'.db.attempts && s'.db.attempts[b].job == j && j in s'.db.jobs
    && b in s'.progress && s'.progress[b] == s.progress[b]
    && s'.db.jobs[j].target == s.db.jobs[j].target
    && (s.db.jobs[j].input.Some? ==> s'.db.jobs[j].input.Some?)
    && (s'.db.attempts[b].state == Executing ==>
          s.db.attempts[b].state == Executing && (s.db.jobs[j].targetClaimed ==> s'.db.jobs[j].targetClaimed))
    && (s.db.attempts[b].stage == External && Active(s.db.attempts[b].state) && s.progress[b] != Exited ==>
          s'.db.attempts[b].stage == External && Active(s'.db.attempts[b].state))
  }

  lemma ProcessesFrame(s: System, s': System, changed: set<AttemptId>)
    requires ProcessesOk(s) && s'.progress.Keys == s'.db.attempts.Keys
    requires s'.db.attempts.Keys <= s.db.attempts.Keys + changed
    requires forall b | b in s.db.attempts && b !in changed :: ProgressKept(s, s', b)
    requires forall b | b in s'.db.attempts && b in changed :: s'.db.attempts[b].job in s'.db.jobs && ProgressOk(s', b)
    ensures ProcessesOk(s')
  {
    forall b | b in s'.db.attempts ensures s'.db.attempts[b].job in s'.db.jobs && ProgressOk(s', b) {
      if b !in changed { assert ProgressOk(s, b) && ProgressKept(s, s', b); }
    }
  }

  lemma LocalProcesses(s: System, s': System, j: JobId, a: AttemptId)
    requires ProcessesOk(s) && AttemptsOk(s.db) && LocalChange(s.db, s'.db, j, a)
    requires s.db.jobs[j].current == Some(a)
    requires s.db.jobs[j].input.Some? ==> s'.db.jobs[j].input.Some?
    requires s'.progress.Keys == s.progress.Keys && forall b | b in s.progress && b != a :: s'.progress[b] == s.progress[b]
    requires ProgressOk(s', a)
    ensures ProcessesOk(s')
  {
    forall b | b in s.db.attempts && b !in {a} ensures ProgressKept(s, s', b) {
      assert AttemptOk(s.db, b) && ProgressOk(s, b);
    }
    ProcessesFrame(s, s', {a});
  }

  /** The holder of a live lease changed its own rows; `a` still has what it relied on. */
  lemma GuardedProcesses(s: System, db': Db, j: JobId, token: Token)
    requires Inv(s) && Authorized(s.db, j, token).Some?
    requires var a := Authorized(s.db, j, token).value;
      && a in s.db.attempts && s.db.attempts[a].job == j && LocalChange(s.db, db', j, a)
      && a in s.progress
      && (s.db.jobs[j].input.Some? ==> db'.jobs[j].input.Some?)
      && db'.jobs[j].targetClaimed == s.db.jobs[j].targetClaimed
      && (s.progress[a] == Exited
          || (db'.attempts[a].stage == s.db.attempts[a].stage && Active(db'.attempts[a].state)))
    ensures ProcessesOk(s.(db := db'))
  {
    var a := Authorized(s.db, j, token).value;
    AuthorizedFacts(s.db, j, token);
    assert ProgressOk(s, a);
    LocalProcesses(s, s.(db := db'), j, a);
  }

  /** Only the clock, the sets or the builds changed. */
  lemma SameRowsProcesses(s: System, db': Db)
    requires ProcessesOk(s) && db'.jobs == s.db.jobs && db'.attempts == s.db.attempts
    ensures ProcessesOk(s.(db := db'))
  {
    forall b | b in s.db.attempts ensures ProgressKept(s, s.(db := db'), b) {
      assert ProgressOk(s, b);
    }
    ProcessesFrame(s, s.(db := db'), {});
  }

  lemma AdmitProcesses(s: System, j: JobId, job: Job)
    requires ProcessesOk(s) && j !in s.db.jobs
    ensures ProcessesOk(s.(db := Admit(s.db, j, job)))
  {
    var s' := s.(db := Admit(s.db, j, job));
    forall b | b in s.db.attempts ensures ProgressKept(s, s', b) {
      assert ProgressOk(s, b);
    }
    ProcessesFrame(s, s', {});
  }

  lemma ClaimProcesses(s: System, j: JobId, a: AttemptId, token: Token, lease: Time)
    requires ProcessesOk(s) && j in s.db.jobs && a !in s.db.attempts
    ensures ProcessesOk(System(Claim(s.db, j, a, token, lease), s.progress[a := Fetching]))
  {
    var s' := System(Claim(s.db, j, a, token, lease), s.progress[a := Fetching]);
    forall b | b in s.db.attempts && b !in {a} ensures ProgressKept(s, s', b) {
      assert ProgressOk(s, b);
    }
    ProcessesFrame(s, s', {a});
  }

  /** A process moves on without touching the tables. */
  lemma MoveProcesses(s: System, a: AttemptId, p: Progress)
    requires ProcessesOk(s) && a in s.db.attempts && ProgressOk(s.(progress := s.progress[a := p]), a)
    ensures ProcessesOk(s.(progress := s.progress[a := p]))
  {
    var s' := s.(progress := s.progress[a := p]);
    forall b | b in s.db.attempts && b !in {a} ensures ProgressKept(s, s', b) {
      assert ProgressOk(s, b);
    }
    ProcessesFrame(s, s', {a});
  }

  lemma TargetClaimProcesses(s: System, a: AttemptId, cleared: set<JobId>, result: TargetResult)
    requires ProcessesOk(s) && At(s, a, SourceReady)
    requires forall o | o in cleared :: !Unsafe(s.db, o)
    ensures ProcessesOk(System(TargetClaim(s.db, s.db.attempts[a].job, cleared, result),
                               if result == TargetGranted then s.progress[a := TargetHeld] else s.progress))
  {
    var j := s.db.attempts[a].job;
    TargetClaimEffect(s.db, j, cleared, result);
    TargetClaimSets(s.db, j, cleared);
    FlagProcesses(s, TargetClaim(s.db, j, cleared, result), cleared);
    if result == TargetGranted {
      HoldTarget(s.(db := TargetClaim(s.db, j, cleared, result)), a);
    }
  }

  lemma TargetClaimSets(db: Db, j: JobId, cleared: set<JobId>)
    requires j in db.jobs
    ensures var db' := TargetClaim(db, j, cleared, TargetGranted);
      j in db'.jobs && (db'.jobs[j].target.Some? ==> db'.jobs[j].targetClaimed)
  {}

  lemma HoldTarget(s: System, a: AttemptId)
    requires ProcessesOk(s) && At(s, a, SourceReady)
    requires s.db.jobs[s.db.attempts[a].job].target.Some? ==> s.db.jobs[s.db.attempts[a].job].targetClaimed
    ensures ProcessesOk(s.(progress := s.progress[a := TargetHeld]))
  {
    assert ProgressOk(s, a);
    MoveProcesses(s, a, TargetHeld);
  }

  lemma FlagProcesses(s: System, db': Db, cleared: set<JobId>)
    requires ProcessesOk(s) && db'.attempts == s.db.attempts
    requires forall o | o in cleared :: !Unsafe(s.db, o)
    requires forall k | k in s.db.jobs :: FlagOnly(s.db, db', k, cleared)
    ensures ProcessesOk(s.(db := db'))
  {
    forall b | b in s.db.attempts ensures ProgressKept(s, s.(db := db'), b) {
      assert ProgressOk(s, b) && FlagOnly(s.db, db', s.db.attempts[b].job, cleared);
    }
    ProcessesFrame(s, s.(db := db'), {});
  }

  lemma AuthorizeProcesses(s: System, a: AttemptId, phase: string)
    requires Inv(s) && At(s, a, TargetHeld)
    ensures var j, token := s.db.attempts[a].job, s.db.attempts[a].token;
      ProcessesOk(System(Phase(s.db, j, token, phase, true),
                         s.progress[a := if Authorized(s.db, j, token).Some? then EngineAllowed else Exited]))
  {
    var j, token := s.db.attempts[a].job, s.db.attempts[a].token;
    var s' := System(Phase(s.db, j, token, phase, true),
                     s.progress[a := if Authorized(s.db, j, token).Some? then EngineAllowed else Exited]);
    assert ProgressOk(s, a);
    if Authorized(s.db, j, token).Some? {
      AuthorizedFacts(s.db, j, token);
      LocalProcesses(s, s', j, a);
    } else {
      MoveProcesses(s, a, Exited);
    }
  }

  lemma RecoverOneProcesses(s: System, j: JobId)
    requires Inv(s) && Expired(s.db, j)
    ensures ProcessesOk(s.(db := RecoverOne(s.db, j)))
  {
    ExpiredFacts(s.db, j);
    var a := s.db.jobs[j].current.value;
    assert ProgressOk(s, a);
    LocalProcesses(s, s.(db := RecoverOne(s.db, j)), j, a);
  }

  lemma {:induction false} RecoverProcesses(s: System, order: seq<JobId>, rest: seq<JobId>)
    requires Inv(s) && AllExpired(s.db, order + rest)
    ensures Inv(s.(db := Recover(s.db, order)))
  {
    RecoverKeeps(s.db, order, rest);
    if order != [] {
      var head, last := order[..|order| - 1], order[|order| - 1];
      assert order + rest == head + ([last] + rest);
      RecoverProcesses(s, head, [last] + rest);
      RecoverKeeps(s.db, head, [last] + rest);
      assert ([last] + rest)[0] == last;
      RecoverOneProcesses(s.(db := Recover(s.db, head)), last);
    }
  }

  lemma ConfirmProcesses(s: System, a: AttemptId, token: Token)
    requires Inv(s) && KnownStopped(s, token)
    ensures ProcessesOk(s.(db := ConfirmStopped(s.db, a, token)))
  {
    if a in s.db.attempts && s.db.attempts[a].token == token && s.db.attempts[a].state == ExpiredUnconfirmed {
      assert AttemptOk(s.db, a) && ProgressOk(s, a);
      LocalProcesses(s, s.(db := ConfirmStopped(s.db, a, token)), s.db.attempts[a].job, a);
    }
  }

  lemma ReleaseProcesses(s: System, j: JobId, token: Token, stopped: bool)
    requires Inv(s)
    ensures ProcessesOk(s.(db := Release(s.db, j, token, stopped)))
  {
    if stopped && Releasable(s.db, j, token) {
      var a := s.db.jobs[j].current.value;
      assert AttemptOk(s.db, a) && ProgressOk(s, a);
      LocalProcesses(s, s.(db := Release(s.db, j, token, stopped)), j, a);
    }
  }

  // ---- The step lemma ----

  lemma TableStep(s: System, step: Step, lease: Time)
    requires Inv(s) && Enabled(s, step, lease)
    requires step.Tick? || step.AdmitJob? || step.RegisterSource? || step.StoreSet? || step.DeleteSet? || step.ClaimJob?
    ensures Inv(Apply(s, step, lease))
  {
    var db := s.db;
    match step
    case AdmitJob(j, job) => AdmitKeeps(db, j, job); AdmitProcesses(s, j, job);
    case ClaimJob(j, a, token, _, _, _) => ClaimKeeps(db, j, a, token, lease); ClaimProcesses(s, j, a, token, lease);
    case _ =>
      var db' := Apply(s, step, lease).db;
      SameRows(db, db');
      SameRowsProcesses(s, db');
  }

  lemma RenewStep(s: System, j: JobId, token: Token, delay: Time, lease: Time)
    requires Inv(s)
    ensures Inv(s.(db := Heartbeat(s.db, j, token, lease, delay)))
  {
    var db' := Heartbeat(s.db, j, token, lease, delay);
    HeartbeatKeeps(s.db, j, token, lease, delay);
    if Authorized(s.db, j, token).Some? {
      AuthorizedFacts(s.db, j, token);
      GuardedProcesses(s, db', j, token);
    } else {
      SameRowsProcesses(s, db');
    }
  }

  lemma LabelStep(s: System, j: JobId, token: Token, phase: string)
    requires Inv(s)
    ensures Inv(s.(db := Phase(s.db, j, token, phase, false)))
  {
    PhaseKeeps(s.db, j, token, phase, false);
    if Authorized(s.db, j, token).Some? {
      AuthorizedFacts(s.db, j, token);
      GuardedProcesses(s, Phase(s.db, j, token, phase, false), j, token);
    }
  }

  lemma PinStep(s: System, b: BuildId, sha: Sha, token: Token)
    requires Inv(s)
    ensures Inv(s.(db := PinSource(s.db, b, sha, token)))
  {
    PinKeeps(s.db, b, sha, token);
    if PinVerdict(s.db, b, sha, token) == Pinned {
      AuthorizedFacts(s.db, s.db.builds[b].run, token);
      GuardedProcesses(s, PinSource(s.db, b, sha, token), s.db.builds[b].run, token);
    }
  }

  lemma AttachStep(s: System, j: JobId, token: Token, t: SetId, digest: Option<Digest>)
    requires Inv(s)
    ensures Inv(s.(db := AttachInput(s.db, j, token, t, digest)))
  {
    AttachKeeps(s.db, j, token, t, digest);
    if AttachVerdict(s.db, j, token, t) == Attached {
      AuthorizedFacts(s.db, j, token);
      GuardedProcesses(s, AttachInput(s.db, j, token, t, digest), j, token);
    }
  }

  lemma FinishStep(s: System, j: JobId, token: Token, out: Option<SetId>, delay: Time)
    requires Inv(s) && KnownStopped(s, token)
    ensures Inv(s.(db := Finish(s.db, j, token, out, delay)))
  {
    FinishKeeps(s.db, j, token, out, delay);
    if FinishVerdict(s.db, j, token, out, delay) == Committed {
      AuthorizedFacts(s.db, j, token);
      GuardedProcesses(s, Finish(s.db, j, token, out, delay), j, token);
    } else {
      SameRowsProcesses(s, Finish(s.db, j, token, out, delay));
    }
  }

  lemma FailStep(s: System, j: JobId, token: Token, code: string, stopped: bool)
    requires Inv(s) && (stopped ==> KnownStopped(s, token))
    ensures Inv(s.(db := Fail(s.db, j, token, code, stopped)))
  {
    FailKeeps(s.db, j, token, code, stopped);
    if Authorized(s.db, j, token).Some? {
      AuthorizedFacts(s.db, j, token);
      GuardedProcesses(s, Fail(s.db, j, token, code, stopped), j, token);
    }
  }

  lemma GuardedStep(s: System, step: Step, lease: Time)
    requires Inv(s) && Enabled(s, step, lease)
    requires step.Renew? || step.Label? || step.Pin? || step.Attach? || step.FinishJob? || step.FailJob?
    ensures Inv(Apply(s, step, lease))
  {
    match step
    case Renew(j, token, delay) => RenewStep(s, j, token, delay, lease);
    case Label(j, token, phase) => LabelStep(s, j, token, phase);
    case Pin(b, sha, token) => PinStep(s, b, sha, token);
    case Attach(j, token, t, digest) => AttachStep(s, j, token, t, digest);
    case FinishJob(j, token, out, delay) => FinishStep(s, j, token, out, delay);
    case FailJob(j, token, code, stopped) => FailStep(s, j, token, code, stopped);
  }

  lemma OutcomeStep(s: System, step: Step, lease: Time)
    requires Inv(s) && Enabled(s, step, lease)
    requires step.ReleaseTarget? || step.RecoverJobs? || step.Confirm?
    ensures Inv(Apply(s, step, lease))
  {
    match step
    case ReleaseTarget(j, token, stopped) => ReleaseKeeps(s.db, j, token, stopped); ReleaseProcesses(s, j, token, stopped);
    case RecoverJobs(order) =>
      assert order + [] == order;
      RecoverProcesses(s, order, []);
    case Confirm(a, token) => ConfirmKeeps(s.db, a, token); ConfirmProcesses(s, a, token);
  }

  lemma ProcessStep(s: System, step: Step, lease: Time)
    requires Inv(s) && Enabled(s, step, lease)
    requires step.SourceFixed? || step.ClaimTarget? || step.AuthorizeEngine? || step.EnterEngine? || step.Exit?
    ensures Inv(Apply(s, step, lease))
  {
    var db := s.db;
    match step
    case ClaimTarget(a, cleared, result) =>
      TargetClaimKeeps(db, db.attempts[a].job, db.attempts[a].token, cleared, result);
      TargetClaimProcesses(s, a, cleared, result);
    case AuthorizeEngine(a, phase) =>
      assert ProgressOk(s, a);
      if Authorized(db, db.attempts[a].job, db.attempts[a].token).Some? {
        AuthorizedFacts(db, db.attempts[a].job, db.attempts[a].token);
        TokenNames(db, a, Authorized(db, db.attempts[a].job, db.attempts[a].token).value);
      }
      PhaseKeeps(db, db.attempts[a].job, db.attempts[a].token, phase, true);
      AuthorizeProcesses(s, a, phase);
    case SourceFixed(a) => assert ProgressOk(s, a); MoveProcesses(s, a, SourceReady);
    case EnterEngine(a) => assert ProgressOk(s, a); MoveProcesses(s, a, InEngine);
    case Exit(a) => assert ProgressOk(s, a); MoveProcesses(s, a, Exited);
  }

  lemma TokenNames(db: Db, a: AttemptId, b: AttemptId)
    requires Identified(db) && a in db.attempts && b in db.attempts && db.attempts[a].token == db.attempts[b].token
    ensures a == b
  {}

  lemma StepKeeps(s: System, step: Step, lease: Time)
    requires Inv(s) && Enabled(s, step, lease)
    ensures Inv(Apply(s, step, lease))
  {
    if step.Tick? || step.AdmitJob? || step.RegisterSource? || step.StoreSet? || step.DeleteSet? || step.ClaimJob? {
      TableStep(s, step, lease);
    } else if step.Renew? || step.Label? || step.Pin? || step.Attach? || step.FinishJob? || step.FailJob? {
      GuardedStep(s, step, lease);
    } else if step.ReleaseTarget? || step.RecoverJobs? || step.Confirm? {
      OutcomeStep(s, step, lease);
    } else {
      ProcessStep(s, step, lease);
    }
  }
}
