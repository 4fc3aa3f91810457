/** Safety over whole runs of the job system: exclusive targets, fencing, at-most-once execution, lasting publications. */
module JobRuns {
  import opened Common
  import opened Jobs
  import opened JobProtocol
  import opened Publication

  predicate BuildLinks(db: Db) {
    forall b | b in db.builds :: db.builds[b].run in db.jobs && db.jobs[db.builds[b].run].build == Some(b)
  }

  ghost predicate HasAttempt(db: Db, j: JobId, n: nat) {
    exists a :: a in db.attempts && db.attempts[a].job == j && db.attempts[a].number == n
  }

  /** No gap in a job's attempt numbers; that they stop at `attemptNo` and do not repeat is part of the lifecycle. */
  ghost predicate Numbered(db: Db) {
    forall j, n | j in db.jobs && 1 <= n <= db.jobs[j].attemptNo :: HasAttempt(db, j, n)
  }

  ghost predicate Safe(s: System) {
    Inv(s) && Published(s.db) && BuildLinks(s.db) && Numbered(s.db)
  }

  const INITIAL: System := System(Db(0, map[], map[], map[], map[], map[]), map[])

  /** A run from the empty database: every step is one that some process may take. */
  ghost predicate IsRun(states: seq<System>, steps: seq<Step>, lease: Time) {
    && |states| == |steps| + 1 && states[0] == INITIAL
    && forall i | 0 <= i < |steps| :: Next(states, steps, lease, i)
  }

  ghost predicate Next(states: seq<System>, steps: seq<Step>, lease: Time, i: nat)
    requires |states| == |steps| + 1 && i < |steps|
  {
    Enabled(states[i], steps[i], lease) && states[i + 1] == Apply(states[i], steps[i], lease)
  }

  // ---- One step ----

  lemma GuardedSoundStep(s: System, step: Step, lease: Time)
    requires Safe(s) && Enabled(s, step, lease)
    requires step.Renew? || step.Label? || step.Pin? || step.Attach? || step.FinishJob? || step.FailJob?
    ensures Sound(s.db, Apply(s, step, lease).db)
  {
    match step
    case Renew(j, token, delay) => HeartbeatSound(s.db, j, token, lease, delay);
    case Label(j, token, phase) => PhaseSound(s.db, j, token, phase, false);
    case Pin(b, sha, token) => PinSound(s.db, b, sha, token);
    case Attach(j, token, t, digest) => AttachSound(s.db, j, token, t, digest);
    case FinishJob(j, token, out, delay) => FinishSound(s.db, j, token, out, delay);
    case FailJob(j, token, code, stopped) => FailSound(s.db, j, token, code, stopped);
  }

  lemma OtherSoundStep(s: System, step: Step, lease: Time)
    requires Safe(s) && Enabled(s, step, lease)
    requires !(step.Renew? || step.Label? || step.Pin? || step.Attach? || step.FinishJob? || step.FailJob?)
    ensures Sound(s.db, Apply(s, step, lease).db)
  {
    match step
    case AdmitJob(j, job) => AdmitSound(s.db, j, job);
    case ClaimJob(j, a, token, _, _, _) => ClaimSound(s.db, j, a, token, lease);
    case ClaimTarget(a, cleared, result) => TargetClaimSound(s.db, s.db.attempts[a].job, cleared, result);
    case AuthorizeEngine(a, phase) => PhaseSound(s.db, s.db.attempts[a].job, s.db.attempts[a].token, phase, true);
    case ReleaseTarget(j, token, stopped) => ReleaseSound(s.db, j, token, stopped);
    case RecoverJobs(order) =>
      assert order + [] == order;
      RecoverSound(s.db, order, []);
    case Confirm(a, token) => ConfirmSound(s.db, a, token);
    case Tick(_) => SetsSound(s.db, Apply(s, step, lease).db);
    case RegisterSource(_, _) => SetsSound(s.db, Apply(s, step, lease).db);
    case StoreSet(_, _) => SetsSound(s.db, Apply(s, step, lease).db);
    case DeleteSet(_) => SetsSound(s.db, Apply(s, step, lease).db);
    case SourceFixed(_) => SetsSound(s.db, s.db);
    case EnterEngine(_) => SetsSound(s.db, s.db);
    case Exit(_) => SetsSound(s.db, s.db);
  }

  lemma StepSound(s: System, step: Step, lease: Time)
    requires Safe(s) && Enabled(s, step, lease)
    ensures Sound(s.db, Apply(s, step, lease).db)
  {
    if step.Renew? || step.Label? || step.Pin? || step.Attach? || step.FinishJob? || step.FailJob? {
      GuardedSoundStep(s, step, lease);
    } else {
      OtherSoundStep(s, step, lease);
    }
  }

  /** Apart from admission and claiming, no step adds a job, a build or an attempt number. */
  predicate SameShape(db: Db, db': Db) {
    && db'.jobs.Keys == db.jobs.Keys && (forall j | j in db.jobs :: db'.jobs[j].attemptNo == db.jobs[j].attemptNo)
    && db'.builds.Keys == db.builds.Keys && (forall b | b in db.builds :: db'.builds[b].run == db.builds[b].run)
  }

  lemma {:induction false} RecoverShape(db: Db, order: seq<JobId>)
    ensures SameShape(db, Recover(db, order))
  {
    if order != [] { RecoverShape(db, order[..|order| - 1]); }
  }

  lemma PinShape(db: Db, b: BuildId, sha: Sha, token: Token)
    ensures SameShape(db, PinSource(db, b, sha, token))
  {}

  lemma TargetClaimShape(db: Db, j: JobId, cleared: set<JobId>, result: TargetResult)
    ensures SameShape(db, TargetClaim(db, j, cleared, result))
  {
    TargetClaimEffect(db, j, cleared, result);
    forall k | k in db.jobs ensures TargetClaim(db, j, cleared, result).jobs[k].attemptNo == db.jobs[k].attemptNo {
      assert FlagOnly(db, TargetClaim(db, j, cleared, result), k, cleared);
    }
  }

  lemma WrittenShape(db: Db, db': Db, j: JobId)
    requires db'.builds == db.builds
    requires db'.jobs == db.jobs ||
             (j in db.jobs && j in db'.jobs && db'.jobs == db.jobs[j := db'.jobs[j]] && db'.jobs[j].attemptNo == db.jobs[j].attemptNo)
    ensures SameShape(db, db')
  {}

  lemma GuardedShape(s: System, step: Step, lease: Time)
    requires step.Renew? || step.Label? || step.Pin? || step.Attach? || step.FinishJob? || step.FailJob?
    ensures SameShape(s.db, Apply(s, step, lease).db)
  {
    match step
    case Renew(j, token, delay) => WrittenShape(s.db, Heartbeat(s.db, j, token, lease, delay), j);
    case Label(j, token, phase) => WrittenShape(s.db, Phase(s.db, j, token, phase, false), j);
    case Pin(b, sha, token) => PinShape(s.db, b, sha, token);
    case Attach(j, token, t, digest) => WrittenShape(s.db, AttachInput(s.db, j, token, t, digest), j);
    case FinishJob(j, token, out, delay) => WrittenShape(s.db, Finish(s.db, j, token, out, delay), j);
    case FailJob(j, token, code, stopped) => WrittenShape(s.db, Fail(s.db, j, token, code, stopped), j);
  }

  lemma StepShape(s: System, step: Step, lease: Time)
    requires !step.AdmitJob? && !step.ClaimJob?
    ensures SameShape(s.db, Apply(s, step, lease).db)
  {
    if step.Renew? || step.Label? || step.Pin? || step.Attach? || step.FinishJob? || step.FailJob? {
      GuardedShape(s, step, lease);
    } else {
      match step
      case AuthorizeEngine(a, phase) =>
        if a in s.db.attempts {
          var j := s.db.attempts[a].job;
          WrittenShape(s.db, Phase(s.db, j, s.db.attempts[a].token, phase, true), j);
        }
      case ReleaseTarget(j, token, stopped) => WrittenShape(s.db, Release(s.db, j, token, stopped), j);
      case RecoverJobs(order) => RecoverShape(s.db, order);
      case ClaimTarget(a, cleared, result) =>
        if a in s.db.attempts { TargetClaimShape(s.db, s.db.attempts[a].job, cleared, result); }
      case _ =>
    }
  }

  lemma AttemptsPersist(db: Db, db': Db, j: JobId, n: nat)
    requires Evolves(db, db') && HasAttempt(db, j, n)
    ensures HasAttempt(db', j, n)
  {
    var a :| a in db.attempts && db.attempts[a].job == j && db.attempts[a].number == n;
    assert AttemptEvolves(db, db', a);
  }

  lemma ShapeKeeps(db: Db, db': Db)
    requires SameShape(db, db') && Evolves(db, db') && BuildLinks(db) && Numbered(db)
    ensures BuildLinks(db') && Numbered(db')
  {
    forall b | b in db'.builds ensures db'.builds[b].run in db'.jobs && db'.jobs[db'.builds[b].run].build == Some(b) {
      assert JobEvolves(db, db', db.builds[b].run);
    }
    forall j, n | j in db'.jobs && 1 <= n <= db'.jobs[j].attemptNo ensures HasAttempt(db', j, n) {
      AttemptsPersist(db, db', j, n);
    }
  }

  lemma AdmitLinks(db: Db, j: JobId, job: Job)
    requires BuildLinks(db) && Numbered(db) && j !in db.jobs && NewJob(job) && Evolves(db, Admit(db, j, job))
    ensures BuildLinks(Admit(db, j, job)) && Numbered(Admit(db, j, job))
  {
    var db' := Admit(db, j, job);
    AdmitBuildLinks(db, j, job);
    forall k, n | k in db'.jobs && 1 <= n <= db'.jobs[k].attemptNo ensures HasAttempt(db', k, n) {
      AttemptsPersist(db, db', k, n);
    }
  }

  lemma AdmitBuildLinks(db: Db, j: JobId, job: Job)
    requires BuildLinks(db) && j !in db.jobs
    ensures BuildLinks(Admit(db, j, job))
  {}

  lemma ClaimNumbers(db: Db, j: JobId, a: AttemptId, token: Token, lease: Time)
    requires BuildLinks(db) && Numbered(db) && j in db.jobs && Evolves(db, Claim(db, j, a, token, lease))
    ensures BuildLinks(Claim(db, j, a, token, lease)) && Numbered(Claim(db, j, a, token, lease))
  {
    var db' := Claim(db, j, a, token, lease);
    forall k, n | k in db'.jobs && 1 <= n <= db'.jobs[k].attemptNo ensures HasAttempt(db', k, n) {
      if k == j && n == db'.jobs[j].attemptNo { assert db'.attempts[a].number == n; }
      else { AttemptsPersist(db, db', k, n); }
    }
  }

  lemma StepSafe(s: System, step: Step, lease: Time)
    requires Safe(s) && Enabled(s, step, lease)
    ensures Safe(Apply(s, step, lease)) && Evolves(s.db, Apply(s, step, lease).db)
  {
    StepKeeps(s, step, lease);
    StepSound(s, step, lease);
    match step
    case AdmitJob(j, job) => AdmitLinks(s.db, j, job);
    case ClaimJob(j, a, token, _, _, _) => ClaimNumbers(s.db, j, a, token, lease);
    case _ =>
      StepShape(s, step, lease);
      ShapeKeeps(s.db, Apply(s, step, lease).db);
  }

  /** One recovery pass rewrites each expired job once and no other row, whatever the order of the pass. */
  lemma {:induction false} RecoverPointwise(db: Db, order: seq<JobId>, rest: seq<JobId>, j: JobId)
    requires Lifecycle(db) && AllExpired(db, order + rest) && j in db.jobs
    ensures var db' := Recover(db, order);
      && j in db'.jobs && db'.now == db.now
      && (j !in order ==> db'.jobs[j] == db.jobs[j])
      && (j in order ==>
            && Expired(db, j)
            && var a := db.jobs[j].current.value;
            && db'.jobs[j] == RecoveredJob(db.jobs[j], db.attempts[a].stage, db.now)
            && a in db'.attempts && db'.attempts[a] == RecoveredAttempt(db.attempts[a], db.now))
      && (j !in order && db.jobs[j].current.Some? && db.jobs[j].current.value in db.attempts ==>
            && db.jobs[j].current.value in db'.attempts
            && db'.attempts[db.jobs[j].current.value] == db.attempts[db.jobs[j].current.value])
  {
    if order != [] {
      var head, last := order[..|order| - 1], order[|order| - 1];
      assert order == head + [last];
      ExpiredSplit(db, head, last, rest);
      RecoverPointwise(db, head, [last] + rest, j);
      RecoverKeeps(db, head, [last] + rest);
      ExpiredFacts(Recover(db, head), last);
      if j != last && j in db.jobs && db.jobs[j].current.Some? { assert JobOk(db, j); }
    }
  }

  lemma ExpiredSplit(db: Db, head: seq<JobId>, last: JobId, rest: seq<JobId>)
    requires AllExpired(db, head + [last] + rest)
    ensures AllExpired(db, head + ([last] + rest)) && Expired(db, last) && last !in head && ([last] + rest)[0] == last
  {
    var all := head + [last] + rest;
    assert all == head + ([last] + rest) && all[|head|] == last;
    forall i | 0 <= i < |head| ensures head[i] != last { assert all[i] == head[i]; }
  }

  // ---- Whole runs ----

  lemma {:induction false} RunSafe(states: seq<System>, steps: seq<Step>, lease: Time, i: nat)
    requires IsRun(states, steps, lease) && i < |states|
    ensures Safe(states[i])
  {
    if i > 0 {
      RunSafe(states, steps, lease, i - 1);
      assert Next(states, steps, lease, i - 1);
      StepSafe(states[i - 1], steps[i - 1], lease);
    }
  }

  lemma {:induction false} RunEvolves(states: seq<System>, steps: seq<Step>, lease: Time, i: nat, k: nat)
    requires IsRun(states, steps, lease) && i <= k < |states|
    ensures Evolves(states[i].db, states[k].db)
    decreases k
  {
    RunSafe(states, steps, lease, i);
    if i == k {
      SameJobsEvolve(states[i].db, states[i].db);
    } else {
      RunEvolves(states, steps, lease, i, k - 1);
      RunSafe(states, steps, lease, k - 1);
      assert Next(states, steps, lease, k - 1);
      StepSafe(states[k - 1], steps[k - 1], lease);
      OutputsTerminal(states[i].db);
      EvolvesTwice(states[i].db, states[k - 1].db, states[k].db);
    }
  }

  /** Writing to a warehouse target: in the external stage, with no confirmation that it has stopped. */
  predicate MayWrite(db: Db, a: AttemptId, key: TargetKey) {
    && a in db.attempts && db.attempts[a].job in db.jobs && db.jobs[db.attempts[a].job].target == Some(key)
    && db.attempts[a].stage == External && db.attempts[a].stopConfirmedAt.None?
  }

  /** At every moment of every run, at most one attempt may be writing to a physical target. */
  lemma TargetExclusion(states: seq<System>, steps: seq<Step>, lease: Time, i: nat, key: TargetKey, a: AttemptId, b: AttemptId)
    requires IsRun(states, steps, lease) && i < |states|
    requires MayWrite(states[i].db, a, key) && MayWrite(states[i].db, b, key)
    ensures a == b
  {
    RunSafe(states, steps, lease, i);
    ExclusiveTarget(states[i].db, key, a, b);
  }

  lemma ExclusiveTarget(db: Db, key: TargetKey, a: AttemptId, b: AttemptId)
    requires Lifecycle(db) && MayWrite(db, a, key) && MayWrite(db, b, key)
    ensures a == b
  {
    assert AttemptOk(db, a) && AttemptOk(db, b);
  }

  /** The same for the processes themselves: no two engines run against one target, whatever crashed in between. */
  lemma EngineExclusion(states: seq<System>, steps: seq<Step>, lease: Time, i: nat, key: TargetKey, a: AttemptId, b: AttemptId)
    requires IsRun(states, steps, lease) && i < |states|
    requires At(states[i], a, InEngine) && At(states[i], b, InEngine)
    requires states[i].db.attempts[a].job in states[i].db.jobs && states[i].db.attempts[b].job in states[i].db.jobs
    requires states[i].db.jobs[states[i].db.attempts[a].job].target == Some(key)
    requires states[i].db.jobs[states[i].db.attempts[b].job].target == Some(key)
    ensures a == b
  {
    RunSafe(states, steps, lease, i);
    var s := states[i];
    assert ProgressOk(s, a) && ProgressOk(s, b) && AttemptOk(s.db, a) && AttemptOk(s.db, b);
    ExclusiveTarget(s.db, key, a, b);
  }

  /** An engine only ever runs on an input that was fixed before and stays fixed. */
  lemma EngineHasFixedInput(states: seq<System>, steps: seq<Step>, lease: Time, i: nat, k: nat, a: AttemptId)
    requires IsRun(states, steps, lease) && i <= k < |states| && At(states[i], a, InEngine)
    ensures var j := states[i].db.attempts[a].job;
      && j in states[i].db.jobs && states[i].db.jobs[j].input.Some?
      && j in states[k].db.jobs && states[k].db.jobs[j].input == states[i].db.jobs[j].input
      && InputAvailable(states[k].db, states[k].db.jobs[j])
  {
    RunSafe(states, steps, lease, i);
    RunSafe(states, steps, lease, k);
    RunEvolves(states, steps, lease, i, k);
    assert AttemptOk(states[i].db, a) && ProgressOk(states[i], a);
    assert JobEvolves(states[i].db, states[k].db, states[i].db.attempts[a].job);
    assert InputOk(states[k].db, states[i].db.attempts[a].job);
  }

  /** A job is running exactly when it has one executing attempt, and that attempt is its current one. */
  lemma RunningIffExecuting(states: seq<System>, steps: seq<Step>, lease: Time, i: nat, j: JobId)
    requires IsRun(states, steps, lease) && i < |states| && j in states[i].db.jobs
    ensures states[i].db.jobs[j].status == Running <==>
      exists a :: a in states[i].db.attempts && states[i].db.attempts[a].job == j && states[i].db.attempts[a].state == Executing
    ensures forall a | a in states[i].db.attempts && states[i].db.attempts[a].job == j
                       && states[i].db.attempts[a].state == Executing ::
      states[i].db.jobs[j].current == Some(a)
  {
    RunSafe(states, steps, lease, i);
    var db := states[i].db;
    assert JobOk(db, j);
    forall a | a in db.attempts && db.attempts[a].job == j && db.attempts[a].state == Executing
      ensures db.jobs[j].current == Some(a)
    {
      assert AttemptOk(db, a);
    }
  }

  /** Attempt numbers are exactly 1..attemptNo, each once, and never more than allowed. */
  lemma AttemptNumbersExact(states: seq<System>, steps: seq<Step>, lease: Time, i: nat, j: JobId)
    requires IsRun(states, steps, lease) && i < |states| && j in states[i].db.jobs
    ensures var db := states[i].db;
      && db.jobs[j].attemptNo <= db.jobs[j].maxAttempts
      && (forall n: nat :: HasAttempt(db, j, n) <==> 1 <= n <= db.jobs[j].attemptNo)
      && (forall a, b | a in db.attempts && b in db.attempts && db.attempts[a].job == j && db.attempts[b].job == j
                        && db.attempts[a].number == db.attempts[b].number :: a == b)
  {
    RunSafe(states, steps, lease, i);
    var db := states[i].db;
    assert JobOk(db, j);
    forall n: nat | HasAttempt(db, j, n) ensures 1 <= n <= db.jobs[j].attemptNo {
      var a :| a in db.attempts && db.attempts[a].job == j && db.attempts[a].number == n;
      assert AttemptOk(db, a);
    }
  }

  /** External execution happens at most once per job, and only in its last attempt; it is never retried. */
  lemma AtMostOnceExternal(states: seq<System>, steps: seq<Step>, lease: Time, i: nat, k: nat, a: AttemptId, b: AttemptId)
    requires IsRun(states, steps, lease) && i <= k < |states|
    requires a in states[i].db.attempts && states[i].db.attempts[a].stage == External
    requires b in states[k].db.attempts && states[k].db.attempts[b].job == states[i].db.attempts[a].job
    ensures a in states[k].db.attempts && states[k].db.attempts[b].number <= states[k].db.attempts[a].number
    ensures states[k].db.attempts[b].stage == External ==> b == a
  {
    RunSafe(states, steps, lease, k);
    RunEvolves(states, steps, lease, i, k);
    var db := states[k].db;
    assert AttemptEvolves(states[i].db, db, a);
    assert AttemptOk(db, a) && AttemptOk(db, b) && JobOk(db, db.attempts[a].job);
  }

  /** The stop stamp is missing exactly while the warehouse may still be written to. */
  lemma StopStampExact(states: seq<System>, steps: seq<Step>, lease: Time, i: nat, a: AttemptId)
    requires IsRun(states, steps, lease) && i < |states| && a in states[i].db.attempts
    ensures states[i].db.attempts[a].stopConfirmedAt.None? <==> states[i].db.attempts[a].state in {Executing, ExpiredUnconfirmed}
  {
    RunSafe(states, steps, lease, i);
    assert AttemptOk(states[i].db, a);
  }

  /** A finished job is never reopened, and its outcome never rewritten. */
  lemma OutcomeFinal(states: seq<System>, steps: seq<Step>, lease: Time, i: nat, k: nat, j: JobId)
    requires IsRun(states, steps, lease) && i <= k < |states|
    requires j in states[i].db.jobs && Terminal(states[i].db.jobs[j].status)
    ensures j in states[k].db.jobs
      && states[k].db.jobs[j] == states[i].db.jobs[j].(targetClaimed := states[k].db.jobs[j].targetClaimed)
  {
    RunEvolves(states, steps, lease, i, k);
    assert JobEvolves(states[i].db, states[k].db, j);
  }

  /** A published build stays published: the same sealed output and input sets, matching the same evidence, through
      every later step and every collection of unreferenced sets. */
  lemma PublicationLasts(states: seq<System>, steps: seq<Step>, lease: Time, i: nat, k: nat, j: JobId)
    requires IsRun(states, steps, lease) && i <= k < |states|
    requires j in states[i].db.jobs && states[i].db.jobs[j].status == Succeeded && states[i].db.jobs[j].build.Some?
    ensures var job := states[i].db.jobs[j];
      && job.output.Some? && job.input.Some? && job.commit.Some?
      && job.output.value in states[i].db.sets && job.output.value in states[k].db.sets
      && states[k].db.sets[job.output.value] == states[i].db.sets[job.output.value]
      && job.input.value in states[i].db.sets && job.input.value in states[k].db.sets
      && states[k].db.sets[job.input.value] == states[i].db.sets[job.input.value]
      && var output := states[k].db.sets[job.output.value];
      && output.state == Sealed && output.kind == ExecutionSet && output.intact && MANIFEST_PATH in output.files
      && output.project == job.project && job.digest.Some?
      && output.source == job.input && output.commit == job.commit && output.digest == job.digest
      && output.config == Some(job.config) && output.toolchain == Some(job.toolchain)
      && output.producer.Some? && output.producer.value in states[k].db.attempts
      && states[k].db.attempts[output.producer.value].job == j
      && job.build.value in states[k].db.builds && states[k].db.builds[job.build.value] == BuildRow(j, job.commit)
  {
    RunSafe(states, steps, lease, i);
    RunSafe(states, steps, lease, k);
    RunEvolves(states, steps, lease, i, k);
    var db, db' := states[i].db, states[k].db;
    assert OutputOk(db, j) && InputOk(db, j) && JobOk(db, j) && JobEvolves(db, db', j) && SetsEvolve(db, db', j);
    assert OutputOk(db', j) && InputOk(db', j) && JobOk(db', j);
  }

  /** The commit of a build is pinned once. */
  lemma CommitPinnedOnce(states: seq<System>, steps: seq<Step>, lease: Time, i: nat, k: nat, b: BuildId)
    requires IsRun(states, steps, lease) && i <= k < |states|
    requires b in states[i].db.builds && states[i].db.builds[b].commit.Some?
    ensures b in states[k].db.builds && states[k].db.builds[b] == states[i].db.builds[b]
  {
    RunSafe(states, steps, lease, i);
    RunSafe(states, steps, lease, k);
    RunEvolves(states, steps, lease, i, k);
    var j := states[i].db.builds[b].run;
    assert InputOk(states[i].db, j) && JobEvolves(states[i].db, states[k].db, j) && InputOk(states[k].db, j);
  }
}
