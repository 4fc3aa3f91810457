/** The rows of the job queue and the effect of each of its transactions.
    One `Db` value is a snapshot of the tables; every transaction is a function from snapshot to snapshot. */
module Jobs {
  import opened Common

  type Time = nat
  type JobId = nat
  type AttemptId = nat
  type Token = nat
  type SetId = nat
  type BuildId = nat
  type ProjectId = nat
  type TargetKey = nat
  type Sha = nat
  type Digest = nat
  type Version = nat

  const MANIFEST_PATH := "target/manifest.json"
  const FIRST_RETRY_DELAY: Time := 5
  const LATER_RETRY_DELAY: Time := 15

  datatype JobStatus = Queued | Running | Succeeded | Failed
  datatype RetryPolicy = PreparationOnly | Never
  datatype ErrorCode = OutcomeUnknown | LeaseExpired | Reported(code: string)

  datatype Job = Job(
    project: ProjectId, build: Option<BuildId>, target: Option<TargetKey>, targetClaimed: bool,
    input: Option<SetId>, output: Option<SetId>, commit: Option<Sha>, digest: Option<Digest>,
    config: Version, toolchain: Version, status: JobStatus, phase: string,
    attemptNo: nat, current: Option<AttemptId>, availableAt: Time, createdAt: Time,
    maxAttempts: nat, retry: RetryPolicy, error: Option<ErrorCode>)

  datatype Stage = Preparing | External
  datatype AttemptState = Executing | Finished | Broken | ExpiredUnconfirmed | Stopped

  datatype Attempt = Attempt(
    job: JobId, number: nat, token: Token, leaseExpiresAt: Time, stage: Stage, state: AttemptState,
    stopConfirmedAt: Option<Time>)

  datatype SetKind = SourceSet | ExecutionSet
  datatype SetState = Staging | Sealed

  /** `intact` is the verdict of the content check on the stored file rows, which never change once inserted. */
  datatype ArtifactSet = ArtifactSet(
    project: ProjectId, producer: Option<AttemptId>, kind: SetKind, state: SetState, source: Option<SetId>,
    commit: Option<Sha>, digest: Option<Digest>, config: Option<Version>, toolchain: Option<Version>,
    files: set<string>, intact: bool)

  datatype BuildRow = BuildRow(run: JobId, commit: Option<Sha>)

  datatype Db = Db(
    now: Time, jobs: map<JobId, Job>, attempts: map<AttemptId, Attempt>, sets: map<SetId, ArtifactSet>,
    builds: map<BuildId, BuildRow>, projectSources: map<ProjectId, SetId>)

  /** Attempt states in which the warehouse may still be written to. */
  predicate Active(state: AttemptState) {
    state == Executing || state == ExpiredUnconfirmed
  }

  predicate Terminal(status: JobStatus) {
    status == Succeeded || status == Failed
  }

  /** The attempt a token speaks for, when the job still runs it and its lease is alive. */
  function Authorized(db: Db, j: JobId, token: Token): Option<AttemptId> {
    if j !in db.jobs || db.jobs[j].status != Running || db.jobs[j].current.None? then None
    else
      var a := db.jobs[j].current.value;
      if a in db.attempts && db.attempts[a].state == Executing && db.attempts[a].token == token
         && db.attempts[a].leaseExpiresAt > db.now
      then Some(a) else None
  }

  function PutJob(db: Db, j: JobId, job: Job): Db {
    db.(jobs := db.jobs[j := job])
  }

  function PutAttempt(db: Db, a: AttemptId, attempt: Attempt): Db {
    db.(attempts := db.attempts[a := attempt])
  }

  // ---- Admission ----

  /** A job row as it is inserted: never claimed, no output, nothing attempted. */
  predicate NewJob(job: Job) {
    && !job.targetClaimed && job.output.None? && job.status == Queued && job.attemptNo == 0
    && job.current.None? && job.maxAttempts >= 1 && job.error.None?
  }

  /** An input given at admission must be a sealed set of the same project. */
  predicate InputAvailable(db: Db, job: Job) {
    job.input.Some? ==>
      && job.input.value in db.sets && db.sets[job.input.value].state == Sealed
      && db.sets[job.input.value].project == job.project
  }

  /** A build and its job are inserted by the same transaction and agree on the requested commit. */
  function Admit(db: Db, j: JobId, job: Job): Db {
    var admitted := PutJob(db, j, job);
    if job.build.Some? then admitted.(builds := db.builds[job.build.value := BuildRow(j, job.commit)]) else admitted
  }

  // ---- Claiming ----

  predicate Eligible(db: Db, j: JobId, configs: set<Version>, toolchain: Version) {
    && j in db.jobs && db.jobs[j].status == Queued && db.jobs[j].availableAt <= db.now
    && db.jobs[j].config in configs && db.jobs[j].toolchain == toolchain
  }

  /** Queue order: availability first, then age. */
  predicate NoLater(x: Job, y: Job) {
    x.availableAt < y.availableAt || (x.availableAt == y.availableAt && x.createdAt <= y.createdAt)
  }

  ghost predicate FirstEligible(db: Db, j: JobId, configs: set<Version>, toolchain: Version, locked: set<JobId>) {
    && Eligible(db, j, configs, toolchain) && j !in locked
    && forall k | Eligible(db, k, configs, toolchain) && k !in locked :: NoLater(db.jobs[j], db.jobs[k])
  }

  function Claim(db: Db, j: JobId, a: AttemptId, token: Token, lease: Time): Db
    requires j in db.jobs
  {
    var job := db.jobs[j];
    var attempt := Attempt(j, job.attemptNo + 1, token, db.now + lease, Preparing, Executing, None);
    PutJob(PutAttempt(db, a, attempt), j,
           job.(status := Running, attemptNo := job.attemptNo + 1, current := Some(a)))
  }

  // ---- Guarded updates by the holder of a lease ----

  /** The clock moves by `delay` between the authorization check and the renewal. */
  function Heartbeat(db: Db, j: JobId, token: Token, lease: Time, delay: Time): Db {
    var auth := Authorized(db, j, token);
    var later := db.(now := db.now + delay);
    if auth.None? then later
    else PutAttempt(later, auth.value, db.attempts[auth.value].(leaseExpiresAt := later.now + lease))
  }

  function Phase(db: Db, j: JobId, token: Token, phase: string, external: bool): Db {
    var auth := Authorized(db, j, token);
    if auth.None? then db
    else
      var labelled := PutJob(db, j, db.jobs[j].(phase := phase));
      if external then PutAttempt(labelled, auth.value, db.attempts[auth.value].(stage := External)) else labelled
  }

  datatype AttachResult = Attached | AttachLeaseLost | InvalidSource | InputImmutable

  function AttachVerdict(db: Db, j: JobId, token: Token, s: SetId): AttachResult {
    if Authorized(db, j, token).None? then AttachLeaseLost
    else if s !in db.sets || db.sets[s].state != Sealed || db.sets[s].project != db.jobs[j].project then InvalidSource
    else if db.jobs[j].input.Some? && db.jobs[j].input.value != s then InputImmutable
    else Attached
  }

  function AttachInput(db: Db, j: JobId, token: Token, s: SetId, digest: Option<Digest>): Db {
    if AttachVerdict(db, j, token, s) != Attached then db
    else
      var job := db.jobs[j];
      PutJob(db, j, job.(input := Some(s), digest := if digest.Some? then digest else job.digest))
  }

  datatype PinResult = Pinned | PinLeaseLost | CommitImmutable

  function PinVerdict(db: Db, b: BuildId, sha: Sha, token: Token): PinResult {
    if b !in db.builds || Authorized(db, db.builds[b].run, token).None? then PinLeaseLost
    else if db.builds[b].commit.Some? && db.builds[b].commit.value != sha then CommitImmutable
    else Pinned
  }

  function PinSource(db: Db, b: BuildId, sha: Sha, token: Token): Db {
    if PinVerdict(db, b, sha, token) != Pinned then db
    else
      var row := db.builds[b];
      PutJob(db.(builds := db.builds[b := row.(commit := Some(sha))]), row.run,
             db.jobs[row.run].(commit := Some(sha)))
  }

  // ---- Outcomes ----

  datatype FinishError = MissingOutput | ForeignAttempt | ForeignProject | EvidenceConflict | MissingArtifacts | Unsealable
  datatype FinishResult = Committed | LeaseLost | Rejected(error: FinishError)

  /** The output repeats the evidence fixed for the build: source set, commit, digest, configuration, toolchain. */
  predicate EvidenceMatches(job: Job, output: ArtifactSet) {
    && job.input.Some? && output.source == job.input
    && job.commit.Some? && output.commit == job.commit
    && job.digest.Some? && output.digest == job.digest
    && output.config == Some(job.config) && output.toolchain == Some(job.toolchain)
  }

  /** A set that attempt `a` may publish as the output of its job. */
  predicate Publishable(db: Db, j: JobId, a: AttemptId, out: SetId)
    requires j in db.jobs
  {
    && out in db.sets
    && var job, output := db.jobs[j], db.sets[out];
    && output.producer == Some(a) && output.kind == ExecutionSet && output.project == job.project
    && (job.build.Some? ==> EvidenceMatches(job, output))
    && MANIFEST_PATH in output.files && output.intact
  }

  /** Checks made before sealing, in the order of the source; None when all pass. */
  function FinishObjection(db: Db, j: JobId, a: AttemptId, out: Option<SetId>): Option<FinishError>
    requires j in db.jobs
  {
    var job := db.jobs[j];
    if out.None? then Some(MissingOutput)
    else if out.value !in db.sets || db.sets[out.value].producer != Some(a)
            || db.sets[out.value].kind != ExecutionSet then Some(ForeignAttempt)
    else
      var output := db.sets[out.value];
      if output.project != job.project then Some(ForeignProject)
      else if job.build.Some? && !EvidenceMatches(job, output) then Some(EvidenceConflict)
      else if MANIFEST_PATH !in output.files then Some(MissingArtifacts)
      else if !output.intact then Some(Unsealable)
      else None
  }

  function Seal(db: Db, s: SetId): Db
    requires s in db.sets
  {
    db.(sets := db.sets[s := db.sets[s].(state := Sealed)])
  }

  /** Sealing takes `delay`; authorization is checked again before anything is kept. */
  function FinishVerdict(db: Db, j: JobId, token: Token, out: Option<SetId>, delay: Time): FinishResult {
    var auth := Authorized(db, j, token);
    if auth.None? then LeaseLost
    else
      var objection := FinishObjection(db, j, auth.value, out);
      if objection.Some? then Rejected(objection.value)
      else if Authorized(db.(now := db.now + delay), j, token).None? then LeaseLost
      else Committed
  }

  function Finish(db: Db, j: JobId, token: Token, out: Option<SetId>, delay: Time): Db {
    var later := db.(now := db.now + delay);
    if FinishVerdict(db, j, token, out, delay) != Committed then later
    else
      var a := Authorized(db, j, token).value;
      var sealed := Seal(later, out.value);
      PutJob(PutAttempt(sealed, a, db.attempts[a].(state := Finished, stopConfirmedAt := Some(later.now))), j,
             db.jobs[j].(status := Succeeded, output := out, error := None))
  }

  function Fail(db: Db, j: JobId, token: Token, code: string, stopped: bool): Db {
    var auth := Authorized(db, j, token);
    if auth.None? then db
    else
      var attempt := db.attempts[auth.value];
      PutJob(PutAttempt(db, auth.value,
                        attempt.(state := if stopped then Broken else ExpiredUnconfirmed,
                                 stopConfirmedAt := if stopped then Some(db.now) else None)), j,
             db.jobs[j].(status := Failed, error := Some(Reported(code))))
  }

  // ---- Recovery of expired leases ----

  predicate Expired(db: Db, j: JobId) {
    && j in db.jobs && (db.jobs[j].status == Queued || db.jobs[j].status == Running)
    && db.jobs[j].current.Some? && db.jobs[j].current.value in db.attempts
    && db.attempts[db.jobs[j].current.value].leaseExpiresAt <= db.now
  }

  predicate Retries(job: Job, stage: Stage) {
    job.attemptNo < job.maxAttempts && job.retry != Never && stage != External
  }

  function RecoveredJob(job: Job, stage: Stage, now: Time): Job {
    if Retries(job, stage)
    then job.(status := Queued, current := None,
              availableAt := now + if job.attemptNo <= 1 then FIRST_RETRY_DELAY else LATER_RETRY_DELAY)
    else job.(status := Failed, error := Some(if stage == External then OutcomeUnknown else LeaseExpired))
  }

  function RecoveredAttempt(attempt: Attempt, now: Time): Attempt {
    if attempt.stage == External then attempt.(state := ExpiredUnconfirmed, stopConfirmedAt := None)
    else attempt.(state := Stopped, stopConfirmedAt := Some(now))
  }

  /** One turn of the recovery loop. */
  function RecoverOne(db: Db, j: JobId): Db {
    if j !in db.jobs || db.jobs[j].current.None? || db.jobs[j].current.value !in db.attempts then db
    else
      var a := db.jobs[j].current.value;
      PutJob(PutAttempt(db, a, RecoveredAttempt(db.attempts[a], db.now)), j,
             RecoveredJob(db.jobs[j], db.attempts[a].stage, db.now))
  }

  /** The whole loop, over the jobs in the order the query returned them. */
  function Recover(db: Db, order: seq<JobId>): Db {
    if order == [] then db else RecoverOne(Recover(db, order[..|order| - 1]), order[|order| - 1])
  }

  function ConfirmStopped(db: Db, a: AttemptId, token: Token): Db {
    if a in db.attempts && db.attempts[a].token == token && db.attempts[a].state == ExpiredUnconfirmed
    then PutAttempt(db, a, db.attempts[a].(state := Stopped, stopConfirmedAt := Some(db.now)))
    else db
  }

  // ---- Physical targets ----

  /** Other jobs recorded as holding the physical target of `j`. */
  function Owners(db: Db, j: JobId): set<JobId>
    requires j in db.jobs
  {
    set o | o in db.jobs && o != j && db.jobs[o].targetClaimed && db.jobs[o].target == db.jobs[j].target
  }

  /** Some attempt of the job may still be writing. */
  predicate Unsafe(db: Db, o: JobId) {
    exists a | a in db.attempts :: db.attempts[a].job == o && Active(db.attempts[a].state)
  }

  function ClearClaims(db: Db, owners: set<JobId>): Db {
    db.(jobs := map o | o in db.jobs :: if o in owners then db.jobs[o].(targetClaimed := false) else db.jobs[o])
  }

  datatype TargetResult = TargetGranted | TargetRefused

  /** A refused claim keeps the releases made before the unsafe owner was met: `cleared`. */
  ghost predicate TargetOutcome(db: Db, j: JobId, token: Token, cleared: set<JobId>, result: TargetResult) {
    if Authorized(db, j, token).None? then cleared == {} && result == TargetRefused
    else if db.jobs[j].target.None? then cleared == {} && result == TargetGranted
    else
      && cleared <= Owners(db, j) && (forall o | o in cleared :: !Unsafe(db, o))
      && (result == TargetGranted <==> cleared == Owners(db, j))
      && (result == TargetRefused ==> exists o | o in Owners(db, j) :: Unsafe(db, o))
  }

  function TargetClaim(db: Db, j: JobId, cleared: set<JobId>, result: TargetResult): Db {
    var freed := ClearClaims(db, cleared);
    if result == TargetGranted && j in freed.jobs && freed.jobs[j].target.Some?
    then PutJob(freed, j, freed.jobs[j].(targetClaimed := true)) else freed
  }

  /** Releasing needs the stop evidence of the job's current attempt, whatever the caller declares. */
  predicate Releasable(db: Db, j: JobId, token: Token) {
    && j in db.jobs && db.jobs[j].targetClaimed && db.jobs[j].current.Some?
    && var a := db.jobs[j].current.value;
    && a in db.attempts && db.attempts[a].job == j && db.attempts[a].token == token
    && !Active(db.attempts[a].state) && db.attempts[a].stopConfirmedAt.Some?
  }

  function Release(db: Db, j: JobId, token: Token, stopped: bool): Db {
    if stopped && Releasable(db, j, token) then PutJob(db, j, db.jobs[j].(targetClaimed := false)) else db
  }

  // ---- Artifact sets ----

  /** A set without a producer is sealed by the transaction that inserts it. */
  predicate NewSet(db: Db, s: ArtifactSet) {
    && (s.producer.Some? ==> s.producer.value in db.attempts && s.state == Staging)
    && (s.producer.None? ==> s.state == Sealed && s.intact)
    && (s.source.Some? ==> s.source.value in db.sets)
  }

  predicate Referenced(db: Db, s: SetId) {
    || (exists j | j in db.jobs :: db.jobs[j].input == Some(s) || db.jobs[j].output == Some(s))
    || (exists p | p in db.projectSources :: db.projectSources[p] == s)
    || (exists t | t in db.sets :: db.sets[t].source == Some(s))
    || (s in db.sets && db.sets[s].producer.Some? && db.sets[s].producer.value in db.attempts
        && Active(db.attempts[db.sets[s].producer.value].state))
  }

  function DeleteUnreferenced(db: Db, s: SetId): Db {
    if s !in db.sets || Referenced(db, s) then db else db.(sets := db.sets - {s})
  }
}
