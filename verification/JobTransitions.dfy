/** What the transactions of a run do to the rows, said of the rows alone. */
module JobTransitions {
  import opened Common
  import opened Jobs
  import opened JobProtocol
  import opened Publication
  import opened JobRuns
  import opened Fencing

  // ---- Who may write ----

  /** Attempt `a` of job `j` is executing under this token, and its lease is alive. */
  predicate Holds(db: Db, j: JobId, token: Token, a: AttemptId) {
    && a in db.attempts && db.attempts[a].job == j && db.attempts[a].token == token
    && db.attempts[a].state == Executing && db.attempts[a].leaseExpiresAt > db.now
  }

  /** Status and current attempt of the job need not be asked for: an executing attempt has both. */
  lemma HolderIsAuthorized(db: Db, j: JobId, token: Token, a: AttemptId)
    requires Lifecycle(db)
    ensures Authorized(db, j, token) == Some(a) <==> Holds(db, j, token, a)
  {
    if Authorized(db, j, token) == Some(a) { AuthorizedFacts(db, j, token); }
    if Holds(db, j, token, a) { assert AttemptOk(db, a) && JobOk(db, j); }
  }

  lemma NobodyIsAuthorized(db: Db, j: JobId, token: Token)
    requires Lifecycle(db) && forall a :: !Holds(db, j, token, a)
    ensures Authorized(db, j, token).None?
  {
    if Authorized(db, j, token).Some? { HolderIsAuthorized(db, j, token, Authorized(db, j, token).value); }
  }

  lemma AtStep(states: seq<System>, steps: seq<Step>, lease: Time, k: nat)
    requires IsRun(states, steps, lease) && k < |steps|
    ensures Safe(states[k]) && Safe(states[k + 1]) && Enabled(states[k], steps[k], lease)
    ensures states[k + 1] == Apply(states[k], steps[k], lease)
  {
    RunSafe(states, steps, lease, k);
    RunSafe(states, steps, lease, k + 1);
    assert Next(states, steps, lease, k);
  }

  // ---- The queue ----

  /** Jobs are handed out in order: whatever else was waiting, due, compatible and not locked became available no
      earlier than the job claimed, and on a tie was created no earlier. */
  lemma NoOvertaking(states: seq<System>, steps: seq<Step>, lease: Time, k: nat, j: JobId, other: JobId)
    requires IsRun(states, steps, lease) && k < |steps| && steps[k].ClaimJob? && steps[k].j == j
    requires var db := states[k].db;
      && other in db.jobs && db.jobs[other].status == Queued && db.jobs[other].availableAt <= db.now
      && db.jobs[other].config in steps[k].configs && db.jobs[other].toolchain == steps[k].toolchain
      && other !in steps[k].locked
    ensures var db := states[k].db;
      && j in db.jobs && db.jobs[j].status == Queued && db.jobs[j].availableAt <= db.now
      && db.jobs[j].config in steps[k].configs && db.jobs[j].toolchain == steps[k].toolchain && j !in steps[k].locked
      && db.jobs[j].availableAt <= db.jobs[other].availableAt
      && (db.jobs[j].availableAt == db.jobs[other].availableAt ==> db.jobs[j].createdAt <= db.jobs[other].createdAt)
  {
    AtStep(states, steps, lease, k);
    assert Eligible(states[k].db, other, steps[k].configs, steps[k].toolchain);
  }

  /** A claim gives its job a next attempt that is executing under a fresh token and a full lease. */
  lemma ClaimStarts(states: seq<System>, steps: seq<Step>, lease: Time, k: nat)
    requires IsRun(states, steps, lease) && k < |steps| && steps[k].ClaimJob?
    ensures var db, db' := states[k].db, states[k + 1].db;
      && steps[k].j in db.jobs && steps[k].a !in db.attempts && Started(db, db', steps[k].j, steps[k].a, lease)
      && (forall j, b :: Holds(db', j, steps[k].token, b) <==> j == steps[k].j && b == steps[k].a && lease > 0)
  {
    AtStep(states, steps, lease, k);
    ClaimRows(states[k].db, steps[k].j, steps[k].a, steps[k].token, lease);
    ClaimHolds(states[k].db, steps[k].j, steps[k].a, steps[k].token, lease);
  }

  /** The job runs its next attempt, which prepares under a full lease; no other row differs. */
  predicate Started(db: Db, db': Db, j: JobId, a: AttemptId, lease: Time)
    requires j in db.jobs
  {
    && db' == db.(jobs := db'.jobs, attempts := db'.attempts) && db.jobs[j].current.None?
    && db'.jobs == db.jobs[j := db.jobs[j].(status := Running, attemptNo := db.jobs[j].attemptNo + 1, current := Some(a))]
    && a in db'.attempts && db'.attempts == db.attempts[a := db'.attempts[a]]
    && db'.attempts[a].leaseExpiresAt == db.now + lease && db'.attempts[a].stage == Preparing
    && db'.attempts[a].number == db'.jobs[j].attemptNo && db'.attempts[a].stopConfirmedAt.None?
  }

  lemma ClaimRows(db: Db, j: JobId, a: AttemptId, token: Token, lease: Time)
    requires JobsOk(db) && j in db.jobs && db.jobs[j].status == Queued
    ensures Started(db, Claim(db, j, a, token, lease), j, a, lease)
  {
    assert JobOk(db, j);
  }

  lemma ClaimHolds(db: Db, j: JobId, a: AttemptId, token: Token, lease: Time)
    requires j in db.jobs && forall b | b in db.attempts :: db.attempts[b].token != token
    ensures forall k, b :: Holds(Claim(db, j, a, token, lease), k, token, b) <==> (k == j && b == a && lease > 0)
  {}

  // ---- Writes under a token ----

  /** The value may be fixed: it is not fixed yet, or fixed to the same. */
  predicate Fits(fixed: Option<nat>, value: nat) {
    fixed.None? || fixed.value == value
  }

  /** All that a write by the holder changes, for each kind of guarded step. */
  predicate HolderWrote(db: Db, db': Db, step: Step, lease: Time, j: JobId, a: AttemptId)
    requires j in db.jobs && a in db.attempts
  {
    match step
    case Renew(_, _, delay) =>
      db' == db.(now := db.now + delay,
                 attempts := db.attempts[a := db.attempts[a].(leaseExpiresAt := db.now + delay + lease)])
    case Label(_, _, phase) => db' == db.(jobs := db.jobs[j := db.jobs[j].(phase := phase)])
    case AuthorizeEngine(_, phase) =>
      db' == db.(jobs := db.jobs[j := db.jobs[j].(phase := phase)],
                 attempts := db.attempts[a := db.attempts[a].(stage := External)])
    case Pin(b, sha, _) =>
      b in db.builds &&
      db' == if Fits(db.builds[b].commit, sha)
             then db.(builds := db.builds[b := BuildRow(j, Some(sha))],
                      jobs := db.jobs[j := db.jobs[j].(commit := Some(sha))])
             else db
    case Attach(_, _, t, digest) =>
      db' == if t in db.sets && db.sets[t].state == Sealed && db.sets[t].project == db.jobs[j].project
                && Fits(db.jobs[j].input, t)
             then db.(jobs := db.jobs[j := db.jobs[j].(input := Some(t),
                                                       digest := if digest.Some? then digest else db.jobs[j].digest)])
             else db
    case FailJob(_, _, code, stopped) =>
      db' == db.(jobs := db.jobs[j := db.jobs[j].(status := Failed, error := Some(Reported(code)))],
                 attempts := db.attempts[a := db.attempts[a].(state := if stopped then Broken else ExpiredUnconfirmed,
                                                              stopConfirmedAt := if stopped then Some(db.now) else None)])
    case _ => true
  }

  /** The job a guarded step acts on. */
  function JobOf(db: Db, step: Step): Option<JobId> {
    match step
    case Renew(j, _, _) => Some(j)
    case Label(j, _, _) => Some(j)
    case AuthorizeEngine(a, _) => if a in db.attempts then Some(db.attempts[a].job) else None
    case Pin(b, _, _) => if b in db.builds then Some(db.builds[b].run) else None
    case Attach(j, _, _, _) => Some(j)
    case FailJob(j, _, _, _) => Some(j)
    case _ => None
  }

  lemma HolderWrites(s: System, step: Step, lease: Time, j: JobId, token: Token, a: AttemptId)
    requires Enabled(s, step, lease) && JobOf(s.db, step) == Some(j) && TokenOf(s.db, step) == Some(token)
    requires Authorized(s.db, j, token) == Some(a)
    ensures HolderWrote(s.db, Apply(s, step, lease).db, step, lease, j, a)
  {
    match step {
      case Pin(b, sha, _) => PinWrites(s.db, b, sha, token);
      case Attach(_, _, t, digest) => AttachWrites(s.db, j, token, t, digest);
      case _ =>
    }
  }

  lemma PinWrites(db: Db, b: BuildId, sha: Sha, token: Token)
    requires b in db.builds && Authorized(db, db.builds[b].run, token).Some?
    ensures var j := db.builds[b].run;
      PinSource(db, b, sha, token) ==
        if Fits(db.builds[b].commit, sha)
        then db.(builds := db.builds[b := BuildRow(j, Some(sha))], jobs := db.jobs[j := db.jobs[j].(commit := Some(sha))])
        else db
  {}

  lemma AttachWrites(db: Db, j: JobId, token: Token, t: SetId, digest: Option<Digest>)
    requires Authorized(db, j, token).Some?
    ensures AttachInput(db, j, token, t, digest) ==
      if t in db.sets && db.sets[t].state == Sealed && db.sets[t].project == db.jobs[j].project && Fits(db.jobs[j].input, t)
      then db.(jobs := db.jobs[j := db.jobs[j].(input := Some(t), digest := if digest.Some? then digest else db.jobs[j].digest)])
      else db
  {}

  lemma OthersWriteNothing(s: System, step: Step, lease: Time, j: JobId, token: Token)
    requires Enabled(s, step, lease) && JobOf(s.db, step) == Some(j) && TokenOf(s.db, step) == Some(token)
    requires Authorized(s.db, j, token).None?
    ensures Apply(s, step, lease).db == s.db.(now := Apply(s, step, lease).db.now)
  {}

  /** A guarded step has its full effect exactly when its token belongs to an executing attempt of the job with a live
      lease: nobody else is needed, nobody else succeeds, and nothing but the rows named changes. */
  lemma HolderAlone(states: seq<System>, steps: seq<Step>, lease: Time, k: nat, j: JobId, token: Token)
    requires IsRun(states, steps, lease) && k < |steps|
    requires JobOf(states[k].db, steps[k]) == Some(j) && TokenOf(states[k].db, steps[k]) == Some(token)
    ensures var db, db' := states[k].db, states[k + 1].db;
      && (forall a | Holds(db, j, token, a) :: j in db.jobs && HolderWrote(db, db', steps[k], lease, j, a))
      && ((forall a :: !Holds(db, j, token, a)) ==> db' == db.(now := db'.now))
  {
    AtStep(states, steps, lease, k);
    var db := states[k].db;
    forall a | Holds(db, j, token, a) ensures j in db.jobs && HolderWrote(db, states[k + 1].db, steps[k], lease, j, a) {
      HolderIsAuthorized(db, j, token, a);
      HolderWrites(states[k], steps[k], lease, j, token, a);
    }
    if forall a :: !Holds(db, j, token, a) {
      NobodyIsAuthorized(db, j, token);
      OthersWriteNothing(states[k], steps[k], lease, j, token);
    }
  }

  // ---- Recovery ----

  /** What a recovery pass makes of one job in it, and of the attempt whose lease ran out. */
  predicate Recovered(db: Db, db': Db, j: JobId, a: AttemptId)
    requires j in db.jobs && a in db.attempts && j in db'.jobs && a in db'.attempts
  {
    var job, job', attempt' := db.jobs[j], db'.jobs[j], db'.attempts[a];
    var external := db.attempts[a].stage == External;
    && (job'.status == Queued && job'.current.None? <==>
          !external && job.retry == PreparationOnly && job.attemptNo < job.maxAttempts)
    && (job'.status == Queued ==>
          job' == job.(status := Queued, current := None, availableAt := db.now + if job.attemptNo == 1 then 5 else 15))
    && (job'.status != Queued ==>
          job' == job.(status := Failed, error := Some(if external then OutcomeUnknown else LeaseExpired)))
    && attempt' == db.attempts[a].(state := if external then ExpiredUnconfirmed else Stopped,
                                   stopConfirmedAt := if external then None else Some(db.now))
  }

  lemma RecoveredRows(db: Db, db': Db, j: JobId, a: AttemptId)
    requires j in db.jobs && a in db.attempts && JobOk(db, j) && AttemptOk(db, a) && db.jobs[j].current == Some(a)
    requires j in db'.jobs && db'.jobs[j] == RecoveredJob(db.jobs[j], db.attempts[a].stage, db.now)
    requires a in db'.attempts && db'.attempts[a] == RecoveredAttempt(db.attempts[a], db.now)
    ensures Recovered(db, db', j, a)
  {}

  lemma {:induction false} RecoverFrame(db: Db, order: seq<JobId>)
    ensures var db' := Recover(db, order);
      && db' == db.(jobs := db'.jobs, attempts := db'.attempts)
      && db'.jobs.Keys == db.jobs.Keys && db'.attempts.Keys == db.attempts.Keys
  {
    if order != [] { RecoverFrame(db, order[..|order| - 1]); }
  }

  /** Attempts that are not the current one of a job in the pass stay as they are. */
  lemma {:induction false} RecoverOtherAttempts(db: Db, order: seq<JobId>, rest: seq<JobId>, a: AttemptId)
    requires Lifecycle(db) && AllExpired(db, order + rest) && a in db.attempts
    requires db.attempts[a].job !in order || db.jobs[db.attempts[a].job].current != Some(a)
    ensures a in Recover(db, order).attempts && Recover(db, order).attempts[a] == db.attempts[a]
  {
    if order != [] {
      var head, last := order[..|order| - 1], order[|order| - 1];
      assert order == head + [last];
      ExpiredSplit(db, head, last, rest);
      RecoverOtherAttempts(db, head, [last] + rest, a);
      RecoverPointwise(db, head, [last] + rest, last);
      assert JobOk(db, last);
    }
  }

  /** A job of the pass was running under a lease that had run out. */
  predicate RecoveredHere(db: Db, db': Db, j: JobId) {
    && j in db.jobs && db.jobs[j].status == Running && db.jobs[j].current.Some?
    && var a := db.jobs[j].current.value;
    && a in db.attempts && db.attempts[a].leaseExpiresAt <= db.now
    && j in db'.jobs && a in db'.attempts && Recovered(db, db', j, a)
  }

  lemma OneRecovered(db: Db, order: seq<JobId>, j: JobId)
    requires Lifecycle(db) && AllExpired(db, order) && j in order
    ensures RecoveredHere(db, Recover(db, order), j)
  {
    assert order + [] == order && Expired(db, j);
    ExpiredFacts(db, j);
    RecoverPointwise(db, order, [], j);
    RecoveredRows(db, Recover(db, order), j, db.jobs[j].current.value);
  }

  /** Over a run: each job of a recovery pass is queued again exactly when its attempt was still preparing, it may be
      retried and it has attempts left, after 5 seconds the first time and 15 later; otherwise it fails, with an unknown
      outcome exactly when the attempt was external. Nothing else changes. */
  lemma RecoveryExact(states: seq<System>, steps: seq<Step>, lease: Time, k: nat, order: seq<JobId>)
    requires IsRun(states, steps, lease) && k < |steps| && steps[k] == RecoverJobs(order)
    ensures var db, db' := states[k].db, states[k + 1].db;
      && db' == db.(jobs := db'.jobs, attempts := db'.attempts)
      && db'.jobs.Keys == db.jobs.Keys && db'.attempts.Keys == db.attempts.Keys
      && (forall j | j in order :: RecoveredHere(db, db', j))
      && (forall j | j in db.jobs && j !in order :: db'.jobs[j] == db.jobs[j])
      && (forall a | a in db.attempts && !InPass(db, order, a) :: db'.attempts[a] == db.attempts[a])
  {
    AtStep(states, steps, lease, k);
    var db, db' := states[k].db, states[k + 1].db;
    assert order + [] == order;
    RecoverFrame(db, order);
    forall j | j in order ensures RecoveredHere(db, db', j) { OneRecovered(db, order, j); }
    forall j | j in db.jobs && j !in order ensures db'.jobs[j] == db.jobs[j] { RecoverPointwise(db, order, [], j); }
    forall a | a in db.attempts && !InPass(db, order, a) ensures db'.attempts[a] == db.attempts[a] {
      assert AttemptOk(db, a);
      RecoverOtherAttempts(db, order, [], a);
    }
  }

  /** The attempt is the current one of a job in the pass. */
  predicate InPass(db: Db, order: seq<JobId>, a: AttemptId)
    requires a in db.attempts
  {
    db.attempts[a].job in order && db.attempts[a].job in db.jobs && db.jobs[db.attempts[a].job].current == Some(a)
  }

  // ---- Stops and physical targets ----

  /** A confirmation under its own token stops an unconfirmed attempt, and does nothing else. */
  lemma ConfirmExact(states: seq<System>, steps: seq<Step>, lease: Time, k: nat, a: AttemptId, token: Token)
    requires IsRun(states, steps, lease) && k < |steps| && steps[k] == Confirm(a, token)
    ensures var db, db' := states[k].db, states[k + 1].db;
      if a in db.attempts && db.attempts[a].token == token && db.attempts[a].state == ExpiredUnconfirmed
      then db' == db.(attempts := db.attempts[a := db.attempts[a].(state := Stopped, stopConfirmedAt := Some(db.now))])
      else db' == db
  {
    AtStep(states, steps, lease, k);
  }

  /** Another job holds the physical target of `j`. */
  predicate Rival(db: Db, j: JobId, o: JobId)
    requires j in db.jobs
  {
    o in db.jobs && o != j && db.jobs[o].targetClaimed && db.jobs[o].target == db.jobs[j].target
  }

  /** Some attempt of the job has no confirmed stop. */
  predicate Unstopped(db: Db, o: JobId) {
    exists a | a in db.attempts :: db.attempts[a].job == o && db.attempts[a].stopConfirmedAt.None?
  }

  lemma UnsafeIsUnstopped(db: Db, o: JobId)
    requires AttemptsOk(db)
    ensures Unsafe(db, o) <==> Unstopped(db, o)
  {
    forall a | a in db.attempts ensures Active(db.attempts[a].state) <==> db.attempts[a].stopConfirmedAt.None? {
      assert AttemptOk(db, a);
    }
  }

  /** The attempt holds its job, and the target is free or taken by nobody who may still write. */
  predicate Grantable(db: Db, a: AttemptId)
    requires a in db.attempts && db.attempts[a].job in db.jobs
  {
    var j := db.attempts[a].job;
    && Holds(db, j, db.attempts[a].token, a)
    && (db.jobs[j].target.None? || forall o | o in db.jobs && Rival(db, j, o) :: !Unstopped(db, o))
  }

  /** The job at hand and its rivals after a claim: nothing of them changes but who holds the target. */
  predicate ClaimFlags(db: Db, db': Db, j: JobId, granted: bool)
    requires j in db.jobs && db'.jobs.Keys == db.jobs.Keys
  {
    forall o | o in db.jobs ::
      && db'.jobs[o] == db.jobs[o].(targetClaimed := db'.jobs[o].targetClaimed)
      && (o != j && !Rival(db, j, o) ==> db'.jobs[o].targetClaimed == db.jobs[o].targetClaimed)
      && (granted && Rival(db, j, o) ==> !db'.jobs[o].targetClaimed)
      && (Rival(db, j, o) && Unstopped(db, o) ==> db'.jobs[o].targetClaimed)
  }

  /** A target is granted exactly to a holder no rival of which has an unstopped attempt, or that needs no target; then
      it is the only one to hold it. A refusal takes no target from anyone who may still write. */
  lemma TargetClaimExact(states: seq<System>, steps: seq<Step>, lease: Time, k: nat, a: AttemptId, cleared: set<JobId>,
                         result: TargetResult)
    requires IsRun(states, steps, lease) && k < |steps| && steps[k] == ClaimTarget(a, cleared, result)
    ensures a in states[k].db.attempts && states[k].db.attempts[a].job in states[k].db.jobs
    ensures var db, db', j := states[k].db, states[k + 1].db, states[k].db.attempts[a].job;
      && db' == db.(jobs := db'.jobs) && db'.jobs.Keys == db.jobs.Keys
      && (result == TargetGranted <==> Grantable(db, a))
      && ClaimFlags(db, db', j, result == TargetGranted && db.jobs[j].target.Some?)
      && db'.jobs[j].targetClaimed == (db.jobs[j].targetClaimed || (result == TargetGranted && db.jobs[j].target.Some?))
      && (At(states[k + 1], a, TargetHeld) <==> result == TargetGranted)
  {
    AtStep(states, steps, lease, k);
    var db := states[k].db;
    assert AttemptOk(db, a);
    TargetClaimRowsExact(db, a, cleared, result);
  }

  lemma TargetVerdict(db: Db, a: AttemptId, cleared: set<JobId>, result: TargetResult)
    requires Lifecycle(db) && a in db.attempts && db.attempts[a].job in db.jobs
    requires TargetOutcome(db, db.attempts[a].job, db.attempts[a].token, cleared, result)
    ensures var j := db.attempts[a].job;
      && (result == TargetGranted <==> Grantable(db, a))
      && (forall o | o in cleared :: Rival(db, j, o) && !Unstopped(db, o))
      && (result == TargetGranted && db.jobs[j].target.Some? ==> forall o | Rival(db, j, o) :: o in cleared)
  {
    var j, token := db.attempts[a].job, db.attempts[a].token;
    if Authorized(db, j, token).Some? {
      AuthorizedFacts(db, j, token);
      TokenNames(db, a, Authorized(db, j, token).value);
    }
    HolderIsAuthorized(db, j, token, a);
    forall o ensures Rival(db, j, o) <==> o in Owners(db, j) {}
    forall o ensures Unsafe(db, o) <==> Unstopped(db, o) { UnsafeIsUnstopped(db, o); }
  }

  lemma TargetClaimRowsExact(db: Db, a: AttemptId, cleared: set<JobId>, result: TargetResult)
    requires Lifecycle(db) && a in db.attempts && db.attempts[a].job in db.jobs
    requires TargetOutcome(db, db.attempts[a].job, db.attempts[a].token, cleared, result)
    ensures var j := db.attempts[a].job; var db' := TargetClaim(db, j, cleared, result);
      && db' == db.(jobs := db'.jobs) && db'.jobs.Keys == db.jobs.Keys
      && (result == TargetGranted <==> Grantable(db, a))
      && ClaimFlags(db, db', j, result == TargetGranted && db.jobs[j].target.Some?)
      && db'.jobs[j].targetClaimed == (db.jobs[j].targetClaimed || (result == TargetGranted && db.jobs[j].target.Some?))
  {
    var j := db.attempts[a].job;
    TargetVerdict(db, a, cleared, result);
    TargetClaimEffect(db, j, cleared, result);
    forall o | o in db.jobs ensures FlagAfter(db, TargetClaim(db, j, cleared, result).jobs, j, cleared, result, o) {
      OneFlag(db, j, cleared, result, o);
    }
  }

  predicate FlagAfter(db: Db, jobs: map<JobId, Job>, j: JobId, cleared: set<JobId>, result: TargetResult, o: JobId)
    requires j in db.jobs && o in db.jobs
  {
    && o in jobs
    && jobs[o].targetClaimed == if o == j && result == TargetGranted && db.jobs[j].target.Some? then true
                                else db.jobs[o].targetClaimed && o !in cleared
  }

  lemma OneFlag(db: Db, j: JobId, cleared: set<JobId>, result: TargetResult, o: JobId)
    requires j in db.jobs && o in db.jobs
    ensures FlagAfter(db, TargetClaim(db, j, cleared, result).jobs, j, cleared, result, o)
  {}

  /** The job holds its target, is not waiting for another attempt, and the stop of its last one, the token's, is on
      record. */
  predicate LastIsStopped(db: Db, j: JobId, token: Token) {
    && j in db.jobs && db.jobs[j].targetClaimed && db.jobs[j].status != Queued
    && exists a :: a in db.attempts && db.attempts[a].job == j && db.attempts[a].token == token
                   && db.attempts[a].number == db.jobs[j].attemptNo && db.attempts[a].stopConfirmedAt.Some?
  }

  /** A target is given up exactly when the caller says so under the token of the job's last attempt and the stop of
      that attempt is on record. */
  lemma ReleaseExact(states: seq<System>, steps: seq<Step>, lease: Time, k: nat, j: JobId, token: Token, stopped: bool)
    requires IsRun(states, steps, lease) && k < |steps| && steps[k] == ReleaseTarget(j, token, stopped)
    ensures var db, db' := states[k].db, states[k + 1].db;
      && (db' != db <==> stopped && LastIsStopped(db, j, token))
      && (db' != db ==> db' == db.(jobs := db.jobs[j := db.jobs[j].(targetClaimed := false)]))
  {
    AtStep(states, steps, lease, k);
    ReleasableExact(states[k].db, j, token);
  }

  lemma ReleasableExact(db: Db, j: JobId, token: Token)
    requires Lifecycle(db)
    ensures Releasable(db, j, token) <==> LastIsStopped(db, j, token)
  {
    if j in db.jobs {
      assert JobOk(db, j);
      forall a | a in db.attempts && db.attempts[a].job == j && db.attempts[a].number == db.jobs[j].attemptNo
                 && db.jobs[j].status != Queued
        ensures db.jobs[j].current == Some(a) && AttemptOk(db, a)
      {
        assert AttemptOk(db, a);
      }
    }
  }

  // ---- Rows that appear and disappear ----

  /** A job's input or output, a project's source, a set's source, or in the making by an attempt that may go on. */
  predicate InUse(db: Db, t: SetId) {
    || (exists j | j in db.jobs :: Some(t) in {db.jobs[j].input, db.jobs[j].output})
    || t in db.projectSources.Values
    || (exists u | u in db.sets :: db.sets[u].source == Some(t))
    || (t in db.sets && exists a | a in db.attempts :: db.sets[t].producer == Some(a) && db.attempts[a].stopConfirmedAt.None?)
  }

  lemma ReferencedIsInUse(db: Db, t: SetId)
    requires AttemptsOk(db) && t in db.sets
    ensures Referenced(db, t) <==> InUse(db, t)
  {
    ProducerMayGoOn(db, t);
    forall p | p in db.projectSources && db.projectSources[p] == t ensures t in db.projectSources.Values {}
  }

  lemma ProducerMayGoOn(db: Db, t: SetId)
    requires AttemptsOk(db) && t in db.sets
    ensures var producer := db.sets[t].producer;
      (producer.Some? && producer.value in db.attempts && Active(db.attempts[producer.value].state)) <==>
      exists a | a in db.attempts :: producer == Some(a) && db.attempts[a].stopConfirmedAt.None?
  {
    forall a | a in db.attempts ensures Active(db.attempts[a].state) <==> db.attempts[a].stopConfirmedAt.None? {
      assert AttemptOk(db, a);
    }
  }

  /** A set is deleted exactly when it is not in use. */
  lemma CollectExact(states: seq<System>, steps: seq<Step>, lease: Time, k: nat, t: SetId)
    requires IsRun(states, steps, lease) && k < |steps| && steps[k] == DeleteSet(t)
    ensures var db := states[k].db;
      states[k + 1].db == db.(sets := if t in db.sets && !InUse(db, t) then db.sets - {t} else db.sets)
  {
    AtStep(states, steps, lease, k);
    if t in states[k].db.sets { ReferencedIsInUse(states[k].db, t); }
  }

  /** Admission inserts the job as requested and the row of its build, and touches nothing else. */
  lemma AdmitExact(states: seq<System>, steps: seq<Step>, lease: Time, k: nat, j: JobId, job: Job)
    requires IsRun(states, steps, lease) && k < |steps| && steps[k] == AdmitJob(j, job)
    ensures var db, db' := states[k].db, states[k + 1].db;
      && j !in db.jobs && db'.jobs == db.jobs[j := job]
      && db' == db.(jobs := db'.jobs, builds := db'.builds)
      && (job.build.None? ==> db'.builds == db.builds)
      && (job.build.Some? ==>
            && job.build.value !in db.builds && db'.builds == db.builds[job.build.value := BuildRow(j, job.commit)])
      && (job.input.Some? ==>
            && job.input.value in db.sets && db.sets[job.input.value].state == Sealed
            && db.sets[job.input.value].project == job.project)
  {
    AtStep(states, steps, lease, k);
  }

  // ---- What the callers are told ----

  ghost predicate Held(db: Db, j: JobId, token: Token) {
    exists a :: Holds(db, j, token, a)
  }

  lemma HeldIsAuthorized(db: Db, j: JobId, token: Token)
    requires Lifecycle(db)
    ensures Held(db, j, token) <==> Authorized(db, j, token).Some?
    ensures Authorized(db, j, token).Some? ==> j in db.jobs && Holds(db, j, token, Authorized(db, j, token).value)
  {
    if Held(db, j, token) {
      var a :| Holds(db, j, token, a);
      HolderIsAuthorized(db, j, token, a);
    }
    if Authorized(db, j, token).Some? {
      HolderIsAuthorized(db, j, token, Authorized(db, j, token).value);
    }
  }

  /** Attaching and pinning, for any state of a run: which answer, exactly. */
  lemma AnswersExact(states: seq<System>, steps: seq<Step>, lease: Time, k: nat, j: JobId, token: Token, t: SetId, b: BuildId,
                     sha: Sha)
    requires IsRun(states, steps, lease) && k < |states|
    ensures var db, attached := states[k].db, AttachVerdict(states[k].db, j, token, t);
      && (attached == AttachLeaseLost <==> !Held(db, j, token))
      && (attached != AttachLeaseLost ==>
            && j in db.jobs
            && var usable := t in db.sets && db.sets[t].state == Sealed && db.sets[t].project == db.jobs[j].project;
            && (attached == InvalidSource <==> !usable)
            && (attached == InputImmutable <==> usable && !Fits(db.jobs[j].input, t)))
    ensures var db, pinned := states[k].db, PinVerdict(states[k].db, b, sha, token);
      && (pinned == PinLeaseLost <==> b !in db.builds || !Held(db, db.builds[b].run, token))
      && (pinned == CommitImmutable <==>
            b in db.builds && Held(db, db.builds[b].run, token) && !Fits(db.builds[b].commit, sha))
  {
    RunSafe(states, steps, lease, k);
    HeldIsAuthorized(states[k].db, j, token);
    if b in states[k].db.builds { HeldIsAuthorized(states[k].db, states[k].db.builds[b].run, token); }
  }

  /** Some evidence is not fixed yet, or the set shows another. */
  predicate EvidenceDiffers(job: Job, output: ArtifactSet) {
    || job.input.None? || job.commit.None? || job.digest.None?
    || output.source != job.input || output.commit != job.commit || output.digest != job.digest
    || output.config != Some(job.config) || output.toolchain != Some(job.toolchain)
  }

  /** What speaks against an output. */
  predicate Objects(db: Db, j: JobId, a: AttemptId, out: Option<SetId>, error: FinishError)
    requires j in db.jobs
  {
    match error
    case MissingOutput => out.None?
    case ForeignAttempt =>
      out.Some? && (out.value in db.sets ==> db.sets[out.value].producer != Some(a) || db.sets[out.value].kind != ExecutionSet)
    case ForeignProject => out.Some? && out.value in db.sets && db.sets[out.value].project != db.jobs[j].project
    case EvidenceConflict =>
      out.Some? && out.value in db.sets && db.jobs[j].build.Some? && EvidenceDiffers(db.jobs[j], db.sets[out.value])
    case MissingArtifacts => out.Some? && out.value in db.sets && MANIFEST_PATH !in db.sets[out.value].files
    case Unsealable => out.Some? && out.value in db.sets && !db.sets[out.value].intact
  }

  function Rank(error: FinishError): nat {
    match error
    case MissingOutput => 0 case ForeignAttempt => 1 case ForeignProject => 2
    case EvidenceConflict => 3 case MissingArtifacts => 4 case Unsealable => 5
  }

  /** Nothing earlier speaks against it. */
  ghost predicate FirstObjection(db: Db, j: JobId, a: AttemptId, out: Option<SetId>, error: FinishError)
    requires j in db.jobs
  {
    Objects(db, j, a, out, error) && forall d :: Objects(db, j, a, out, d) ==> Rank(error) <= Rank(d)
  }

  /** Finishing, for any state of a run: the holder is told the first thing that speaks against its output; without one it
      commits if it still holds the job after sealing, and anybody else has lost the lease. */
  lemma FinishAnswers(states: seq<System>, steps: seq<Step>, lease: Time, k: nat, j: JobId, token: Token, out: Option<SetId>,
                      delay: Time)
    requires IsRun(states, steps, lease) && k < |states|
    ensures var db, answer := states[k].db, FinishVerdict(states[k].db, j, token, out, delay);
      && (!Held(db, j, token) ==> answer == LeaseLost)
      && (forall a | Holds(db, j, token, a) :: HolderIsTold(db, j, token, out, delay, a))
  {
    RunSafe(states, steps, lease, k);
    HeldIsAuthorized(states[k].db, j, token);
    forall a: AttemptId | Holds(states[k].db, j, token, a) ensures HolderIsTold(states[k].db, j, token, out, delay, a) {
      HolderAnswer(states[k].db, j, token, out, delay, a);
    }
  }

  ghost predicate HolderIsTold(db: Db, j: JobId, token: Token, out: Option<SetId>, delay: Time, a: AttemptId) {
    var answer := FinishVerdict(db, j, token, out, delay);
    && j in db.jobs && a in db.attempts
    && (forall e :: answer == Rejected(e) <==> FirstObjection(db, j, a, out, e))
    && ((forall e :: !Objects(db, j, a, out, e)) ==>
          answer == if db.attempts[a].leaseExpiresAt > db.now + delay then Committed else LeaseLost)
  }

  lemma HolderAnswer(db: Db, j: JobId, token: Token, out: Option<SetId>, delay: Time, a: AttemptId)
    requires Lifecycle(db) && Holds(db, j, token, a)
    ensures HolderIsTold(db, j, token, out, delay, a)
  {
    HolderIsAuthorized(db, j, token, a);
    FirstObjects(db, j, a, out);
    var objection, answer := FinishObjection(db, j, a, out), FinishVerdict(db, j, token, out, delay);
    assert answer.Rejected? <==> objection.Some?;
    if objection.Some? {
      forall e | FirstObjection(db, j, a, out, e) ensures e == objection.value {
        assert Rank(e) == Rank(objection.value);
      }
    }
  }

  lemma FirstObjects(db: Db, j: JobId, a: AttemptId, out: Option<SetId>)
    requires j in db.jobs
    ensures FinishObjection(db, j, a, out).Some? ==> FirstObjection(db, j, a, out, FinishObjection(db, j, a, out).value)
    ensures FinishObjection(db, j, a, out).None? ==> forall e :: !Objects(db, j, a, out, e)
  {}
}
