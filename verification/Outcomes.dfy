/** Why jobs wait, are tried again, or fail, over whole runs. */
module Outcomes {
  import opened Common
  import opened Jobs
  import opened JobProtocol
  import opened Publication
  import opened JobRuns
  import opened Fencing
  import opened JobTransitions

  /** Nothing that decides on a job's future differs. */
  predicate SameFuture(db: Db, db': Db, j: JobId)
    requires j in db.jobs
  {
    && j in db'.jobs
    && var job, job' := db.jobs[j], db'.jobs[j];
    && job'.status == job.status && job'.error == job.error && job'.attemptNo == job.attemptNo && job'.current == job.current
    && job'.availableAt == job.availableAt && job'.createdAt == job.createdAt
    && job'.maxAttempts == job.maxAttempts && job'.retry == job.retry
  }

  /** The steps that may move a job on: its claim, its outcome, its recovery. */
  predicate Moves(step: Step, j: JobId) {
    match step
    case ClaimJob(k, _, _, _, _, _) => k == j
    case FinishJob(k, _, _, _) => k == j
    case FailJob(k, _, _, _) => k == j
    case RecoverJobs(order) => j in order
    case _ => false
  }

  lemma GuardedRest(db: Db, step: Step, lease: Time, j: JobId)
    requires j in db.jobs && !Moves(step, j)
    ensures match step
      case Renew(k, token, delay) => SameFuture(db, Heartbeat(db, k, token, lease, delay), j)
      case Label(k, token, phase) => SameFuture(db, Phase(db, k, token, phase, false), j)
      case Pin(b, sha, token) => SameFuture(db, PinSource(db, b, sha, token), j)
      case Attach(k, token, t, digest) => SameFuture(db, AttachInput(db, k, token, t, digest), j)
      case FinishJob(k, token, out, delay) => SameFuture(db, Finish(db, k, token, out, delay), j)
      case FailJob(k, token, code, stopped) => SameFuture(db, Fail(db, k, token, code, stopped), j)
      case _ => true
  {}

  lemma GuardedRests(s: System, step: Step, lease: Time, j: JobId)
    requires Enabled(s, step, lease) && j in s.db.jobs && !Moves(step, j)
    requires step.Renew? || step.Label? || step.Pin? || step.Attach? || step.FinishJob? || step.FailJob?
    ensures SameFuture(s.db, Apply(s, step, lease).db, j)
  {
    GuardedRest(s.db, step, lease, j);
  }

  lemma TargetRests(db: Db, o: JobId, cleared: set<JobId>, result: TargetResult, j: JobId)
    requires j in db.jobs
    ensures SameFuture(db, TargetClaim(db, o, cleared, result), j)
  {
    TargetClaimEffect(db, o, cleared, result);
    assert FlagOnly(db, TargetClaim(db, o, cleared, result), j, cleared);
  }

  /** No other step moves a job. */
  lemma Rests(s: System, step: Step, lease: Time, j: JobId)
    requires Safe(s) && Enabled(s, step, lease) && j in s.db.jobs && !Moves(step, j)
    ensures SameFuture(s.db, Apply(s, step, lease).db, j)
  {
    if step.Renew? || step.Label? || step.Pin? || step.Attach? || step.FinishJob? || step.FailJob? {
      GuardedRests(s, step, lease, j);
    } else if step.ClaimTarget? {
      TargetRests(s.db, s.db.attempts[step.a].job, step.cleared, step.result, j);
    } else if step.RecoverJobs? {
      assert step.order + [] == step.order;
      RecoverPointwise(s.db, step.order, [], j);
    } else {
      OtherRests(s, step, lease, j);
    }
  }

  lemma OtherRests(s: System, step: Step, lease: Time, j: JobId)
    requires Enabled(s, step, lease) && j in s.db.jobs && !Moves(step, j)
    requires !(step.Renew? || step.Label? || step.Pin? || step.Attach? || step.FinishJob? || step.FailJob?)
    requires !step.ClaimTarget? && !step.RecoverJobs?
    ensures SameFuture(s.db, Apply(s, step, lease).db, j)
  {
    match step {
      case AuthorizeEngine(a, phase) => PhaseRests(s.db, s.db.attempts[a].job, s.db.attempts[a].token, phase, j);
      case ReleaseTarget(k, token, stopped) => ReleaseRests(s.db, k, token, stopped, j);
      case _ =>
    }
  }

  lemma PhaseRests(db: Db, k: JobId, token: Token, phase: string, j: JobId)
    requires j in db.jobs
    ensures SameFuture(db, Phase(db, k, token, phase, true), j)
  {}

  lemma ReleaseRests(db: Db, k: JobId, token: Token, stopped: bool, j: JobId)
    requires j in db.jobs
    ensures SameFuture(db, Release(db, k, token, stopped), j)
  {}

  // ---- Waiting for a retry ----

  /** A waiting job is moved by nothing but its claim. */
  lemma WaitingRests(s: System, step: Step, lease: Time, j: JobId)
    requires Safe(s) && Enabled(s, step, lease) && j in s.db.jobs && s.db.jobs[j].status == Queued
    ensures if step.ClaimJob? && step.j == j
            then j in Apply(s, step, lease).db.jobs
              && Apply(s, step, lease).db.jobs[j].attemptNo == s.db.jobs[j].attemptNo + 1
            else SameFuture(s.db, Apply(s, step, lease).db, j)
  {
    assert JobOk(s.db, j) && !Expired(s.db, j);
    if !Moves(step, j) {
      Rests(s, step, lease, j);
    } else if step.FinishJob? || step.FailJob? {
      NobodyMoves(s, step, lease, j);
    }
  }

  lemma NobodyMoves(s: System, step: Step, lease: Time, j: JobId)
    requires Enabled(s, step, lease) && j in s.db.jobs && s.db.jobs[j].status != Running
    requires (step.FinishJob? || step.FailJob?) && step.j == j
    ensures SameFuture(s.db, Apply(s, step, lease).db, j)
  {}

  /** Until its next attempt, a waiting job keeps its place in the queue. */
  lemma {:induction false} KeepsWaiting(states: seq<System>, steps: seq<Step>, lease: Time, i: nat, k: nat, j: JobId)
    requires IsRun(states, steps, lease) && i <= k < |states|
    requires j in states[i].db.jobs && states[i].db.jobs[j].status == Queued
    requires j in states[k].db.jobs && states[k].db.jobs[j].attemptNo == states[i].db.jobs[j].attemptNo
    ensures SameFuture(states[i].db, states[k].db, j)
    decreases k
  {
    if i < k {
      RunEvolves(states, steps, lease, i, k - 1);
      RunEvolves(states, steps, lease, k - 1, k);
      assert JobEvolves(states[i].db, states[k - 1].db, j) && JobEvolves(states[k - 1].db, states[k].db, j);
      KeepsWaiting(states, steps, lease, i, k - 1, j);
      AtStep(states, steps, lease, k - 1);
      WaitingRests(states[k - 1], steps[k - 1], lease, j);
    }
  }

  /** A job that was put back is not tried again before its delay is over: 5 seconds after a first attempt, 15 after a
      later one. */
  lemma RetryWaits(states: seq<System>, steps: seq<Step>, lease: Time, i: nat, k: nat, j: JobId)
    requires IsRun(states, steps, lease) && i < k < |steps| && steps[i].RecoverJobs? && j in steps[i].order
    requires j in states[i + 1].db.jobs && states[i + 1].db.jobs[j].status == Queued
    requires steps[k].ClaimJob? && steps[k].j == j
    requires j in states[k].db.jobs && states[k].db.jobs[j].attemptNo == states[i + 1].db.jobs[j].attemptNo
    ensures j in states[i].db.jobs
    ensures states[k].db.now >= states[i].db.now + if states[i].db.jobs[j].attemptNo == 1 then 5 else 15
  {
    PutBackUntil(states, steps, lease, i, j);
    KeepsWaiting(states, steps, lease, i + 1, k, j);
    RunSafe(states, steps, lease, k);
    assert Next(states, steps, lease, k);
  }

  lemma PutBackUntil(states: seq<System>, steps: seq<Step>, lease: Time, i: nat, j: JobId)
    requires IsRun(states, steps, lease) && i < |steps| && steps[i].RecoverJobs? && j in steps[i].order
    requires j in states[i + 1].db.jobs && states[i + 1].db.jobs[j].status == Queued
    ensures j in states[i].db.jobs && states[i + 1].db.jobs[j].availableAt
         == states[i].db.now + if states[i].db.jobs[j].attemptNo == 1 then 5 else 15
  {
    RecoveryExact(states, steps, lease, i, steps[i].order);
    assert RecoveredHere(states[i].db, states[i + 1].db, j);
  }

  // ---- Why a job failed ----

  /** A failed job carries the reason, and the reason is true; a job that waits for another attempt may be retried. */
  predicate Reasoned(db: Db, j: JobId)
    requires j in db.jobs
  {
    var job := db.jobs[j];
    && (job.error.Some? <==> job.status == Failed)
    && (job.status == Failed ==>
          && job.current.Some? && job.current.value in db.attempts
          && var attempt := db.attempts[job.current.value];
          && attempt.state != Executing
          && match job.error.value
             case LeaseExpired => attempt.stage == Preparing && (job.retry == Never || job.attemptNo == job.maxAttempts)
             case OutcomeUnknown => attempt.stage == External
             case Reported(_) => true)
    && (job.status == Queued && job.attemptNo > 0 ==> job.retry == PreparationOnly)
  }

  lemma RestReasoned(db: Db, db': Db, j: JobId)
    requires Lifecycle(db) && Evolves(db, db') && j in db.jobs && Reasoned(db, j) && SameFuture(db, db', j)
    ensures Reasoned(db', j)
  {
    if db.jobs[j].current.Some? && db.jobs[j].current.value in db.attempts {
      assert AttemptEvolves(db, db', db.jobs[j].current.value);
    }
  }

  lemma FailReasoned(db: Db, j: JobId, token: Token, code: string, stopped: bool)
    requires Lifecycle(db) && j in db.jobs && Reasoned(db, j)
    ensures var db' := Fail(db, j, token, code, stopped); j in db'.jobs && Reasoned(db', j)
  {
    if Authorized(db, j, token).Some? { AuthorizedFacts(db, j, token); }
  }

  lemma FinishReasoned(db: Db, j: JobId, token: Token, out: Option<SetId>, delay: Time)
    requires Lifecycle(db) && j in db.jobs && Reasoned(db, j)
    ensures var db' := Finish(db, j, token, out, delay); j in db'.jobs && Reasoned(db', j)
  {
    if Authorized(db, j, token).Some? { AuthorizedFacts(db, j, token); }
  }

  lemma RecoverReasoned(db: Db, db': Db, j: JobId)
    requires Lifecycle(db) && RecoveredHere(db, db', j) && Reasoned(db, j)
    ensures Reasoned(db', j)
  {
    assert JobOk(db, j);
  }

  lemma ClaimReasoned(s: System, step: Step, lease: Time, j: JobId)
    requires Enabled(s, step, lease) && step.ClaimJob? && step.j == j && j in s.db.jobs && Reasoned(s.db, j)
    ensures var db' := Apply(s, step, lease).db; j in db'.jobs && Reasoned(db', j)
  {}

  lemma StepReasoned(states: seq<System>, steps: seq<Step>, lease: Time, k: nat, j: JobId)
    requires IsRun(states, steps, lease) && k < |steps| && j in states[k].db.jobs && Reasoned(states[k].db, j)
    ensures j in states[k + 1].db.jobs && Reasoned(states[k + 1].db, j)
  {
    AtStep(states, steps, lease, k);
    var s, step := states[k], steps[k];
    if !Moves(step, j) {
      RunEvolves(states, steps, lease, k, k + 1);
      Rests(s, step, lease, j);
      RestReasoned(s.db, states[k + 1].db, j);
    } else if step.RecoverJobs? {
      RecoveryExact(states, steps, lease, k, step.order);
      RecoverReasoned(s.db, states[k + 1].db, j);
    } else if step.FailJob? {
      FailReasoned(s.db, j, step.token, step.code, step.stopped);
    } else if step.FinishJob? {
      FinishReasoned(s.db, j, step.token, step.out, step.delay);
    } else {
      ClaimReasoned(s, step, lease, j);
    }
  }

  lemma Newcomer(s: System, step: Step, lease: Time, j: JobId)
    requires Enabled(s, step, lease) && Safe(s) && j !in s.db.jobs && j in Apply(s, step, lease).db.jobs
    ensures Reasoned(Apply(s, step, lease).db, j)
  {
    if !step.AdmitJob? && !step.ClaimJob? { StepShape(s, step, lease); }
  }

  /** In every state of every run: a job has an error exactly when it has failed; it failed for an expired lease only
      while preparing and when it may not be tried again, and with an unknown outcome only after going external; and no
      job that may not be retried waits for a second attempt. */
  lemma {:induction false} FailedForAReason(states: seq<System>, steps: seq<Step>, lease: Time, k: nat, j: JobId)
    requires IsRun(states, steps, lease) && k < |states| && j in states[k].db.jobs
    ensures Reasoned(states[k].db, j)
  {
    assert k > 0;
    if j in states[k - 1].db.jobs {
      FailedForAReason(states, steps, lease, k - 1, j);
      StepReasoned(states, steps, lease, k - 1, j);
    } else {
      AtStep(states, steps, lease, k - 1);
      Newcomer(states[k - 1], steps[k - 1], lease, j);
    }
  }
}
