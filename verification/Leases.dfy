/** What a lease is worth over a run: where its end comes from, that it protects its holder while it lasts, and when an
    attempt turns external. */
module Leases {
  import opened Common
  import opened Jobs
  import opened JobProtocol
  import opened Publication
  import opened JobRuns
  import opened Fencing
  import opened JobTransitions

  /** The step grants attempt `a` a lease: the claim that starts it, or a heartbeat of its own while it holds its job. */
  predicate Grants(db: Db, step: Step, a: AttemptId) {
    match step
    case ClaimJob(_, b, _, _, _, _) => a == b
    case Renew(j, token, _) => Holds(db, j, token, a)
    case _ => false
  }

  /** Steps that leave every attempt as it is. */
  predicate Quiet(step: Step) {
    !(step.ClaimJob? || step.Renew? || step.AuthorizeEngine? || step.FinishJob? || step.FailJob? || step.RecoverJobs?
      || step.Confirm?)
  }

  lemma QuietKeepsAttempts(s: System, step: Step, lease: Time)
    requires Enabled(s, step, lease) && Quiet(step)
    ensures Apply(s, step, lease).db.attempts == s.db.attempts
  {
    if step.ClaimTarget? { TargetClaimEffect(s.db, s.db.attempts[step.a].job, step.cleared, step.result); }
  }

  lemma OtherRenewal(db: Db, j: JobId, token: Token, lease: Time, delay: Time, a: AttemptId)
    requires Lifecycle(db) && a in db.attempts && !Holds(db, j, token, a)
    ensures SameLease(db, Heartbeat(db, j, token, lease, delay), a)
  {
    HolderIsAuthorized(db, j, token, a);
  }

  lemma OwnRenewal(db: Db, j: JobId, token: Token, lease: Time, delay: Time, a: AttemptId)
    requires Lifecycle(db) && Holds(db, j, token, a)
    ensures var db' := Heartbeat(db, j, token, lease, delay);
      a in db'.attempts && db'.attempts[a].leaseExpiresAt == db'.now + lease
  {
    HolderIsAuthorized(db, j, token, a);
  }

  lemma OthersKeepLease(s: System, step: Step, lease: Time, a: AttemptId)
    requires Enabled(s, step, lease) && a in s.db.attempts
    requires step.AuthorizeEngine? || step.FinishJob? || step.FailJob? || step.RecoverJobs? || step.Confirm?
    ensures SameLease(s.db, Apply(s, step, lease).db, a)
  {
    match step
    case RecoverJobs(order) => RecoverKeepsLease(s.db, order, a);
    case _ => GuardedKeepsLease(s.db, step, a);
  }

  lemma SameAttempts(s: System, step: Step, lease: Time)
    requires Enabled(s, step, lease)
    requires step.AuthorizeEngine? || step.FinishJob? || step.FailJob? || step.RecoverJobs? || step.Confirm? || step.Renew?
    ensures Apply(s, step, lease).db.attempts.Keys == s.db.attempts.Keys
  {
    if step.RecoverJobs? { RecoverFrame(s.db, step.order); }
    else if step.Renew? || step.FinishJob? || step.FailJob? { GuardedApplies(s, step, lease); }
  }

  predicate Lent(db: Db, db': Db, granted: bool, lease: Time, a: AttemptId) {
    && (a in db.attempts ==> a in db'.attempts)
    && (a in db'.attempts ==>
          if granted then db'.attempts[a].leaseExpiresAt == db'.now + lease
          else a in db.attempts && SameLease(db, db', a))
  }

  lemma RenewalLends(s: System, step: Step, lease: Time, a: AttemptId)
    requires Lifecycle(s.db) && Enabled(s, step, lease) && step.Renew?
    ensures Lent(s.db, Apply(s, step, lease).db, Holds(s.db, step.j, step.token, a), lease, a)
  {
    SameAttempts(s, step, lease);
    if Holds(s.db, step.j, step.token, a) {
      OwnRenewal(s.db, step.j, step.token, lease, step.delay, a);
    } else if a in s.db.attempts {
      OtherRenewal(s.db, step.j, step.token, lease, step.delay, a);
    }
  }

  lemma ClaimLends(s: System, step: Step, lease: Time, a: AttemptId)
    requires Enabled(s, step, lease) && step.ClaimJob?
    ensures Lent(s.db, Apply(s, step, lease).db, a == step.a, lease, a)
  {}

  lemma LeaseAfterStep(states: seq<System>, steps: seq<Step>, lease: Time, k: nat, a: AttemptId)
    requires IsRun(states, steps, lease) && k < |steps|
    ensures Lent(states[k].db, states[k + 1].db, Grants(states[k].db, steps[k], a), lease, a)
  {
    RunSafe(states, steps, lease, k);
    assert Next(states, steps, lease, k);
    LentByStep(states[k], steps[k], lease, a);
  }

  lemma LentByStep(s: System, step: Step, lease: Time, a: AttemptId)
    requires Lifecycle(s.db) && Enabled(s, step, lease)
    ensures Lent(s.db, Apply(s, step, lease).db, Grants(s.db, step, a), lease, a)
  {
    if step.ClaimJob? {
      ClaimLends(s, step, lease, a);
    } else if step.Renew? {
      RenewalLends(s, step, lease, a);
    } else if Quiet(step) {
      QuietKeepsAttempts(s, step, lease);
    } else {
      SameAttempts(s, step, lease);
      if a in s.db.attempts { OthersKeepLease(s, step, lease, a); }
    }
  }

  /** The stored end of a lease is always one lease after the last grant. */
  lemma {:induction false} LeaseFromLastGrant(states: seq<System>, steps: seq<Step>, lease: Time, m: nat, a: AttemptId)
    returns (k: nat)
    requires IsRun(states, steps, lease) && m < |states| && a in states[m].db.attempts
    ensures k < m && Grants(states[k].db, steps[k], a)
    ensures states[m].db.attempts[a].leaseExpiresAt == states[k + 1].db.now + lease
    ensures forall i: nat | k < i < m :: !Grants(states[i].db, steps[i], a)
  {
    assert m > 0;
    LeaseAfterStep(states, steps, lease, m - 1, a);
    if Grants(states[m - 1].db, steps[m - 1], a) {
      k := m - 1;
    } else {
      k := LeaseFromLastGrant(states, steps, lease, m - 1, a);
    }
  }

  /** The step ends the attempt by its own token. */
  predicate Ends(step: Step, token: Token) {
    (step.FinishJob? || step.FailJob?) && step.token == token
  }

  predicate SameHolder(db: Db, db': Db, a: AttemptId)
    requires a in db.attempts
  {
    && a in db'.attempts && db'.attempts[a].job == db.attempts[a].job && db'.attempts[a].token == db.attempts[a].token
    && db'.attempts[a].state == db.attempts[a].state
  }

  lemma OthersEndTheirOwn(db: Db, step: Step, a: AttemptId)
    requires Lifecycle(db) && a in db.attempts && !Ends(step, db.attempts[a].token)
    ensures match step
      case FinishJob(j, token, out, delay) => SameHolder(db, Finish(db, j, token, out, delay), a)
      case FailJob(j, token, code, stopped) => SameHolder(db, Fail(db, j, token, code, stopped), a)
      case _ => true
  {
    if step.FinishJob? || step.FailJob? { HolderIsAuthorized(db, step.j, step.token, a); }
  }

  lemma StillExecuting(s: System, step: Step, lease: Time, a: AttemptId)
    requires Lifecycle(s.db) && Enabled(s, step, lease) && a in s.db.attempts && s.db.attempts[a].state == Executing
    requires s.db.attempts[a].leaseExpiresAt > s.db.now && !Ends(step, s.db.attempts[a].token)
    ensures SameHolder(s.db, Apply(s, step, lease).db, a)
  {
    if Quiet(step) {
      QuietKeepsAttempts(s, step, lease);
    } else if step.FinishJob? || step.FailJob? || step.Renew? {
      HolderStays(s, step, lease, a);
    } else if step.RecoverJobs? {
      RecoveryPasses(s, step, lease, a);
    } else {
      OthersKeepState(s, step, lease, a);
    }
  }

  lemma HolderStays(s: System, step: Step, lease: Time, a: AttemptId)
    requires Lifecycle(s.db) && Enabled(s, step, lease) && a in s.db.attempts && !Ends(step, s.db.attempts[a].token)
    requires step.FinishJob? || step.FailJob? || step.Renew?
    ensures SameHolder(s.db, Apply(s, step, lease).db, a)
  {
    GuardedApplies(s, step, lease);
    if step.Renew? { RenewalKeepsState(s.db, step.j, step.token, lease, step.delay, a); }
    else { OthersEndTheirOwn(s.db, step, a); }
  }

  lemma RecoveryPasses(s: System, step: Step, lease: Time, a: AttemptId)
    requires Lifecycle(s.db) && Enabled(s, step, lease) && step.RecoverJobs?
    requires a in s.db.attempts && s.db.attempts[a].leaseExpiresAt > s.db.now
    ensures SameHolder(s.db, Apply(s, step, lease).db, a)
  {
    NotInPass(s.db, step.order, a);
  }

  lemma NotInPass(db: Db, order: seq<JobId>, a: AttemptId)
    requires Lifecycle(db) && AllExpired(db, order) && a in db.attempts && db.attempts[a].leaseExpiresAt > db.now
    ensures SameHolder(db, Recover(db, order), a)
  {
    assert order + [] == order && AttemptOk(db, a);
    assert db.attempts[a].job in order ==> Expired(db, db.attempts[a].job);
    RecoverOtherAttempts(db, order, [], a);
  }

  lemma OthersKeepState(s: System, step: Step, lease: Time, a: AttemptId)
    requires Enabled(s, step, lease) && a in s.db.attempts && s.db.attempts[a].state == Executing
    requires step.ClaimJob? || step.AuthorizeEngine? || step.Confirm?
    ensures SameHolder(s.db, Apply(s, step, lease).db, a)
  {}

  lemma RenewalKeepsState(db: Db, j: JobId, token: Token, lease: Time, delay: Time, a: AttemptId)
    requires a in db.attempts
    ensures SameHolder(db, Heartbeat(db, j, token, lease, delay), a)
  {}

  /** A lease protects its holder: from any grant until the lease is over, whatever anybody else does, the attempt stays
      authorized until it ends itself. */
  lemma {:induction false} LeaseProtects(states: seq<System>, steps: seq<Step>, lease: Time, k: nat, m: nat, a: AttemptId)
    requires IsRun(states, steps, lease) && k < m < |states| && Grants(states[k].db, steps[k], a)
    requires states[m].db.now < states[k + 1].db.now + lease
    requires a in states[k + 1].db.attempts
    requires forall i: nat | k < i < m :: !Ends(steps[i], states[k + 1].db.attempts[a].token)
    ensures a in states[m].db.attempts && SameHolder(states[k + 1].db, states[m].db, a)
    ensures Authorized(states[m].db, states[m].db.attempts[a].job, states[m].db.attempts[a].token) == Some(a)
    decreases m
  {
    if m == k + 1 {
      GrantedHolds(states, steps, lease, k, a);
    } else {
      RunEvolves(states, steps, lease, m - 1, m);
      LeaseProtects(states, steps, lease, k, m - 1, a);
      AuthorizedNow(states, steps, lease, m - 1, a);
      RunSafe(states, steps, lease, m - 1);
      assert Next(states, steps, lease, m - 1);
      StillExecuting(states[m - 1], steps[m - 1], lease, a);
    }
    LeaseNotOver(states, steps, lease, k, m, a);
    RunSafe(states, steps, lease, m);
    HolderIsAuthorized(states[m].db, states[m].db.attempts[a].job, states[m].db.attempts[a].token, a);
  }

  lemma GrantedHolds(states: seq<System>, steps: seq<Step>, lease: Time, k: nat, a: AttemptId)
    requires IsRun(states, steps, lease) && k < |steps| && Grants(states[k].db, steps[k], a)
    ensures a in states[k + 1].db.attempts && states[k + 1].db.attempts[a].state == Executing
  {
    RunSafe(states, steps, lease, k);
    assert Next(states, steps, lease, k);
    GrantExecutes(states[k], steps[k], lease, a);
  }

  lemma GrantExecutes(s: System, step: Step, lease: Time, a: AttemptId)
    requires Lifecycle(s.db) && Enabled(s, step, lease) && Grants(s.db, step, a)
    ensures var db' := Apply(s, step, lease).db; a in db'.attempts && db'.attempts[a].state == Executing
  {
    if step.Renew? { HolderIsAuthorized(s.db, step.j, step.token, a); }
  }

  lemma AuthorizedNow(states: seq<System>, steps: seq<Step>, lease: Time, m: nat, a: AttemptId)
    requires IsRun(states, steps, lease) && m < |states| && a in states[m].db.attempts
    requires Authorized(states[m].db, states[m].db.attempts[a].job, states[m].db.attempts[a].token) == Some(a)
    ensures states[m].db.attempts[a].state == Executing && states[m].db.attempts[a].leaseExpiresAt > states[m].db.now
  {}

  /** The lease stored is at least the one granted. */
  lemma LeaseNotOver(states: seq<System>, steps: seq<Step>, lease: Time, k: nat, m: nat, a: AttemptId)
    requires IsRun(states, steps, lease) && k < m < |states| && Grants(states[k].db, steps[k], a) && a in states[m].db.attempts
    ensures states[m].db.attempts[a].leaseExpiresAt >= states[k + 1].db.now + lease
  {
    var last := LeaseFromLastGrant(states, steps, lease, m, a);
    RunEvolves(states, steps, lease, k + 1, last + 1);
  }

  // ---- When an attempt turns external ----

  /** The step lets attempt `a` go external, because it holds its job. */
  predicate LetsOut(db: Db, step: Step, a: AttemptId) {
    && step.AuthorizeEngine? && step.a == a && a in db.attempts
    && Holds(db, db.attempts[a].job, db.attempts[a].token, a)
  }

  /** Its process is allowed to start the engine exactly then, and otherwise gives up. */
  lemma AllowedExactly(states: seq<System>, steps: seq<Step>, lease: Time, k: nat, a: AttemptId)
    requires IsRun(states, steps, lease) && k < |steps| && steps[k].AuthorizeEngine? && steps[k].a == a
    ensures At(states[k + 1], a, EngineAllowed) <==> LetsOut(states[k].db, steps[k], a)
    ensures At(states[k + 1], a, Exited) <==> !LetsOut(states[k].db, steps[k], a)
  {
    RunSafe(states, steps, lease, k);
    assert Next(states, steps, lease, k);
    AuthorizedStage(states[k].db, a, steps[k].phase, a);
    HolderIsAuthorized(states[k].db, states[k].db.attempts[a].job, states[k].db.attempts[a].token, a);
    if Authorized(states[k].db, states[k].db.attempts[a].job, states[k].db.attempts[a].token).Some? {
      AuthorizedFacts(states[k].db, states[k].db.attempts[a].job, states[k].db.attempts[a].token);
      TokenNames(states[k].db, a, Authorized(states[k].db, states[k].db.attempts[a].job, states[k].db.attempts[a].token).value);
    }
  }

  predicate SameStage(db: Db, db': Db, a: AttemptId)
    requires a in db.attempts
  {
    a in db'.attempts && db'.attempts[a].stage == db.attempts[a].stage
  }

  lemma GuardedKeepsStage(db: Db, step: Step, lease: Time, a: AttemptId)
    requires a in db.attempts
    ensures match step
      case Renew(j, token, delay) => SameStage(db, Heartbeat(db, j, token, lease, delay), a)
      case Label(j, token, phase) => SameStage(db, Phase(db, j, token, phase, false), a)
      case Pin(b, sha, token) => SameStage(db, PinSource(db, b, sha, token), a)
      case Attach(j, token, t, digest) => SameStage(db, AttachInput(db, j, token, t, digest), a)
      case FinishJob(j, token, out, delay) => SameStage(db, Finish(db, j, token, out, delay), a)
      case FailJob(j, token, code, stopped) => SameStage(db, Fail(db, j, token, code, stopped), a)
      case _ => true
  {}

  lemma AuthorizedStage(db: Db, b: AttemptId, phase: string, a: AttemptId)
    requires Lifecycle(db) && a in db.attempts && b in db.attempts
    ensures var j, token := db.attempts[b].job, db.attempts[b].token; var db' := Phase(db, j, token, phase, true);
      && a in db'.attempts
      && (db'.attempts[a].stage == External <==> db.attempts[a].stage == External || (a == b && Holds(db, j, token, a)))
  {
    var j, token := db.attempts[b].job, db.attempts[b].token;
    HolderIsAuthorized(db, j, token, b);
    if Authorized(db, j, token).Some? {
      AuthorizedFacts(db, j, token);
      TokenNames(db, b, Authorized(db, j, token).value);
    }
  }

  lemma OthersKeepStage(s: System, step: Step, lease: Time, a: AttemptId)
    requires Lifecycle(s.db) && Enabled(s, step, lease) && a in s.db.attempts
    requires step.Renew? || step.FinishJob? || step.FailJob? || step.RecoverJobs? || step.Confirm?
    ensures SameStage(s.db, Apply(s, step, lease).db, a)
  {
    if step.RecoverJobs? {
      PassKeepsStage(s, step, lease, a);
    } else if !step.Confirm? {
      HolderKeepsStage(s, step, lease, a);
    }
  }

  lemma PassKeepsStage(s: System, step: Step, lease: Time, a: AttemptId)
    requires Enabled(s, step, lease) && a in s.db.attempts && step.RecoverJobs?
    ensures SameStage(s.db, Apply(s, step, lease).db, a)
  {
    RecoverKeepsStage(s.db, step.order, a);
  }

  lemma HolderKeepsStage(s: System, step: Step, lease: Time, a: AttemptId)
    requires Enabled(s, step, lease) && a in s.db.attempts && (step.Renew? || step.FinishJob? || step.FailJob?)
    ensures SameStage(s.db, Apply(s, step, lease).db, a)
  {
    GuardedApplies(s, step, lease);
    GuardedKeepsStage(s.db, step, lease, a);
  }

  lemma GuardedApplies(s: System, step: Step, lease: Time)
    requires Enabled(s, step, lease) && (step.Renew? || step.FinishJob? || step.FailJob?)
    ensures Apply(s, step, lease).db == match step
      case Renew(j, token, delay) => Heartbeat(s.db, j, token, lease, delay)
      case FinishJob(j, token, out, delay) => Finish(s.db, j, token, out, delay)
      case FailJob(j, token, code, stopped) => Fail(s.db, j, token, code, stopped)
      case _ => s.db
  {}

  lemma {:induction false} RecoverKeepsStage(db: Db, order: seq<JobId>, a: AttemptId)
    requires a in db.attempts
    ensures SameStage(db, Recover(db, order), a)
  {
    if order != [] { RecoverKeepsStage(db, order[..|order| - 1], a); }
  }

  predicate Staged(db: Db, db': Db, out: bool, a: AttemptId) {
    a in db'.attempts ==>
      (db'.attempts[a].stage == External <==> out || (a in db.attempts && db.attempts[a].stage == External))
  }

  lemma StagedByStep(s: System, step: Step, lease: Time, a: AttemptId)
    requires Lifecycle(s.db) && Enabled(s, step, lease)
    ensures Staged(s.db, Apply(s, step, lease).db, LetsOut(s.db, step, a), a)
  {
    if Quiet(step) {
      QuietKeepsAttempts(s, step, lease);
    } else if step.ClaimJob? {
      ClaimStages(s, step, lease, a);
    } else {
      SameAttempts(s, step, lease);
      if a in s.db.attempts {
        if step.AuthorizeEngine? { AuthorizedStage(s.db, step.a, step.phase, a); } else { OthersKeepStage(s, step, lease, a); }
      }
    }
  }

  lemma ClaimStages(s: System, step: Step, lease: Time, a: AttemptId)
    requires Enabled(s, step, lease) && step.ClaimJob?
    ensures Staged(s.db, Apply(s, step, lease).db, false, a)
  {}

  lemma StageAfterStep(states: seq<System>, steps: seq<Step>, lease: Time, k: nat, a: AttemptId)
    requires IsRun(states, steps, lease) && k < |steps|
    ensures Staged(states[k].db, states[k + 1].db, LetsOut(states[k].db, steps[k], a), a)
  {
    RunSafe(states, steps, lease, k);
    assert Next(states, steps, lease, k);
    StagedByStep(states[k], steps[k], lease, a);
  }

  /** An attempt is external exactly when it was let out while it held its job. */
  lemma {:induction false} ExternalSince(states: seq<System>, steps: seq<Step>, lease: Time, m: nat, a: AttemptId)
    requires IsRun(states, steps, lease) && m < |states| && a in states[m].db.attempts
    ensures states[m].db.attempts[a].stage == External <==> exists k: nat :: k < m && LetsOut(states[k].db, steps[k], a)
  {
    assert m > 0;
    StageAfterStep(states, steps, lease, m - 1, a);
    if a in states[m - 1].db.attempts {
      ExternalSince(states, steps, lease, m - 1, a);
    } else {
      forall k: nat | k < m ensures !LetsOut(states[k].db, steps[k], a) { NotThereBefore(states, steps, lease, k, m - 1, a); }
    }
  }

  lemma NotThereBefore(states: seq<System>, steps: seq<Step>, lease: Time, k: nat, m: nat, a: AttemptId)
    requires IsRun(states, steps, lease) && k <= m < |states| && a !in states[m].db.attempts
    ensures a !in states[k].db.attempts
  {
    RunEvolves(states, steps, lease, k, m);
    assert a in states[k].db.attempts ==> AttemptEvolves(states[k].db, states[m].db, a);
  }
}
