/** Fencing over whole runs: a token that is superseded or whose lease has run out writes nothing, ever again. */
module Fencing {
  import opened Common
  import opened Jobs
  import opened JobProtocol
  import opened Publication
  import opened JobRuns

  /** The attempt has left execution, or its lease has run out. */
  predicate Stale(db: Db, a: AttemptId) {
    a in db.attempts && (db.attempts[a].state != Executing || db.attempts[a].leaseExpiresAt <= db.now)
  }

  lemma StaleRefused(db: Db, a: AttemptId, j: JobId)
    requires Identified(db) && Stale(db, a)
    ensures Authorized(db, j, db.attempts[a].token).None?
  {
    if Authorized(db, j, db.attempts[a].token).Some? {
      TokenNames(db, a, Authorized(db, j, db.attempts[a].token).value);
    }
  }

  // ---- A lease that has run out is never renewed ----

  predicate SameLease(db: Db, db': Db, a: AttemptId)
    requires a in db.attempts
  {
    a in db'.attempts && db'.attempts[a].leaseExpiresAt == db.attempts[a].leaseExpiresAt
  }

  lemma {:induction false} RecoverKeepsLease(db: Db, order: seq<JobId>, a: AttemptId)
    requires a in db.attempts
    ensures SameLease(db, Recover(db, order), a)
  {
    if order != [] { RecoverKeepsLease(db, order[..|order| - 1], a); }
  }

  lemma RenewKeepsLease(db: Db, j: JobId, token: Token, lease: Time, delay: Time, a: AttemptId)
    requires a in db.attempts && db.attempts[a].leaseExpiresAt <= db.now
    ensures SameLease(db, Heartbeat(db, j, token, lease, delay), a)
  {}

  lemma GuardedKeepsLease(db: Db, step: Step, a: AttemptId)
    requires a in db.attempts
    ensures match step
      case Label(j, token, phase) => SameLease(db, Phase(db, j, token, phase, false), a)
      case Pin(b, sha, token) => SameLease(db, PinSource(db, b, sha, token), a)
      case Attach(j, token, t, digest) => SameLease(db, AttachInput(db, j, token, t, digest), a)
      case FinishJob(j, token, out, delay) => SameLease(db, Finish(db, j, token, out, delay), a)
      case FailJob(j, token, code, stopped) => SameLease(db, Fail(db, j, token, code, stopped), a)
      case _ => true
  {}

  lemma StepKeepsLease(s: System, step: Step, lease: Time, a: AttemptId)
    requires Enabled(s, step, lease) && a in s.db.attempts && s.db.attempts[a].leaseExpiresAt <= s.db.now
    ensures SameLease(s.db, Apply(s, step, lease).db, a)
  {
    match step {
      case RecoverJobs(order) => RecoverKeepsLease(s.db, order, a);
      case Renew(j, token, delay) => RenewKeepsLease(s.db, j, token, lease, delay, a);
      case _ => GuardedKeepsLease(s.db, step, a);
    }
  }

  lemma {:induction false} StaleForever(states: seq<System>, steps: seq<Step>, lease: Time, i: nat, k: nat, a: AttemptId)
    requires IsRun(states, steps, lease) && i <= k < |states| && Stale(states[i].db, a)
    ensures Stale(states[k].db, a) && states[k].db.attempts[a].token == states[i].db.attempts[a].token
    decreases k
  {
    if i < k {
      var s, step := states[k - 1], steps[k - 1];
      StaleForever(states, steps, lease, i, k - 1, a);
      RunSafe(states, steps, lease, k - 1);
      assert Next(states, steps, lease, k - 1);
      StepSafe(s, step, lease);
      assert AttemptEvolves(s.db, states[k].db, a);
      if s.db.attempts[a].state == Executing { StepKeepsLease(s, step, lease, a); }
    }
  }

  /** Once an attempt has left execution or its lease has run out, its token is never accepted again: neither a new
      attempt nor a late heartbeat brings it back. */
  lemma SupersededForever(states: seq<System>, steps: seq<Step>, lease: Time, i: nat, k: nat, a: AttemptId, j: JobId)
    requires IsRun(states, steps, lease) && i <= k < |states| && Stale(states[i].db, a)
    ensures Authorized(states[k].db, j, states[i].db.attempts[a].token).None?
  {
    StaleForever(states, steps, lease, i, k, a);
    RunSafe(states, steps, lease, k);
    StaleRefused(states[k].db, a, j);
  }

  // ---- Stale tokens write nothing ----

  /** The token under which a step acts, for the steps that are guarded by one. */
  function TokenOf(db: Db, step: Step): Option<Token> {
    match step
    case Renew(_, token, _) => Some(token)
    case Label(_, token, _) => Some(token)
    case Pin(_, _, token) => Some(token)
    case Attach(_, token, _, _) => Some(token)
    case FinishJob(_, token, _, _) => Some(token)
    case FailJob(_, token, _, _) => Some(token)
    case ClaimTarget(a, _, _) => if a in db.attempts then Some(db.attempts[a].token) else None
    case AuthorizeEngine(a, _) => if a in db.attempts then Some(db.attempts[a].token) else None
    case _ => None
  }

  lemma RefusedWritesNothing(s: System, step: Step, lease: Time, token: Token)
    requires Enabled(s, step, lease) && TokenOf(s.db, step) == Some(token)
    requires forall j :: Authorized(s.db, j, token).None?
    ensures Apply(s, step, lease).db == s.db.(now := Apply(s, step, lease).db.now)
  {
    match step {
      case ClaimTarget(a, cleared, result) => assert ClearClaims(s.db, {}) == s.db;
      case _ =>
    }
  }

  /** In any run, whatever any process does under the token of an attempt that was superseded or had run out at some
      earlier moment, no row differs afterwards. */
  lemma StaleTokenWritesNothing(states: seq<System>, steps: seq<Step>, lease: Time, i: nat, k: nat, a: AttemptId)
    requires IsRun(states, steps, lease) && i <= k < |steps| && Stale(states[i].db, a)
    requires TokenOf(states[k].db, steps[k]) == Some(states[i].db.attempts[a].token)
    ensures states[k + 1].db == states[k].db.(now := states[k + 1].db.now)
  {
    var token := states[i].db.attempts[a].token;
    assert Next(states, steps, lease, k);
    forall j ensures Authorized(states[k].db, j, token).None? {
      SupersededForever(states, steps, lease, i, k, a, j);
    }
    RefusedWritesNothing(states[k], steps[k], lease, token);
  }

  /** A token of no attempt at all writes nothing either. */
  lemma UnknownTokenWritesNothing(states: seq<System>, steps: seq<Step>, lease: Time, k: nat, token: Token)
    requires IsRun(states, steps, lease) && k < |steps| && TokenOf(states[k].db, steps[k]) == Some(token)
    requires forall a | a in states[k].db.attempts :: states[k].db.attempts[a].token != token
    ensures states[k + 1].db == states[k].db.(now := states[k + 1].db.now)
  {
    assert Next(states, steps, lease, k);
    RefusedWritesNothing(states[k], steps[k], lease, token);
  }

  /** An attempt that a newer one of its job has followed cannot release the physical target any more. */
  lemma FollowedReleasesNothing(states: seq<System>, steps: seq<Step>, lease: Time, i: nat, k: nat, a: AttemptId, j: JobId,
                                stopped: bool)
    requires IsRun(states, steps, lease) && i <= k < |steps|
    requires a in states[i].db.attempts && states[i].db.attempts[a].job in states[i].db.jobs
    requires states[i].db.attempts[a].number < states[i].db.jobs[states[i].db.attempts[a].job].attemptNo
    requires steps[k] == ReleaseTarget(j, states[i].db.attempts[a].token, stopped)
    ensures states[k + 1] == states[k]
  {
    RunSafe(states, steps, lease, k);
    RunEvolves(states, steps, lease, i, k);
    assert Next(states, steps, lease, k);
    FollowedStays(states[i].db, states[k].db, a);
    NotReleasable(states[k].db, j, a);
    RefusedRelease(states[k], lease, j, states[i].db.attempts[a].token, stopped);
  }

  lemma RefusedRelease(s: System, lease: Time, j: JobId, token: Token, stopped: bool)
    requires !Releasable(s.db, j, token)
    ensures Apply(s, ReleaseTarget(j, token, stopped), lease) == s
  {}

  lemma FollowedStays(was: Db, db: Db, a: AttemptId)
    requires Evolves(was, db) && a in was.attempts && was.attempts[a].job in was.jobs
    requires was.attempts[a].number < was.jobs[was.attempts[a].job].attemptNo
    ensures a in db.attempts && db.attempts[a].token == was.attempts[a].token && db.attempts[a].job in db.jobs
    ensures db.attempts[a].number < db.jobs[db.attempts[a].job].attemptNo
  {
    assert AttemptEvolves(was, db, a) && JobEvolves(was, db, was.attempts[a].job);
  }

  lemma NotReleasable(db: Db, j: JobId, a: AttemptId)
    requires Lifecycle(db) && a in db.attempts && db.attempts[a].job in db.jobs
    requires db.attempts[a].number < db.jobs[db.attempts[a].job].attemptNo
    ensures !Releasable(db, j, db.attempts[a].token)
  {
    if j in db.jobs { assert JobOk(db, j); }
  }

  // ---- Finishing over a run ----

  /** Attempt `a` holds the job with a lease that outlives the sealing, and has a publishable output. */
  predicate MayCommit(db: Db, until: Time, j: JobId, a: AttemptId, token: Token, out: Option<SetId>) {
    && j in db.jobs && db.jobs[j].status == Running && db.jobs[j].current == Some(a)
    && a in db.attempts && db.attempts[a].state == Executing && db.attempts[a].token == token
    && db.attempts[a].leaseExpiresAt > until
    && out.Some? && Publishable(db, j, a, out.value)
  }

  /** Job, attempt and output set change together, and no other row does. */
  predicate CommittedTogether(db: Db, db': Db, j: JobId, a: AttemptId, out: SetId)
    requires j in db.jobs && a in db.attempts && out in db.sets
  {
    && j in db'.jobs && a in db'.attempts && out in db'.sets
    && db'.jobs == db.jobs[j := db.jobs[j].(status := Succeeded, output := Some(out), error := None)]
    && db'.attempts == db.attempts[a := db.attempts[a].(state := Finished, stopConfirmedAt := Some(db'.now))]
    && db'.sets == db.sets[out := db.sets[out].(state := Sealed)]
    && db'.builds == db.builds && db'.projectSources == db.projectSources
    && OutputOk(db', j) && InputOk(db', j)
  }

  lemma CommitVerdict(db: Db, j: JobId, token: Token, out: Option<SetId>, delay: Time, a: AttemptId)
    requires MayCommit(db, db.now + delay, j, a, token, out)
    ensures FinishVerdict(db, j, token, out, delay) == Committed && Authorized(db, j, token) == Some(a)
  {}

  lemma NoVerdict(db: Db, j: JobId, token: Token, out: Option<SetId>, delay: Time, until: Time)
    requires until == db.now + delay && forall a :: !MayCommit(db, until, j, a, token, out)
    ensures FinishVerdict(db, j, token, out, delay) != Committed
  {
    var auth := Authorized(db, j, token);
    assert auth.Some? ==> !MayCommit(db, until, j, auth.value, token, out);
  }

  lemma CommitChanges(db: Db, j: JobId, token: Token, out: Option<SetId>, delay: Time, a: AttemptId)
    requires MayCommit(db, db.now + delay, j, a, token, out)
    requires Published(Finish(db, j, token, out, delay))
    ensures CommittedTogether(db, Finish(db, j, token, out, delay), j, a, out.value)
  {
    CommitVerdict(db, j, token, out, delay, a);
    var db' := Finish(db, j, token, out, delay);
    assert j in db'.jobs;
    assert OutputOk(db', j) && InputOk(db', j);
  }

  /** A finish in a run is all or nothing. It commits exactly when the caller holds the job under a lease that is still
      alive after sealing and the output carries the job's evidence; then job, attempt and set change together and the
      published evidence holds. Otherwise no row differs, the state of the set included. */
  lemma FinishAllOrNothing(states: seq<System>, steps: seq<Step>, lease: Time, k: nat, j: JobId, token: Token,
                           out: Option<SetId>, delay: Time)
    requires IsRun(states, steps, lease) && k < |steps| && steps[k] == FinishJob(j, token, out, delay)
    ensures var db, db' := states[k].db, states[k + 1].db;
      && (forall a | MayCommit(db, db'.now, j, a, token, out) :: CommittedTogether(db, db', j, a, out.value))
      && ((forall a :: !MayCommit(db, db'.now, j, a, token, out)) ==> db' == db.(now := db'.now))
  {
    RunSafe(states, steps, lease, k + 1);
    assert Next(states, steps, lease, k);
    FinishExact(states[k].db, j, token, out, delay);
  }

  lemma FinishExact(db: Db, j: JobId, token: Token, out: Option<SetId>, delay: Time)
    requires Published(Finish(db, j, token, out, delay))
    ensures var db' := Finish(db, j, token, out, delay);
      && (forall a | MayCommit(db, db'.now, j, a, token, out) :: CommittedTogether(db, db', j, a, out.value))
      && ((forall a :: !MayCommit(db, db'.now, j, a, token, out)) ==> db' == db.(now := db'.now))
  {
    var db' := Finish(db, j, token, out, delay);
    FinishClock(db, j, token, out, delay);
    forall a | MayCommit(db, db'.now, j, a, token, out) ensures CommittedTogether(db, db', j, a, out.value) {
      CommitChanges(db, j, token, out, delay, a);
    }
    if forall a :: !MayCommit(db, db'.now, j, a, token, out) { NoVerdict(db, j, token, out, delay, db'.now); }
  }

  lemma FinishClock(db: Db, j: JobId, token: Token, out: Option<SetId>, delay: Time)
    ensures Finish(db, j, token, out, delay).now == db.now + delay
  {}
}
