/** The stores as they run: tables held in fields, each method one transaction, proved against the effect in `Jobs`. */
module JobStores {
  import opened Common
  import opened Jobs

  class JobStore {
    const lease: Time
    var now: Time
    var jobs: map<JobId, Job>
    var attempts: map<AttemptId, Attempt>
    var sets: map<SetId, ArtifactSet>
    var builds: map<BuildId, BuildRow>
    var projectSources: map<ProjectId, SetId>

    ghost function Tables(): Db
      reads this
    {
      Db(now, jobs, attempts, sets, builds, projectSources)
    }

    constructor (lease: Time)
      ensures Tables() == Db(0, map[], map[], map[], map[], map[]) && this.lease == lease
    {
      this.lease := lease;
      now, jobs, attempts, sets, builds, projectSources := 0, map[], map[], map[], map[], map[];
    }

    /** Current job, attempt, token and database time are checked together. */
    method Authorize(j: JobId, token: Token) returns (a: Option<AttemptId>)
      ensures a == Authorized(Tables(), j, token)
    {
      if j !in jobs || jobs[j].status != Running || jobs[j].current.None? { return None; }
      var c := jobs[j].current.value;
      if c !in attempts || attempts[c].state != Executing || attempts[c].token != token { return None; }
      if attempts[c].leaseExpiresAt <= now { return None; }
      return Some(c);
    }

    /** Inserts the job with the row of its build; an unavailable input refuses the request. */
    method Reserve(j: JobId, job: Job) returns (accepted: bool)
      requires j !in jobs && NewJob(job)
      modifies this`jobs, this`builds
      ensures accepted <==> InputAvailable(old(Tables()), job)
      ensures Tables() == if accepted then Admit(old(Tables()), j, job) else old(Tables())
    {
      if job.input.Some? {
        if job.input.value !in sets { return false; }
        var input := sets[job.input.value];
        if input.state != Sealed || input.project != job.project { return false; }
      }
      jobs := jobs[j := job];
      if job.build.Some? { builds := builds[job.build.value := BuildRow(j, job.commit)]; }
      return true;
    }

    /** The queue hands out its first job that is due, compatible and not locked by another worker, under a fresh
        attempt and token; it hands out nothing exactly when there is none. */
    method ClaimNext(configs: set<Version>, toolchain: Version, locked: set<JobId>, a: AttemptId, token: Token)
      returns (leased: Option<JobId>)
      requires a !in attempts
      modifies this`jobs, this`attempts
      ensures leased.None? ==> Tables() == old(Tables()) &&
                               forall j | Eligible(old(Tables()), j, configs, toolchain) :: j in locked
      ensures leased.Some? ==> FirstEligible(old(Tables()), leased.value, configs, toolchain, locked) &&
                               Tables() == Claim(old(Tables()), leased.value, a, token, lease)
    {
      var due := set j | j in jobs && jobs[j].status == Queued && jobs[j].availableAt <= now
                         && jobs[j].config in configs && jobs[j].toolchain == toolchain && j !in locked;
      if due == {} {
        assert forall j | Eligible(Tables(), j, configs, toolchain) && j !in locked :: j in due;
        return None;
      }
      var first := Earliest(due);
      assert forall j | Eligible(Tables(), j, configs, toolchain) && j !in locked :: j in due;
      attempts := attempts[a := Attempt(first, jobs[first].attemptNo + 1, token, now + lease, Preparing, Executing, None)];
      var job := jobs[first];
      job := job.(status := Running);
      job := job.(attemptNo := job.attemptNo + 1);
      job := job.(current := Some(a));
      jobs := jobs[first := job];
      return Some(first);
    }

    method Earliest(due: set<JobId>) returns (first: JobId)
      requires due != {} && due <= jobs.Keys
      ensures first in due && forall j | j in due :: NoLater(jobs[first], jobs[j])
    {
      first :| first in due;
      var rest := due - {first};
      while rest != {}
        invariant rest <= due && first in due
        invariant forall j | j in due && j !in rest :: NoLater(jobs[first], jobs[j])
        decreases rest
      {
        var j :| j in rest;
        rest := rest - {j};
        if !NoLater(jobs[first], jobs[j]) { first := j; }
      }
    }

    method Renew(j: JobId, token: Token, delay: Time) returns (valid: bool)
      modifies this`now, this`attempts
      ensures valid <==> Authorized(old(Tables()), j, token).Some?
      ensures Tables() == Heartbeat(old(Tables()), j, token, lease, delay)
    {
      var a := Authorize(j, token);
      now := now + delay;
      if a.None? { return false; }
      attempts := attempts[a.value := attempts[a.value].(leaseExpiresAt := now + lease)];
      return true;
    }

    method SetPhase(j: JobId, token: Token, phase: string, external: bool) returns (valid: bool)
      modifies this`jobs, this`attempts
      ensures valid <==> Authorized(old(Tables()), j, token).Some?
      ensures Tables() == Phase(old(Tables()), j, token, phase, external)
    {
      var a := Authorize(j, token);
      if a.None? { return false; }
      jobs := jobs[j := jobs[j].(phase := phase)];
      if external { attempts := attempts[a.value := attempts[a.value].(stage := External)]; }
      return true;
    }

    method Attach(j: JobId, token: Token, s: SetId, digest: Option<Digest>) returns (result: AttachResult)
      modifies this`jobs
      ensures result == AttachVerdict(old(Tables()), j, token, s)
      ensures Tables() == AttachInput(old(Tables()), j, token, s, digest)
    {
      var a := Authorize(j, token);
      if a.None? { return AttachLeaseLost; }
      if s !in sets || sets[s].state != Sealed || sets[s].project != jobs[j].project { return InvalidSource; }
      if jobs[j].input.Some? && jobs[j].input.value != s { return InputImmutable; }
      jobs := jobs[j := jobs[j].(input := Some(s))];
      if digest.Some? { jobs := jobs[j := jobs[j].(digest := digest)]; }
      return Attached;
    }

    method Pin(b: BuildId, sha: Sha, token: Token) returns (result: PinResult)
      modifies this`jobs, this`builds
      ensures result == PinVerdict(old(Tables()), b, sha, token)
      ensures Tables() == PinSource(old(Tables()), b, sha, token)
    {
      if b !in builds { return PinLeaseLost; }
      var run := builds[b].run;
      var a := Authorize(run, token);
      if a.None? { return PinLeaseLost; }
      if builds[b].commit.Some? && builds[b].commit.value != sha { return CommitImmutable; }
      builds := builds[b := builds[b].(commit := Some(sha))];
      jobs := jobs[run := jobs[run].(commit := Some(sha))];
      return Pinned;
    }

    /** Seals, checks the lease once more, and rolls the seal back when it has gone. */
    method FinishSucceeded(j: JobId, token: Token, out: Option<SetId>, delay: Time) returns (result: FinishResult)
      modifies this
      ensures result == FinishVerdict(old(Tables()), j, token, out, delay)
      ensures Tables() == Finish(old(Tables()), j, token, out, delay)
    {
      var a := Authorize(j, token);
      now := now + delay;
      if a.None? { return LeaseLost; }
      var objection := CheckOutput(j, a.value, out);
      if objection.Some? { return Rejected(objection.value); }
      var beforeSeal := sets;
      sets := sets[out.value := sets[out.value].(state := Sealed)];
      var again := Authorize(j, token);
      if again.None? {
        sets := beforeSeal;
        return LeaseLost;
      }
      attempts := attempts[a.value := attempts[a.value].(state := Finished, stopConfirmedAt := Some(now))];
      jobs := jobs[j := jobs[j].(status := Succeeded, output := out, error := None)];
      return Committed;
    }

    method CheckOutput(j: JobId, a: AttemptId, out: Option<SetId>) returns (objection: Option<FinishError>)
      requires j in jobs
      ensures objection.None? <==> out.Some? && Publishable(Tables(), j, a, out.value)
      ensures objection == FinishObjection(Tables(), j, a, out)
    {
      if out.None? { return Some(MissingOutput); }
      if out.value !in sets { return Some(ForeignAttempt); }
      var output := sets[out.value];
      if output.producer != Some(a) || output.kind != ExecutionSet { return Some(ForeignAttempt); }
      if output.project != jobs[j].project { return Some(ForeignProject); }
      if jobs[j].build.Some? && !EvidenceMatches(jobs[j], output) { return Some(EvidenceConflict); }
      if MANIFEST_PATH !in output.files { return Some(MissingArtifacts); }
      if !output.intact { return Some(Unsealable); }
      return None;
    }

    method ReportFailure(j: JobId, token: Token, code: string, stopped: bool) returns (valid: bool)
      modifies this`jobs, this`attempts
      ensures valid <==> Authorized(old(Tables()), j, token).Some?
      ensures Tables() == Fail(old(Tables()), j, token, code, stopped)
    {
      var a := Authorize(j, token);
      if a.None? { return false; }
      var attempt := attempts[a.value];
      attempt := attempt.(state := if stopped then Broken else ExpiredUnconfirmed);
      attempt := attempt.(stopConfirmedAt := if stopped then Some(now) else None);
      attempts := attempts[a.value := attempt];
      jobs := jobs[j := jobs[j].(status := Failed, error := Some(Reported(code)))];
      return true;
    }

    /** One turn of the recovery loop, on one expired job. */
    method RecoverJob(j: JobId)
      modifies this`jobs, this`attempts
      ensures Tables() == RecoverOne(old(Tables()), j)
    {
      if j !in jobs || jobs[j].current.None? || jobs[j].current.value !in attempts { return; }
      var a, job := jobs[j].current.value, jobs[j];
      var external := attempts[a].stage == External;
      var attempt := attempts[a].(state := if external then ExpiredUnconfirmed else Stopped);
      attempts := attempts[a := attempt.(stopConfirmedAt := if external then None else Some(now))];
      if job.attemptNo < job.maxAttempts && job.retry != Never && !external {
        job := job.(status := Queued, current := None);
        job := job.(availableAt := now + if job.attemptNo <= 1 then FIRST_RETRY_DELAY else LATER_RETRY_DELAY);
      } else {
        job := job.(status := Failed, error := Some(if external then OutcomeUnknown else LeaseExpired));
      }
      jobs := jobs[j := job];
    }

    /** One pass over the rows the query returned, rewriting each in place. */
    method RecoverExpired(order: seq<JobId>) returns (count: nat)
      modifies this`jobs, this`attempts
      ensures Tables() == Recover(old(Tables()), order) && count == |order|
    {
      count := 0;
      while count < |order|
        invariant count <= |order|
        invariant Tables() == Recover(old(Tables()), order[..count])
      {
        RecoverJob(order[count]);
        assert order[..count + 1][..count] == order[..count];
        count := count + 1;
      }
      assert order[..|order|] == order;
    }

    method Confirm(a: AttemptId, token: Token) returns (known: bool)
      modifies this`attempts
      ensures known <==> a in attempts && attempts[a].token == token
      ensures Tables() == ConfirmStopped(old(Tables()), a, token)
    {
      if a !in attempts || attempts[a].token != token { return false; }
      if attempts[a].state == ExpiredUnconfirmed {
        attempts := attempts[a := attempts[a].(state := Stopped, stopConfirmedAt := Some(now))];
      }
      return true;
    }

    /** Frees the recorded owners one at a time, in any order, and stops at the first that may still be writing. */
    method ClaimTarget(j: JobId, token: Token) returns (result: TargetResult, ghost cleared: set<JobId>)
      modifies this`jobs
      ensures TargetOutcome(old(Tables()), j, token, cleared, result)
      ensures Tables() == TargetClaim(old(Tables()), j, cleared, result)
    {
      cleared := {};
      var a := Authorize(j, token);
      if a.None? { return TargetRefused, {}; }
      if jobs[j].target.None? { return TargetGranted, {}; }
      var owners := set o | o in jobs && o != j && jobs[o].targetClaimed && jobs[o].target == jobs[j].target;
      var left := owners;
      while left != {}
        invariant left <= owners && cleared == owners - left
        invariant forall o | o in cleared :: !Unsafe(old(Tables()), o)
        invariant Tables() == ClearClaims(old(Tables()), cleared)
        decreases left
      {
        var o :| o in left;
        if exists b | b in attempts :: attempts[b].job == o && Active(attempts[b].state) {
          return TargetRefused, cleared;
        }
        jobs := jobs[o := jobs[o].(targetClaimed := false)];
        left := left - {o};
        cleared := cleared + {o};
      }
      jobs := jobs[j := jobs[j].(targetClaimed := true)];
      return TargetGranted, cleared;
    }

    /** The caller's word is not enough: the stop of the current attempt must be on record. */
    method ReleaseTarget(j: JobId, token: Token, stopped: bool)
      modifies this`jobs
      ensures Tables() == Release(old(Tables()), j, token, stopped)
    {
      if !stopped || j !in jobs || !jobs[j].targetClaimed || jobs[j].current.None? { return; }
      var c := jobs[j].current.value;
      if c !in attempts || attempts[c].job != j || attempts[c].token != token { return; }
      if !Active(attempts[c].state) && attempts[c].stopConfirmedAt.Some? {
        jobs := jobs[j := jobs[j].(targetClaimed := false)];
      }
    }

    method Collect(s: SetId) returns (deleted: bool)
      modifies this`sets
      ensures deleted <==> s in old(sets) && !Referenced(old(Tables()), s)
      ensures Tables() == DeleteUnreferenced(old(Tables()), s)
    {
      if s !in sets { return false; }
      if exists j | j in jobs :: jobs[j].input == Some(s) || jobs[j].output == Some(s) { return false; }
      if exists p | p in projectSources :: projectSources[p] == s { return false; }
      if exists t | t in sets :: sets[t].source == Some(s) { return false; }
      var producer := sets[s].producer;
      if producer.Some? && producer.value in attempts && Active(attempts[producer.value].state) { return false; }
      sets := sets - {s};
      return true;
    }
  }
}
