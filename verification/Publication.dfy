/** What a finished build publishes, and that nothing that happens later takes it back. */
module Publication {
  import opened Common
  import opened Jobs
  import opened JobProtocol

  // ---- Evidence kept in every state ----

  predicate InputOk(db: Db, j: JobId)
    requires j in db.jobs
  {
    var job := db.jobs[j];
    && InputAvailable(db, job)
    && (job.build.Some? ==>
          && job.build.value in db.builds && db.builds[job.build.value].run == j
          && db.builds[job.build.value].commit == job.commit)
  }

  /** A succeeded job's output: sealed, intact, its own attempt's, complete, and matching the fixed evidence. */
  predicate OutputOk(db: Db, j: JobId)
    requires j in db.jobs
  {
    var job := db.jobs[j];
    if job.status != Succeeded then job.output.None?
    else
      && job.output.Some? && job.output.value in db.sets
      && var output := db.sets[job.output.value];
      && output.state == Sealed && output.intact && output.kind == ExecutionSet && output.project == job.project
      && MANIFEST_PATH in output.files
      && job.current.Some? && output.producer == job.current
      && job.current.value in db.attempts && db.attempts[job.current.value].state == Finished
      && (job.build.Some? ==> EvidenceMatches(job, output))
  }

  predicate Published(db: Db) {
    && (forall j | j in db.jobs :: InputOk(db, j))
    && (forall j | j in db.jobs :: OutputOk(db, j))
  }

  // ---- What never changes once it is there ----

  predicate JobEvolves(db: Db, db': Db, j: JobId)
    requires j in db.jobs
  {
    && j in db'.jobs
    && var job, job' := db.jobs[j], db'.jobs[j];
    && job'.project == job.project && job'.build == job.build && job'.target == job.target
    && job'.config == job.config && job'.toolchain == job.toolchain && job'.maxAttempts == job.maxAttempts
    && job.attemptNo <= job'.attemptNo
    && (job.input.Some? ==> job'.input == job.input)
    && (job.commit.Some? ==> job'.commit == job.commit)
    && (Terminal(job.status) ==> job' == job.(targetClaimed := job'.targetClaimed))
  }

  predicate AttemptEvolves(db: Db, db': Db, a: AttemptId)
    requires a in db.attempts
  {
    && a in db'.attempts
    && var attempt, attempt' := db.attempts[a], db'.attempts[a];
    && attempt'.job == attempt.job && attempt'.number == attempt.number && attempt'.token == attempt.token
    && (attempt.stage == External ==> attempt'.stage == External)
    && (attempt.state != Executing ==> attempt'.state != Executing && attempt'.stage == attempt.stage)
    && (attempt.stopConfirmedAt.Some? ==> attempt' == attempt)
  }

  /** Sealed sets that a job uses are kept as they are. */
  predicate SetsEvolve(db: Db, db': Db, j: JobId)
    requires j in db.jobs
  {
    var job := db.jobs[j];
    && (job.input.Some? && job.input.value in db.sets && db.sets[job.input.value].state == Sealed ==>
          job.input.value in db'.sets && db'.sets[job.input.value] == db.sets[job.input.value])
    && (job.output.Some? && job.output.value in db.sets && db.sets[job.output.value].state == Sealed ==>
          job.output.value in db'.sets && db'.sets[job.output.value] == db.sets[job.output.value])
  }

  predicate Evolves(db: Db, db': Db) {
    && db.now <= db'.now
    && (forall j | j in db.jobs :: JobEvolves(db, db', j))
    && (forall a | a in db.attempts :: AttemptEvolves(db, db', a))
    && (forall j | j in db.jobs :: SetsEvolve(db, db', j))
  }

  lemma SameJobsEvolve(db: Db, db': Db)
    requires db'.jobs == db.jobs && db'.attempts == db.attempts && db.now <= db'.now
    requires forall j | j in db.jobs :: SetsEvolve(db, db', j)
    ensures Evolves(db, db')
  {
    forall j | j in db.jobs ensures JobEvolves(db, db', j) {}
    forall a | a in db.attempts ensures AttemptEvolves(db, db', a) {}
  }

  lemma LocalEvolves(db: Db, db': Db, j: JobId, a: AttemptId)
    requires LocalChange(db, db', j, a) && db'.sets == db.sets && db.now <= db'.now
    requires JobEvolves(db, db', j) && AttemptEvolves(db, db', a)
    ensures Evolves(db, db')
  {
    forall k | k in db.jobs ensures JobEvolves(db, db', k) && SetsEvolve(db, db', k) {}
    forall b | b in db.attempts ensures AttemptEvolves(db, db', b) {}
  }

  lemma EvolvesTwice(db: Db, mid: Db, db': Db)
    requires Evolves(db, mid) && Evolves(mid, db')
    requires forall j | j in db.jobs :: db.jobs[j].output.Some? ==> Terminal(db.jobs[j].status)
    ensures Evolves(db, db')
  {
    forall j | j in db.jobs ensures JobEvolves(db, db', j) && SetsEvolve(db, db', j) {
      assert JobEvolves(db, mid, j) && SetsEvolve(db, mid, j);
      assert JobEvolves(mid, db', j) && SetsEvolve(mid, db', j);
    }
    forall a | a in db.attempts ensures AttemptEvolves(db, db', a) {
      assert AttemptEvolves(db, mid, a) && AttemptEvolves(mid, db', a);
    }
  }

  // ---- Publication survives what evolves, except where a step writes it ----

  /** A job that is not the one being written keeps its evidence. */
  lemma PublishedFrame(db: Db, db': Db, written: set<JobId>)
    requires Published(db) && Evolves(db, db') && JobsOk(db) && AttemptsOk(db)
    requires db'.jobs.Keys <= db.jobs.Keys + written
    requires forall k | k in db.jobs && k !in written :: KeepsEvidence(db, db', k)
    requires forall k | k in db'.jobs && k in written :: InputOk(db', k) && OutputOk(db', k)
    ensures Published(db')
  {
    forall k | k in db'.jobs ensures InputOk(db', k) && OutputOk(db', k) {
      if k !in written {
        assert InputOk(db, k) && OutputOk(db, k) && JobOk(db, k);
        assert KeepsEvidence(db, db', k) && SetsEvolve(db, db', k);
        if db.jobs[k].status == Succeeded {
          assert AttemptOk(db, db.jobs[k].current.value);
          assert AttemptEvolves(db, db', db.jobs[k].current.value);
        }
      }
    }
  }

  predicate KeepsEvidence(db: Db, db': Db, k: JobId)
    requires k in db.jobs
  {
    && k in db'.jobs
    && var job, job' := db.jobs[k], db'.jobs[k];
    && (job'.status == Succeeded <==> job.status == Succeeded)
    && (job'.status == Succeeded ==> job' == job.(targetClaimed := job'.targetClaimed))
    && job'.project == job.project && job'.build == job.build && job'.input == job.input && job'.commit == job.commit
    && job'.output == job.output
    && (job.build.Some? && job.build.value in db.builds ==>
          job.build.value in db'.builds && db'.builds[job.build.value] == db.builds[job.build.value])
  }

  // ---- Each transaction ----

  /** The effect of a step on the tables: nothing published is lost, nothing fixed is changed. */
  predicate Sound(db: Db, db': Db) {
    Evolves(db, db') && Published(db')
  }

  lemma SameJobsPublished(db: Db, db': Db)
    requires Published(db) && JobsOk(db) && AttemptsOk(db)
    requires db'.jobs == db.jobs && db'.attempts == db.attempts && db'.builds == db.builds && db.now <= db'.now
    requires forall j | j in db.jobs :: SetsEvolve(db, db', j)
    ensures Sound(db, db')
  {
    SameJobsEvolve(db, db');
    forall k | k in db.jobs ensures KeepsEvidence(db, db', k) {}
    PublishedFrame(db, db', {});
  }

  /** A change of one unfinished job, or of a claim flag, that leaves its evidence alone. */
  lemma LocalPublished(db: Db, db': Db, j: JobId, a: AttemptId)
    requires Published(db) && JobsOk(db) && AttemptsOk(db)
    requires LocalChange(db, db', j, a) && db'.sets == db.sets && db.now <= db'.now && db'.builds == db.builds
    requires JobEvolves(db, db', j) && AttemptEvolves(db, db', a) && KeepsEvidence(db, db', j)
    ensures Sound(db, db')
  {
    LocalEvolves(db, db', j, a);
    forall k | k in db.jobs ensures KeepsEvidence(db, db', k) {}
    PublishedFrame(db, db', {});
  }

  lemma AdmitSound(db: Db, j: JobId, job: Job)
    requires Published(db) && JobsOk(db) && AttemptsOk(db)
    requires j !in db.jobs && NewJob(job) && InputAvailable(db, job) && (job.build.Some? ==> job.build.value !in db.builds)
    ensures Sound(db, Admit(db, j, job))
  {
    var db' := Admit(db, j, job);
    AdmitEvolves(db, db', j);
    forall k | k in db.jobs ensures KeepsEvidence(db, db', k) {
      assert InputOk(db, k);
    }
    AdmittedInput(db, j, job);
    PublishedFrame(db, db', {j});
  }

  lemma AdmittedInput(db: Db, j: JobId, job: Job)
    requires NewJob(job) && InputAvailable(db, job)
    ensures InputOk(Admit(db, j, job), j) && OutputOk(Admit(db, j, job), j)
  {}

  lemma AdmitEvolves(db: Db, db': Db, j: JobId)
    requires j !in db.jobs && j in db'.jobs && db'.jobs == db.jobs[j := db'.jobs[j]]
    requires db'.attempts == db.attempts && db'.sets == db.sets && db'.now == db.now
    ensures Evolves(db, db')
  {
    forall k | k in db.jobs ensures JobEvolves(db, db', k) && SetsEvolve(db, db', k) {}
    forall b | b in db.attempts ensures AttemptEvolves(db, db', b) {}
  }

  lemma ClaimSound(db: Db, j: JobId, a: AttemptId, token: Token, lease: Time)
    requires Published(db) && JobsOk(db) && AttemptsOk(db)
    requires j in db.jobs && db.jobs[j].status == Queued && a !in db.attempts
    ensures Sound(db, Claim(db, j, a, token, lease))
  {
    var db' := Claim(db, j, a, token, lease);
    forall k | k in db.jobs ensures JobEvolves(db, db', k) && SetsEvolve(db, db', k) && KeepsEvidence(db, db', k) {}
    forall b | b in db.attempts ensures AttemptEvolves(db, db', b) {}
    PublishedFrame(db, db', {});
  }

  lemma GuardedSound(db: Db, db': Db, j: JobId, token: Token)
    requires Published(db) && Lifecycle(db) && Authorized(db, j, token).Some?
    requires var a := Authorized(db, j, token).value;
      && a in db.attempts && db.attempts[a].job == j
      && LocalChange(db, db', j, a) && db'.sets == db.sets && db.now <= db'.now && db'.builds == db.builds
      && (db.attempts[a].stage == External ==> db'.attempts[a].stage == External)
      && JobEvolves(db, db', j) && KeepsEvidence(db, db', j)
    ensures Sound(db, db')
  {
    AuthorizedFacts(db, j, token);
    LocalPublished(db, db', j, Authorized(db, j, token).value);
  }

  lemma HeartbeatSound(db: Db, j: JobId, token: Token, lease: Time, delay: Time)
    requires Published(db) && Lifecycle(db)
    ensures Sound(db, Heartbeat(db, j, token, lease, delay))
  {
    if Authorized(db, j, token).Some? {
      AuthorizedFacts(db, j, token);
      GuardedSound(db, Heartbeat(db, j, token, lease, delay), j, token);
    } else {
      SameJobsPublished(db, Heartbeat(db, j, token, lease, delay));
    }
  }

  lemma PhaseSound(db: Db, j: JobId, token: Token, phase: string, external: bool)
    requires Published(db) && Lifecycle(db)
    ensures Sound(db, Phase(db, j, token, phase, external))
  {
    if Authorized(db, j, token).Some? {
      AuthorizedFacts(db, j, token);
      GuardedSound(db, Phase(db, j, token, phase, external), j, token);
    } else {
      SameJobsPublished(db, Phase(db, j, token, phase, external));
    }
  }

  lemma FailSound(db: Db, j: JobId, token: Token, code: string, stopped: bool)
    requires Published(db) && Lifecycle(db)
    ensures Sound(db, Fail(db, j, token, code, stopped))
  {
    if Authorized(db, j, token).Some? {
      AuthorizedFacts(db, j, token);
      GuardedSound(db, Fail(db, j, token, code, stopped), j, token);
    } else {
      SameJobsPublished(db, db);
    }
  }

  /** The input is fixed once: attaching again can only repeat it. */
  lemma AttachSound(db: Db, j: JobId, token: Token, s: SetId, digest: Option<Digest>)
    requires Published(db) && Lifecycle(db)
    ensures Sound(db, AttachInput(db, j, token, s, digest))
  {
    var db' := AttachInput(db, j, token, s, digest);
    if AttachVerdict(db, j, token, s) == Attached {
      AuthorizedFacts(db, j, token);
      assert InputOk(db, j) && OutputOk(db, j);
      LocalEvolves(db, db', j, Authorized(db, j, token).value);
      forall k | k in db.jobs && k !in {j} ensures KeepsEvidence(db, db', k) {}
      PublishedFrame(db, db', {j});
    } else {
      SameJobsPublished(db, db);
    }
  }

  /** The commit is pinned once, on the build and on its job together. */
  lemma PinSound(db: Db, b: BuildId, sha: Sha, token: Token)
    requires Published(db) && Lifecycle(db)
    requires b in db.builds ==> db.builds[b].run in db.jobs && db.jobs[db.builds[b].run].build == Some(b)
    ensures Sound(db, PinSource(db, b, sha, token))
  {
    var db' := PinSource(db, b, sha, token);
    if PinVerdict(db, b, sha, token) == Pinned {
      var j := db.builds[b].run;
      AuthorizedFacts(db, j, token);
      assert InputOk(db, j) && OutputOk(db, j);
      LocalEvolves(db, db', j, Authorized(db, j, token).value);
      forall k | k in db.jobs && k !in {j} ensures KeepsEvidence(db, db', k) { assert InputOk(db, k); }
      PublishedFrame(db, db', {j});
    } else {
      SameJobsPublished(db, db);
    }
  }

  lemma RecoverOneSound(db: Db, j: JobId)
    requires Published(db) && Lifecycle(db) && Expired(db, j)
    ensures Sound(db, RecoverOne(db, j))
  {
    ExpiredFacts(db, j);
    RecoverOneEvolves(db, j);
    LocalPublished(db, RecoverOne(db, j), j, db.jobs[j].current.value);
  }

  lemma RecoverOneEvolves(db: Db, j: JobId)
    requires Expired(db, j) && db.jobs[j].status == Running
    requires var a := db.jobs[j].current.value; db.attempts[a].job == j && db.attempts[a].state == Executing && AttemptOk(db, a)
    ensures JobEvolves(db, RecoverOne(db, j), j) && AttemptEvolves(db, RecoverOne(db, j), db.jobs[j].current.value)
    ensures KeepsEvidence(db, RecoverOne(db, j), j)
  {}

  lemma {:induction false} RecoverSound(db: Db, order: seq<JobId>, rest: seq<JobId>)
    requires Published(db) && Lifecycle(db) && AllExpired(db, order + rest)
    ensures Sound(db, Recover(db, order))
  {
    if order == [] {
      SameJobsPublished(db, db);
    } else {
      var head, last := order[..|order| - 1], order[|order| - 1];
      assert order + rest == head + ([last] + rest) && ([last] + rest)[0] == last;
      RecoverSound(db, head, [last] + rest);
      RecoverKeeps(db, head, [last] + rest);
      RecoverOneSound(Recover(db, head), last);
      OutputsTerminal(db);
      EvolvesTwice(db, Recover(db, head), Recover(db, order));
    }
  }

  lemma OutputsTerminal(db: Db)
    requires Published(db)
    ensures forall j | j in db.jobs :: db.jobs[j].output.Some? ==> Terminal(db.jobs[j].status)
  {
    forall j | j in db.jobs && db.jobs[j].output.Some? ensures Terminal(db.jobs[j].status) {
      assert OutputOk(db, j);
    }
  }

  lemma ConfirmSound(db: Db, a: AttemptId, token: Token)
    requires Published(db) && Lifecycle(db)
    ensures Sound(db, ConfirmStopped(db, a, token))
  {
    if a in db.attempts && db.attempts[a].token == token && db.attempts[a].state == ExpiredUnconfirmed {
      assert AttemptOk(db, a) && JobOk(db, db.attempts[a].job);
      LocalPublished(db, ConfirmStopped(db, a, token), db.attempts[a].job, a);
    } else {
      SameJobsPublished(db, db);
    }
  }

  lemma ReleaseSound(db: Db, j: JobId, token: Token, stopped: bool)
    requires Published(db) && Lifecycle(db)
    ensures Sound(db, Release(db, j, token, stopped))
  {
    if stopped && Releasable(db, j, token) {
      LocalPublished(db, Release(db, j, token, stopped), j, db.jobs[j].current.value);
    } else {
      SameJobsPublished(db, db);
    }
  }

  lemma TargetClaimSound(db: Db, j: JobId, cleared: set<JobId>, result: TargetResult)
    requires Published(db) && JobsOk(db) && AttemptsOk(db)
    ensures Sound(db, TargetClaim(db, j, cleared, result))
  {
    var db' := TargetClaim(db, j, cleared, result);
    TargetClaimEffect(db, j, cleared, result);
    FlagsSound(db, db', cleared);
  }

  lemma FlagsSound(db: Db, db': Db, cleared: set<JobId>)
    requires Published(db) && JobsOk(db) && AttemptsOk(db)
    requires db'.attempts == db.attempts && db'.jobs.Keys == db.jobs.Keys
    requires db'.now == db.now && db'.sets == db.sets && db'.builds == db.builds
    requires forall k | k in db.jobs :: FlagOnly(db, db', k, cleared)
    ensures Sound(db, db')
  {
    forall k | k in db.jobs ensures JobEvolves(db, db', k) && SetsEvolve(db, db', k) && KeepsEvidence(db, db', k) {
      assert FlagOnly(db, db', k, cleared);
    }
    forall b | b in db.attempts ensures AttemptEvolves(db, db', b) {}
    PublishedFrame(db, db', {});
  }

  /** Storing a set under a fresh identity, or deleting one nothing refers to, leaves the used ones alone. */
  lemma SetsSound(db: Db, db': Db)
    requires Published(db) && JobsOk(db) && AttemptsOk(db)
    requires db'.jobs == db.jobs && db'.attempts == db.attempts && db'.builds == db.builds && db.now <= db'.now
    requires forall t | t in db.sets && Referenced(db, t) :: t in db'.sets && db'.sets[t] == db.sets[t]
    ensures Sound(db, db')
  {
    SameJobsPublished(db, db');
  }

  /** Sealing and publishing happen together, after every check. */
  lemma FinishSound(db: Db, j: JobId, token: Token, out: Option<SetId>, delay: Time)
    requires Published(db) && Lifecycle(db)
    ensures Sound(db, Finish(db, j, token, out, delay))
  {
    var db' := Finish(db, j, token, out, delay);
    if FinishVerdict(db, j, token, out, delay) == Committed {
      AuthorizedFacts(db, j, token);
      FinishEvolves(db, j, token, out, delay);
      forall k | k in db.jobs && k !in {j} ensures KeepsEvidence(db, db', k) {}
      assert InputOk(db, j);
      FinishedInput(db, j, token, out, delay);
      PublishedFrame(db, db', {j});
    } else {
      SameJobsPublished(db, db');
    }
  }

  lemma FinishEvolves(db: Db, j: JobId, token: Token, out: Option<SetId>, delay: Time)
    requires Lifecycle(db) && Published(db) && FinishVerdict(db, j, token, out, delay) == Committed
    ensures Evolves(db, Finish(db, j, token, out, delay))
  {
    var db' := Finish(db, j, token, out, delay);
    AuthorizedFacts(db, j, token);
    forall k | k in db.jobs ensures JobEvolves(db, db', k) {}
    FinishSetsEvolve(db, j, token, out, delay);
    forall b | b in db.attempts ensures AttemptEvolves(db, db', b) {}
  }

  lemma FinishSetsEvolve(db: Db, j: JobId, token: Token, out: Option<SetId>, delay: Time)
    requires FinishVerdict(db, j, token, out, delay) == Committed
    ensures forall k | k in db.jobs :: SetsEvolve(db, Finish(db, j, token, out, delay), k)
  {}

  lemma FinishedInput(db: Db, j: JobId, token: Token, out: Option<SetId>, delay: Time)
    requires FinishVerdict(db, j, token, out, delay) == Committed && j in db.jobs && InputOk(db, j)
    ensures InputOk(Finish(db, j, token, out, delay), j) && OutputOk(Finish(db, j, token, out, delay), j)
  {}
}
