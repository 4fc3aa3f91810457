# Verified model of dbt_metricflow_service

dbt_metricflow_service builds dbt projects, publishes their artifacts, keeps track of what is deployed, and answers
metric queries. This project models the parts of it whose correctness depends on more than one call, and proves what
they keep over every input, every run and every interleaving. `dafny verify dfyconfig.toml` checks everything.

| files | what they model |
|---|---|
| `Jobs`, `JobStores`, `JobProtocol`, `Publication`, `JobRuns`, `Fencing`, `JobTransitions`, `Leases`, `Outcomes` | the job queue: leases, attempts, fencing tokens, physical warehouse targets, recovery, publication of outputs, garbage collection |
| `Deployments`, `DeploymentProtocol`, `DeploymentRuns`, `DeploymentSteps` | deployment intents, observers and reconcilers with slow Git reads |
| `BoundPlan`, `BoundPlanLaws`, `BoundGroups`, `BoundSql`, `BoundSqlLaws`, `BoundQuery` | queries that bind each metric to its own dimension path, from request to aligned and truncated rows |
| `Redaction` | streaming removal of secrets before a bounded tail |
| `ArtifactPaths`, `Workspaces`, `ArtifactSets`, `ArtifactRoundTrips` | legal path sets, writing them to a file system that ignores case, capture, validation, materialization, and their round trip |
| `ExecutionLogs`, `LogHistories`, `LogWriters`, `EngineLocks`, `Heartbeats`, `Admission` | the log cursor, the log queue, the engine lock under cancellation, the heartbeat's timing, build admission |

`Common` holds the result shapes, `Permutations` the facts about lists in different orders.

## How to read it

Where the service updates rows or fields in place, a class holds the tables as fields and each method is one
transaction, proved equal to a function from snapshot to snapshot; the invariants and the theorems over runs are about
those functions. A run is a sequence of states that starts empty and in which every step is one that some process may
take. What a step changes is said twice: by the function that the method is proved against, and, in `JobTransitions`,
`DeploymentSteps` and the lemmas named `…Exact` elsewhere, by the rows before and after alone. Code that only computes is
a function with lemmas beside it.

Assumptions, all of them visible as guards of steps, as parameters or as preconditions:

- A transaction is one atomic step at one clock reading, as the fact lock and the row locks make it
  (`src/dbt_metricflow_service/storage/postgres.py:46-59`). The clock may advance inside `heartbeat` and inside `finish`,
  where the code reads it twice. New ids and lease tokens are fresh. Rows skipped because another worker holds them are
  an arbitrary set.
- An attempt's process goes through its steps in the order of `src/dbt_metricflow_service/execution/build.py:52-117`:
  fixed source, target claim, then the external phase, then the engine. `InEngine` lasts until the warehouse work has
  ended. Whoever reports a stop (`fail` with `stopped`, `finish`, an operator's confirmation) does so only when the
  process is over.
- `intact` in `Jobs` is the verdict of `ArtifactSets.Validate` on file rows that never change once inserted.
- In `Deployments` the build rows move as the job queue allows: a succeeded row with its output and commit is final.
  Answers about a branch head are a commit, absence or a failure; ancestry answers are arbitrary,
  except where a theorem asks that they follow one history.
- In the bound queries the engine is an arbitrary deterministic function from a group to SQL, a refusal or a failure, and
  the warehouse an arbitrary function from SQL text to rows, grouped by its key columns. Joins and the key union follow
  three-valued logic (section 8.2 of ISO/IEC 9075-2). ORDER BY may return any sorted order.
- Hash functions are injective where a theorem says so, compression is an inverse pair where a theorem says so, and case
  folding acts on path components.
- A query over the rows of an artifact set may return them in any order: the column has no fixed collation
  (`src/dbt_metricflow_service/storage/schema.sql:202`), while Python sorts by code points.
- Secrets are non-empty, as both callers of the buffer filter them
  (`src/dbt_metricflow_service/execution/embedded.py:102`, `src/dbt_metricflow_service/platform/execution_profile.py:77`).

Places where the code does less than its comments or names suggest:

- The settings reject a lease shorter than three heartbeats so that a worker can always stop itself in time
  (`src/dbt_metricflow_service/settings.py:124-128`). That check alone is not enough when round trips are slow.
  `Heartbeats.StopsBeforeExpiryIff` gives the exact condition on interval, lease and round trip.
- Redaction replaces a secret by asterisks, which can complete another occurrence of a secret that has asterisks at an
  end or contains three of them. `Redaction.HiddenIffSafe` says exactly which secrets are hidden in every text.
- The test for a newer generation inside `settle` never changes an open intent, because acceptance has already closed
  every older one (`DeploymentRuns.NewerIntentAlreadyClosed`).


## Model

| member | source | states |
|---|---|---|
| `JobStores.JobStore.Authorize` | `src/dbt_metricflow_service/storage/jobs.py:356-380` | The token speaks for an attempt only while the job is running, the attempt is its current one and executing, and the lease is alive now |
| `JobStores.JobStore.Reserve` | `src/dbt_metricflow_service/storage/jobs.py:197-302` | Admission takes a job only if a given input set is sealed and of the same project; a refusal changes nothing |
| `JobStores.JobStore.ClaimNext` | `src/dbt_metricflow_service/storage/jobs.py:304-354` | The job leased is first in queue order among the eligible ones no other worker has locked; nothing changes when there is none |
| `JobStores.JobStore.Renew` | `src/dbt_metricflow_service/storage/jobs.py:382-395` | A heartbeat moves only the lease of the authorized attempt, counted from the later clock reading |
| `JobStores.JobStore.SetPhase` | `src/dbt_metricflow_service/storage/jobs.py:397-418` | Phase and external stage are recorded only for an authorized token |
| `JobStores.JobStore.Attach` | `src/dbt_metricflow_service/storage/jobs.py:420-442` | The input is attached once; a foreign, unsealed or different set is refused with its own error |
| `JobStores.JobStore.Pin` | `src/dbt_metricflow_service/storage/builds.py:190-217` | The commit is pinned on the build and its job together, and never repinned to another |
| `JobStores.JobStore.FinishSucceeded` | `src/dbt_metricflow_service/storage/jobs.py:461-533` | Finishing commits output, attempt and job together; a lease lost while sealing undoes the seal |
| `JobStores.JobStore.CheckOutput` | `src/dbt_metricflow_service/storage/jobs.py:479-508` | No objection exactly when the set is publishable: made by this attempt, of the same project, complete, intact, and repeating the evidence fixed for the build |
| `JobStores.JobStore.ReportFailure` | `src/dbt_metricflow_service/storage/jobs.py:535-572` | A failure without proof of stop leaves the attempt unconfirmed and without a stop stamp |
| `JobStores.JobStore.RecoverJob` | `src/dbt_metricflow_service/storage/jobs.py:592-624` | One expired job: retried after a delay while preparing, failed for good once external |
| `JobStores.JobStore.RecoverExpired` | `src/dbt_metricflow_service/storage/jobs.py:574-625` | The recovery loop is the composition of its single recoveries, in order |
| `JobStores.JobStore.Confirm` | `src/dbt_metricflow_service/storage/jobs.py:627-645` | A confirmation stops only an unconfirmed attempt named by its own token |
| `JobStores.JobStore.ClaimTarget` | `src/dbt_metricflow_service/storage/execution_targets.py:18-39` | A target is granted only after every other owner was found safe; a refusal keeps the releases made before it |
| `JobStores.JobStore.ReleaseTarget` | `src/dbt_metricflow_service/storage/execution_targets.py:41-54` | A release takes effect only with the persisted stop of the current attempt, whatever the caller declares |
| `JobStores.JobStore.Collect` | `src/dbt_metricflow_service/storage/artifacts.py:390-412` | A set is deleted exactly when it exists and nothing refers to it |
| `JobProtocol.StepKeeps` | `src/dbt_metricflow_service/execution/build.py:52-72` | Every step of any process, in any interleaving, keeps the lifecycle of jobs and attempts and what each process relies on |
| `JobRuns.RunSafe` | `src/dbt_metricflow_service/storage/jobs.py:304-645` | Every state of every run from the empty database satisfies all invariants, published evidence included |
| `JobRuns.RunEvolves` | `src/dbt_metricflow_service/storage/jobs.py:304-645` | Between any two states of a run, identities, fixed inputs, final outcomes and stop stamps only ever stay |
| `JobRuns.TargetExclusion` | `src/dbt_metricflow_service/storage/execution_targets.py:18-54` | At most one attempt per physical target is external without a confirmed stop, in every state of every run |
| `JobRuns.EngineExclusion` | `src/dbt_metricflow_service/execution/build.py:66-72` | At most one engine process per physical target is running, whatever crashed, expired or was taken over |
| `JobRuns.EngineHasFixedInput` | `src/dbt_metricflow_service/execution/build.py:52-61` | An engine runs only on a sealed input of its project that was fixed before and never changes later |
| `JobRuns.RunningIffExecuting` | `src/dbt_metricflow_service/storage/jobs.py:356-380` | A job is running exactly when it has an executing attempt, and that attempt is its current one |
| `JobRuns.AttemptNumbersExact` | `src/dbt_metricflow_service/storage/jobs.py:330-348` | Attempt numbers are exactly 1 to attempt_no, each once, and at most max_attempts |
| `JobRuns.AtMostOnceExternal` | `src/dbt_metricflow_service/storage/jobs.py:597-622` | A job has at most one external attempt over any run, and no attempt follows it |
| `JobRuns.StopStampExact` | `src/dbt_metricflow_service/storage/jobs.py:535-645` | The stop stamp is absent exactly for executing and unconfirmed attempts |
| `JobRuns.OutcomeFinal` | `src/dbt_metricflow_service/storage/jobs.py:512-529` | A succeeded or failed job never changes again, apart from its claim on the target |
| `JobRuns.PublicationLasts` | `src/dbt_metricflow_service/storage/jobs.py:475-531` | A succeeded build keeps its sealed output and input, matching commit, digest, configuration and toolchain, through every later step including garbage collection |
| `JobRuns.CommitPinnedOnce` | `src/dbt_metricflow_service/storage/builds.py:196-216` | A pinned commit is never replaced |
| `Fencing.StaleForever` | `src/dbt_metricflow_service/storage/jobs.py:356-395` | An attempt that has left execution or whose lease has run out stays so in every later state of a run, whatever heartbeats come late |
| `Fencing.SupersededForever` | `src/dbt_metricflow_service/storage/jobs.py:356-380` | The token of such an attempt is never accepted again |
| `Fencing.StaleTokenWritesNothing` | `src/dbt_metricflow_service/storage/jobs.py:382-572` | Whatever a process does in a run under a token that was superseded or had run out at some earlier moment, no row differs afterwards |
| `Fencing.UnknownTokenWritesNothing` | `src/dbt_metricflow_service/storage/jobs.py:382-572` | The same for a token of no attempt |
| `Fencing.FollowedReleasesNothing` | `src/dbt_metricflow_service/storage/execution_targets.py:41-54` | An attempt followed by a newer one of its job can no longer release the target |
| `Fencing.FinishAllOrNothing` | `src/dbt_metricflow_service/storage/jobs.py:474-533` | A finish in a run commits exactly when its caller holds the job under a lease that outlives the sealing and the output is publishable; then job, attempt and set change together with the published evidence, otherwise no row differs, the set state included |
| `JobTransitions.NoOvertaking` | `src/dbt_metricflow_service/storage/jobs.py:315-329` | Whatever else was waiting, due, compatible and not locked became available no earlier than the job claimed, and on a tie was created no earlier |
| `JobTransitions.ClaimStarts` | `src/dbt_metricflow_service/storage/jobs.py:330-354` | A claim gives its job a next attempt, executing under its own token and a full lease; the token speaks for no other attempt |
| `JobTransitions.HolderAlone` | `src/dbt_metricflow_service/storage/jobs.py:356-572` | A heartbeat, phase, pin, attachment or failure has its full effect exactly when its token belongs to an executing attempt of the job with a live lease, whatever else the rows say; nothing but the rows named changes |
| `JobTransitions.AnswersExact` | `src/dbt_metricflow_service/storage/jobs.py:420-442` | Which answer attaching and pinning give, exactly, in every state of a run |
| `JobTransitions.FinishAnswers` | `src/dbt_metricflow_service/storage/jobs.py:474-517` | The holder is told the first thing that speaks against its output; without one it commits if the lease outlives the sealing, and anybody else has lost the lease |
| `JobTransitions.RecoveryExact` | `src/dbt_metricflow_service/storage/jobs.py:574-625` | A job of a recovery pass is queued again exactly when its attempt was preparing, its policy allows it and it has attempts left, for 5 seconds after the first attempt and 15 after later ones; otherwise it fails, with an unknown outcome exactly when the attempt was external; no other row changes |
| `JobTransitions.ConfirmExact` | `src/dbt_metricflow_service/storage/jobs.py:627-645` | A confirmation stops the unconfirmed attempt its token names and changes nothing else |
| `JobTransitions.TargetClaimExact` | `src/dbt_metricflow_service/storage/execution_targets.py:18-39` | A target is granted exactly to a holder no rival of which has an attempt without a confirmed stop; afterwards it alone holds it, and nobody who may still write has lost it |
| `JobTransitions.ReleaseExact` | `src/dbt_metricflow_service/storage/execution_targets.py:41-54` | A target is given up exactly on the word of the token of the last attempt of a job that is not queued, once the stop of that attempt is on record |
| `JobTransitions.CollectExact` | `src/dbt_metricflow_service/storage/artifacts.py:390-412` | A set disappears exactly when no job, project or set refers to it and no attempt without a confirmed stop is making it |
| `JobTransitions.AdmitExact` | `src/dbt_metricflow_service/storage/jobs.py:197-302` | Admission inserts the job as requested and the row of its build, with an available input, and touches nothing else |
| `Leases.LeaseFromLastGrant` | `src/dbt_metricflow_service/storage/jobs.py:330-395` | In every state of a run the stored end of a lease is one lease after the last grant, by claim or by heartbeat of the holder |
| `Leases.LeaseProtects` | `src/dbt_metricflow_service/storage/jobs.py:356-625` | From any grant until the lease is over, whatever anybody else does, the attempt stays authorized until it ends itself |
| `Leases.ExternalSince` | `src/dbt_metricflow_service/storage/jobs.py:397-418` | An attempt is external exactly when it was let out at some earlier step at which it held its job |
| `Leases.AllowedExactly` | `src/dbt_metricflow_service/execution/build.py:66-72` | Its process may start the engine exactly then, and otherwise gives up |
| `Outcomes.KeepsWaiting` | `src/dbt_metricflow_service/storage/jobs.py:304-354` | Until its next attempt a waiting job keeps its place in the queue |
| `Outcomes.RetryWaits` | `src/dbt_metricflow_service/storage/jobs.py:609-613` | A job that was put back is not claimed before its delay is over |
| `Outcomes.FailedForAReason` | `src/dbt_metricflow_service/storage/jobs.py:535-622` | In every state of a run a job has an error exactly when it has failed, and the error is true: an expired lease only while preparing and without another try left, an unknown outcome only after going external; no job that may not be retried waits for a second attempt |
| `Deployments.DeploymentStore.MarkStale` | `src/dbt_metricflow_service/storage/deployments.py:50-55` | Exactly the open intents of the target become stale |
| `Deployments.DeploymentStore.AcceptIntent` | `src/dbt_metricflow_service/storage/deployments.py:63-95` | A new intent takes the next generation and supersedes all open ones |
| `Deployments.DeploymentStore.ObserveHead` | `src/dbt_metricflow_service/storage/deployments.py:122-145` | An observation is stored only against the version and pointer it was made for; a missing branch also drops the pointer and open intents |
| `Deployments.DeploymentStore.Judge` | `src/dbt_metricflow_service/storage/deployments.py:157-182` | The verdict on a settlement, case by case |
| `Deployments.DeploymentStore.SettleIntent` | `src/dbt_metricflow_service/storage/deployments.py:147-195` | A settlement is ignored, closes the intent, or switches the pointer and closes the intent as deployed |
| `DeploymentProtocol.StepKeeps` | `src/dbt_metricflow_service/application/deployments.py:45-124` | Any interleaving of observers and reconcilers with slow reads keeps the store and what each call in progress relies on |
| `DeploymentRuns.GenerationsExact` | `src/dbt_metricflow_service/storage/deployments.py:71-95` | The generations of a target are exactly 1 to desired_generation |
| `DeploymentRuns.OnlyNewestOpen` | `src/dbt_metricflow_service/storage/deployments.py:77-85` | At most one intent of a target is open, and it is the newest |
| `DeploymentRuns.ClosedIntentsFinal` | `src/dbt_metricflow_service/storage/deployments.py:160-161` | A terminal intent never changes |
| `DeploymentRuns.DeploymentsAscend` | `src/dbt_metricflow_service/storage/deployments.py:162-193` | What is deployed later has a higher generation and no earlier time |
| `DeploymentRuns.ActiveIsNewestDeployed` | `src/dbt_metricflow_service/storage/deployments.py:183-193` | The active build is none or that of the highest deployed generation |
| `DeploymentRuns.SourceStateAgrees` | `src/dbt_metricflow_service/application/deployments.py:49-68` | MATCHED, AHEAD and DIVERGED mean an active succeeded build with output whose commit does or does not equal the head; UNDEPLOYED and MISSING mean no active build |
| `DeploymentRuns.VersionNamesRow` | `src/dbt_metricflow_service/storage/deployments.py:133-142` | Equal versions of a target mean equal rows, at any two moments of a run |
| `DeploymentRuns.StaleTokenPowerless` | `src/dbt_metricflow_service/storage/deployments.py:133-168` | A token from before any change of the target cannot overwrite it, deploy, or close an intent for a changed head |
| `DeploymentRuns.DecisionsAreTrue` | `src/dbt_metricflow_service/application/deployments.py:107-124` | A reconciler deploys only a build whose commit is the head on record, and closes for a changed head only when that head really differs |
| `DeploymentRuns.NewerIntentAlreadyClosed` | `src/dbt_metricflow_service/storage/deployments.py:162-163` | The rejection of an outdated generation inside a settlement is never reached with an open intent |
| `DeploymentSteps.AheadIsDescendant` | `src/dbt_metricflow_service/application/deployments.py:52-64` | When the answers about ancestry are true to one history, a target shown ahead has a head that descends from its active commit and differs from it, and one shown diverged has a head that does not descend, in every state of a run |
| `DeploymentSteps.ObservationExact` | `src/dbt_metricflow_service/application/deployments.py:45-73` | An observation that is still current becomes the row, whose state says exactly how the head heard compares with the commit of the active build; a missing branch drops pointer and open intents; an overtaken observation changes nothing |
| `DeploymentSteps.AheadExactly` | `src/dbt_metricflow_service/application/deployments.py:52-64` | With a true and available answer, the row saved shows ahead exactly when the head is a descendant of the active commit other than itself, and diverged exactly when it is neither |
| `DeploymentSteps.AcceptExact` | `src/dbt_metricflow_service/storage/deployments.py:63-95` | An accepted build becomes the newest intent, pending exactly when it has succeeded; only the intent before it can change, and what is deployed and observed stays |
| `DeploymentSteps.DecisionExact` | `src/dbt_metricflow_service/application/deployments.py:107-124` | A reconciler acts exactly when its intent is open and the row it read is still current and says something: it deploys if the head is the commit of its build, and otherwise closes for a changed head |
| `DeploymentSteps.CloseExact` | `src/dbt_metricflow_service/application/deployments.py:92-106` | A failed or cancelled build closes its intent exactly when that is open, and changes no target |
| `BoundPlan.CompileBoundQuery` | `src/dbt_metricflow_service/application/bound_query_plan.py:24-66` | Which requests compile, which error each other request meets, and the plan |
| `BoundPlan.CompileBase` | `src/dbt_metricflow_service/application/query_plan.py:98-107` | A request passes exactly when every filter belongs to the common selection and its operator is allowed |
| `BoundPlan.ResolvePath` | `src/dbt_metricflow_service/application/bound_query_plan.py:37-45` | The path of one metric, or the rejection when any of its selections does not resolve |
| `BoundPlan.AlignPath` | `src/dbt_metricflow_service/application/bound_query_plan.py:46-52` | A path is accepted exactly when its names are usable and its types and grains repeat those of the first metric |
| `BoundPlan.AlignMetrics` | `src/dbt_metricflow_service/application/bound_query_plan.py:36-60` | Metrics in turn are put into one group per different path; failure exactly when some metric cannot be aligned |
| `BoundPlan.CompileOrder` | `src/dbt_metricflow_service/application/bound_query_plan.py:61-66` | Order terms are compiled exactly when every field was selected |
| `BoundPlanLaws.MetricsOnce` | `src/dbt_metricflow_service/application/bound_query_plan.py:36-66` | Every requested metric is in exactly one group, once, and nothing else is |
| `BoundPlanLaws.MetricsInOrder` | `src/dbt_metricflow_service/application/bound_query_plan.py:36-66` | The result shows the metrics in the order in which the request first names them |
| `BoundPlanLaws.CompilesExactly` | `src/dbt_metricflow_service/application/bound_query_plan.py:24-66` | Said of the request alone: it compiles exactly when its filters are allowed, every selection exists with a known grain and an explicit one for time, output columns are apart and agree in type and grain, and every order field was selected; otherwise the first of these that fails names the error |
| `BoundPlanLaws.OwnPath` | `src/dbt_metricflow_service/application/bound_query_plan.py:11-21` | Each metric is computed along exactly the dimensions bound for it, token, name, type and grain, under the requested filters translated to the tokens of the common selection, and under the requested limit |
| `BoundPlanLaws.OneGroupPerPath` | `src/dbt_metricflow_service/application/bound_query_plan.py:53-60` | Different groups have different signatures, so metrics with the same full path share a group |
| `BoundPlanLaws.SameColumns` | `src/dbt_metricflow_service/application/bound_query_plan.py:46-52` | All groups expose the same columns in the same order with equal types and grains, disjoint from the metrics |
| `BoundPlanLaws.OrderProjected` | `src/dbt_metricflow_service/application/bound_query_plan.py:35-66` | Every order term names a projected column: the last dimension of that name, or else the metric |
| `BoundGroups.Place` | `src/dbt_metricflow_service/engines/bound_queries.py:34-50` | First fit: a metric joins the first group whose combination compiles, and every earlier group has refused it |
| `BoundGroups.CompileCandidate` | `src/dbt_metricflow_service/engines/bound_queries.py:22-50` | A candidate stays whole if it compiles; otherwise its parts are sublists of its metrics that hold them exactly once, each with the SQL of its own tuple |
| `BoundGroups.CompileGroups` | `src/dbt_metricflow_service/engines/bound_queries.py:18-51` | All candidates in order, with at most the sum of 1 + n(n+1)/2 calls, each for some metrics of a candidate; an error is the outcome of the last call made and no earlier call failed |
| `BoundGroups.TriangleClosed` | `src/dbt_metricflow_service/engines/bound_queries.py:32-50` | The call bound in closed form |
| `BoundGroups.NoMergeLeft` | `src/dbt_metricflow_service/engines/bound_queries.py:31-50` | If compilability depends on the metric set and is closed under subsets, no two groups of a candidate can be merged |
| `BoundSql.BuildSource` | `src/dbt_metricflow_service/engines/bound_queries.py:67-75` | The chain of null-safe LEFT JOINs, one for each group |
| `BoundSql.MetricGroups` | `src/dbt_metricflow_service/engines/bound_queries.py:58-58` | Each metric is read from the last group that lists it |
| `BoundSql.MergeSql` | `src/dbt_metricflow_service/engines/bound_queries.py:54-82` | The query: the direct form for one group, the key union with outer joins otherwise |
| `BoundSqlLaws.KeysExact` | `src/dbt_metricflow_service/engines/bound_queries.py:63-66` | The UNION holds every key tuple of every group exactly once, NULLs being alike |
| `BoundSqlLaws.GeneralMeaning` | `src/dbt_metricflow_service/engines/bound_queries.py:62-77` | The union with LEFT JOINs evaluates to one row per key of any group, each metric its own group's value or NULL |
| `BoundSqlLaws.DirectMeaning` | `src/dbt_metricflow_service/engines/bound_queries.py:59-61` | The single-group shortcut evaluates to the same alignment |
| `BoundSqlLaws.SameMeaning` | `src/dbt_metricflow_service/engines/bound_queries.py:59-77` | On one group the shortcut and the general form agree |
| `BoundQuery.TruncationExact` | `src/dbt_metricflow_service/engines/results.py:21-27` | After ORDER BY and LIMIT limit+1 the truncation flag holds exactly when the aligned result has more than limit rows, and the rows shown are its first ones |
| `BoundQuery.ShownInOrder` | `src/dbt_metricflow_service/engines/bound_queries.py:78-82` | Of two rows shown, the earlier one comes first by the first ORDER BY term in which they differ, in its direction |
| `BoundQuery.SortsByOutput` | `src/dbt_metricflow_service/engines/bound_queries.py:78-82` | Every ORDER BY term sorts, in the requested direction, by the one output column the requested field stands for, provided no column starts with a minus |
| `BoundQuery.CompiledOnce` | `src/dbt_metricflow_service/engines/bound_queries.py:18-51` | After planning and splitting, every metric is still computed exactly once |
| `BoundQuery.MetricSource` | `src/dbt_metricflow_service/application/bound_query_plan.py:24-66` | Each metric is read from the one SQL group compiled for metrics that all follow its own path, by a call that carries exactly the requested filters and limit |
| `BoundQuery.QueryBound` | `src/dbt_metricflow_service/engines/metricflow.py:185-194` | A request is rejected exactly with the planner's error; a planned query fails only with the outcome of the last engine call, and never when the engine takes each metric alone and does not fail; otherwise it is the merged query |
| `Redaction.TailBuffer.Append` | `src/dbt_metricflow_service/execution/output.py:19-24` | The buffer keeps exactly the last bytes of everything appended, and remembers when that is not all |
| `Redaction.FirstAt` | `src/dbt_metricflow_service/execution/output.py:66-69` | The first of the length-sorted secrets that matches is the longest one |
| `Redaction.Scan` | `src/dbt_metricflow_service/execution/output.py:63-76` | The scanning loop keeps output and rest in agreement with the redaction of the whole text, whatever follows |
| `Redaction.RedactingTailBuffer.Process` | `src/dbt_metricflow_service/execution/output.py:55-81` | Held-back text stays shorter than the longest secret; output so far agrees with every continuation |
| `Redaction.RedactingTailBuffer.Feed` | `src/dbt_metricflow_service/execution/output.py:43-45` | Feeding a chunk keeps the buffer valid and only extends the text fed |
| `Redaction.RedactingTailBuffer.Finish` | `src/dbt_metricflow_service/execution/output.py:47-49` | At the end of the stream the tail is that of the redacted whole; finishing again adds nothing |
| `Redaction.Collect` | `src/dbt_metricflow_service/execution/output.py:27-81` | For every chunking the bytes kept are the last max_bytes of the redacted whole, truncated exactly when it is longer |
| `Redaction.RedactsPieces` | `src/dbt_metricflow_service/execution/output.py:63-76` | However a text is cut into kept characters and secrets, longest first, its redaction is those characters with the marker for each secret |
| `Redaction.CutIntoPieces` | `src/dbt_metricflow_service/execution/output.py:63-76` | And every text can be cut that way |
| `Redaction.NoSecretLeft` | `src/dbt_metricflow_service/execution/output.py:65-73` | A secret that neither starts nor ends with an asterisk and does not contain the marker occurs nowhere in redacted text, whatever the other secrets are |
| `Redaction.UnsafeIsPutBack` | `src/dbt_metricflow_service/execution/output.py:65-73` | For every other secret there is a text whose redaction shows it |
| `Redaction.HiddenIffSafe` | `src/dbt_metricflow_service/execution/output.py:9-73` | So a secret is hidden in every text exactly when it has that form |
| `ArtifactPaths.RelativeExact` | `src/dbt_metricflow_service/storage/artifacts.py:113-122` | A string is accepted exactly when it joins clean components, and yields them |
| `ArtifactPaths.RelativeReadsBack` | `src/dbt_metricflow_service/storage/artifacts.py:113-122` | An accepted path can be read back character by character |
| `ArtifactPaths.Note` | `src/dbt_metricflow_service/storage/artifacts.py:131-135` | A path and its parents fit the spelling table exactly when each known one has the same spelling |
| `ArtifactPaths.CheckSpelling` | `src/dbt_metricflow_service/storage/artifacts.py:129-139` | The first loop fails exactly on an unreadable path, a coincidence or a second spelling |
| `ArtifactPaths.CheckParents` | `src/dbt_metricflow_service/storage/artifacts.py:140-142` | The second loop fails exactly when a file is an ancestor of another |
| `ArtifactPaths.CheckPaths` | `src/dbt_metricflow_service/storage/artifacts.py:125-142` | A list is accepted exactly when it is legal up to case; the parent conflict is reported exactly when nothing else is wrong |
| `Workspaces.Workspace.MakeParents` | `src/dbt_metricflow_service/storage/artifacts.py:383-383` | Missing parents are created, and only a file in the way fails |
| `Workspaces.Workspace.CreateExclusive` | `src/dbt_metricflow_service/storage/artifacts.py:384-387` | A file is created exactly when its folded path is free |
| `Workspaces.Workspace.Materialize` | `src/dbt_metricflow_service/storage/artifacts.py:381-387` | The loop succeeds exactly when each file in turn is accepted, and leaves the composed tree |
| `Workspaces.PutAllExact` | `src/dbt_metricflow_service/storage/artifacts.py:381-387` | Writing succeeds exactly when the paths are apart up to case, and then the tree holds the files, their directories and nothing else |
| `Workspaces.LegalIsReproduced` | `src/dbt_metricflow_service/storage/artifacts.py:125-142` | A legal list is written without a collision on a case-insensitive file system, with every spelling, byte and flag |
| `Workspaces.ReproducedIsLegal` | `src/dbt_metricflow_service/storage/artifacts.py:125-142` | Conversely, only legal lists come back unchanged |
| `ArtifactSets.LimitsFor` | `src/dbt_metricflow_service/storage/artifacts.py:240-248` | Each limit is the smaller of the setting and the hard limit; non-positive settings are refused |
| `ArtifactSets.DecodeExact` | `src/dbt_metricflow_service/storage/artifacts.py:221-238` | A stored file decodes to a content exactly when its sizes are within the limit and its bytes, as they are or inflated in full, are that content with the recorded size and hash; the bounded read changes nothing |
| `ArtifactSets.FrameInjective` | `src/dbt_metricflow_service/storage/artifacts.py:145-151` | The framed digest input determines the list of entries |
| `ArtifactSets.Validate` | `src/dbt_metricflow_service/storage/artifacts.py:339-347` | Validation passes exactly on legal paths, recorded size, count and digest, and intact files |
| `ArtifactSets.Capture` | `src/dbt_metricflow_service/storage/artifacts.py:250-324` | Capture succeeds exactly on legal paths within the limits whose files did not change, and stores exactly them |
| `ArtifactSets.EveryRowCaptured` | `src/dbt_metricflow_service/storage/artifacts.py:339-347` | Any rows that validate against a captured set's metadata hold only captured files |
| `ArtifactSets.EveryFilePresent` | `src/dbt_metricflow_service/storage/artifacts.py:339-347` | And they hold all of them |
| `ArtifactSets.SealSet` | `src/dbt_metricflow_service/storage/artifacts.py:326-337` | Only a staged or sealed set that is intact is sealed, and nothing but its state changes |
| `ArtifactSets.MaterializeSet` | `src/dbt_metricflow_service/storage/artifacts.py:364-388` | Into an empty directory a set materializes exactly when it is sealed and validates, without a collision, and reproduces its files; every refusal leaves the directory alone |
| `ArtifactRoundTrips.DigestPermuted` | `src/dbt_metricflow_service/storage/artifacts.py:145-151` | The digest of a set with distinct paths does not depend on the order of its rows, because sorting by path forgets it |
| `ArtifactRoundTrips.LegalPermuted` | `src/dbt_metricflow_service/storage/artifacts.py:125-142` | Whether a list of paths is legal does not depend on its order |
| `ArtifactRoundTrips.IntactPermuted` | `src/dbt_metricflow_service/storage/artifacts.py:339-347` | Whether a set validates does not depend on the order in which its rows are read |
| `ArtifactRoundTrips.CaptureValidates` | `src/dbt_metricflow_service/storage/artifacts.py:326-347` | A captured set passes the validation that seals it, in whatever order the database returns its rows |
| `ArtifactRoundTrips.CapturedItems` | `src/dbt_metricflow_service/storage/artifacts.py:250-388` | Every captured file has an item with its own path, bytes and executable flag, in any row order |
| `ArtifactRoundTrips.ItemsCaptured` | `src/dbt_metricflow_service/storage/artifacts.py:250-388` | And every item belongs to a captured file |
| `ArtifactRoundTrips.CaptureSealMaterialize` | `src/dbt_metricflow_service/storage/artifacts.py:250-388` | Capture, seal, materialize under the same limits, with any row order at each reading: exactly what can be captured comes back, every path, byte and flag, and nothing else |
| `ExecutionLogs.StepKeeps` | `src/dbt_metricflow_service/storage/execution_logs.py:27-59` | Every step of appenders and readers keeps readers exact and open transactions younger than committed rows |
| `ExecutionLogs.CursorExact` | `src/dbt_metricflow_service/storage/execution_logs.py:27-59` | At every moment a reader has seen exactly the committed rows of its build up to its cursor, once and in order |
| `ExecutionLogs.NothingRewritten` | `src/dbt_metricflow_service/storage/execution_logs.py:40-59` | Committed rows and what readers were given never change |
| `ExecutionLogs.PageExact` | `src/dbt_metricflow_service/storage/execution_logs.py:53-59` | A page holds as many of the rows beyond the cursor as there are, up to the limit, and announces more exactly when there are more |
| `ExecutionLogs.NoMoreMeansAll` | `src/dbt_metricflow_service/storage/execution_logs.py:53-59` | The has-more flag is false exactly when the reader has everything committed for its build |
| `ExecutionLogs.LockIsNeeded` | `src/dbt_metricflow_service/storage/execution_logs.py:29-32` | Without the lock before the sequence a late commit is skipped for good |
| `LogHistories.LogIsHistory` | `src/dbt_metricflow_service/storage/execution_logs.py:27-38` | In every state of a run the rows of a build, by id, are the messages of its committed transactions, whole and in the order of their commits |
| `LogHistories.SeenIsHistory` | `src/dbt_metricflow_service/storage/execution_logs.py:27-59` | A reader has been given a beginning of that history, and all of it when its page announces no more |
| `LogWriters.LogWriter.EmitEntry` | `src/dbt_metricflow_service/execution/log_writer.py:31-40` | An emit queues the entry or counts it as dropped, and never waits |
| `LogWriters.LogWriter.RequestStop` | `src/dbt_metricflow_service/execution/log_writer.py:42-44` | Closing puts the stop request behind everything accepted |
| `LogWriters.LogWriter.Get` | `src/dbt_metricflow_service/execution/log_writer.py:55-62` | One wait: an item, the stop request, or nothing |
| `LogWriters.LogWriter.Continue` | `src/dbt_metricflow_service/execution/log_writer.py:63-64` | The batch is held back only while small, early and not stopping |
| `LogWriters.LogWriter.WriteBatch` | `src/dbt_metricflow_service/execution/log_writer.py:65-76` | A batch is written whole unless a write has failed before or fails now |
| `LogWriters.LogWriter.DropBatch` | `src/dbt_metricflow_service/execution/log_writer.py:73-75` | A batch that cannot be written is counted |
| `LogWriters.StepKeeps` | `src/dbt_metricflow_service/execution/log_writer.py:31-76` | Every step keeps accepted = written + lost + batched + queued, in order |
| `LogWriters.Conservation` | `src/dbt_metricflow_service/execution/log_writer.py:31-76` | At every step emitted = queued + batched + written + dropped, the written entries are a prefix of the accepted ones, and the bounds hold |
| `LogWriters.ClosedAccountsForAll` | `src/dbt_metricflow_service/execution/log_writer.py:42-47` | When the thread has ended, emitted = written + dropped; without a failure everything accepted was written |
| `LogWriters.AcceptedWithRoom` | `src/dbt_metricflow_service/execution/log_writer.py:31-36` | An entry is accepted exactly when the queue has room |
| `LogWriters.GivesUpExactly` | `src/dbt_metricflow_service/execution/log_writer.py:65-76` | The thread stops writing exactly after a write has failed |
| `LogWriters.NothingLost` | `src/dbt_metricflow_service/execution/log_writer.py:31-76` | When the queue always had room and no write failed, the closed log is what was emitted, entry by entry |
| `LogWriters.WaitsForDeadline` | `src/dbt_metricflow_service/execution/log_writer.py:63-64` | A batch waits for its deadline exactly while it has fewer than 100 entries and no stop was requested |
| `LogWriters.CloseEnds` | `src/dbt_metricflow_service/execution/log_writer.py:42-76` | After the stop request the thread always has a next step until it ends, and only finitely many |
| `EngineLocks.StepKeeps` | `src/dbt_metricflow_service/execution/embedded.py:65-97` | Every step of every caller, cancellations included, keeps lock, calls and threads in agreement |
| `EngineLocks.OneEngine` | `src/dbt_metricflow_service/execution/embedded.py:75-97` | At most one engine call is scheduled or running, and its caller holds the lock |
| `EngineLocks.ReleasedAfterThread` | `src/dbt_metricflow_service/execution/embedded.py:84-97` | The lock is released only after the holder's thread has ended, or when none was started |
| `EngineLocks.NothingLeftBehind` | `src/dbt_metricflow_service/execution/embedded.py:65-97` | The thread of a finished call has ended or never existed, for ever |
| `EngineLocks.CancelExact` | `src/dbt_metricflow_service/execution/embedded.py:65-97` | A cancellation ends a call at once exactly when no thread was started, or when the call has been cancelled before and its thread has ended |
| `EngineLocks.LeftAloneItRuns` | `src/dbt_metricflow_service/execution/embedded.py:75-97` | Whoever polls a free lock can take it and, left alone, runs its engine to the end and frees the lock |
| `EngineLocks.HolderCanGoOn` | `src/dbt_metricflow_service/execution/embedded.py:65-97` | The holder always has a next step, and releases once its thread has ended |
| `Heartbeats.Heartbeat` | `src/dbt_metricflow_service/workers/build.py:154-170` | The loop cancels at the first refusal, or failure half a lease after the last confirmation |
| `Heartbeats.ExpiryFromLastStored` | `src/dbt_metricflow_service/storage/jobs.py:382-395` | The stored lease runs from the last renewal applied, whether or not the worker learnt of it |
| `Heartbeats.ExpiryFromConfirmed` | `src/dbt_metricflow_service/workers/build.py:154-166` | The stored lease runs until one lease after the last confirmation, less one round trip |
| `Heartbeats.PatienceLeft` | `src/dbt_metricflow_service/workers/build.py:167-170` | A worker that runs on has confirmed its lease less than half a lease ago |
| `Heartbeats.FailuresTakeTime` | `src/dbt_metricflow_service/workers/build.py:156-170` | A number of failed beats takes that many intervals at least, and that many intervals and round trips at most |
| `Heartbeats.TolerableIsInTime` | `src/dbt_metricflow_service/workers/build.py:154-170` | With tolerable timing every renewal or request to stop comes before the stored lease runs out, for every sequence of successes and failures |
| `Heartbeats.IntolerableIsLate` | `src/dbt_metricflow_service/workers/build.py:154-170` | With any other timing some sequence of failures brings the worker past its lease |
| `Heartbeats.StopsBeforeExpiryIff` | `src/dbt_metricflow_service/workers/build.py:154-170` | The worker always stops in time exactly when interval plus two round trips fit into half a lease, or the beats that fit into half a lease leave room for one more |
| `Heartbeats.SettingsAloneDoNotSuffice` | `src/dbt_metricflow_service/settings.py:125-128` | The settings check alone does not imply it: a concrete schedule |
| `Admission.BuildStore.Pick` | `src/dbt_metricflow_service/storage/builds.py:90-97` | A query that returns one arbitrary row returns none exactly when no row matches |
| `Admission.BuildStore.Accept` | `src/dbt_metricflow_service/storage/builds.py:58-153` | Checking one arbitrary row decides like checking every row, and the table invariants are kept |
| `Admission.AnswerExact` | `src/dbt_metricflow_service/storage/builds.py:70-146` | Said of the rows alone: a used key gives the build it made or a conflict; otherwise the first objection of settings, targets and snapshots; and exactly without one a new row with the columns of the request appears |
| `Admission.AdmissionInvariants` | `src/dbt_metricflow_service/storage/builds.py:66-146` | The three invariants hold over every sequence of requests |
| `Admission.ReplayReturnsSameBuild` | `src/dbt_metricflow_service/storage/builds.py:70-80` | An accepted request gets the same build for ever with no change, whatever the settings; another request under its key is refused |

## Left out

- HTTP routes, request models, settings files, the command line and OpenAPI output: plumbing; their guarantees appear as preconditions.
- dbt, MetricFlow, Git, SQLAlchemy and PostgreSQL themselves: their answers are arbitrary within what the assumptions above say.
- Parent runs, the idempotency scope of `reserve_in_transaction`, `busy_job_id` and project write locks: no modelled caller uses them.
- Error details, diagnostics limits, phase labels beyond the stage, timestamps that no decision reads.
- The projection of job status to build status by the database trigger: an assumption of `Deployments`, not a proof.
- Deployment of builds whose outcome is unknown: such a build leaves its intent open, so nothing about it changes.
- `resolve_dimensions`, `available_dimensions`, time ranges and query modes: carried through unchanged or computed by the engine.
- Equality of floating-point NaN and of collated text in SQL: cells are compared as values.
- `_files`, the walk over the project directory with its symbolic links: the files reach `Capture` as a list, one for each name, in sorted order.
- SHA-256, gzip and the incremental UTF-8 decoder: abstract functions; redaction starts from decoded characters.
- `execution_logs` paging of other resources, log formatting, worker slots and thread pools.
- Liveness: it is proved that closing a log writer ends its thread and that an engine-lock holder can always go on, but not that queued jobs are eventually run.
- ExecutionLogs.StepKeeps: the log store is modelled on values, because one append transaction spans several interleaved steps; update in place is not captured.
- EngineLocks.StepKeeps: `run_serialized` and its waiting loop are modelled on values, as steps between which other callers and cancellations come; the inner task is never cancelled directly.
- DeploymentProtocol.StepKeeps: `_observe` and `reconcile` are modelled on values, as the steps between their slow reads; the store methods they call are classes.
- JobProtocol.StepKeeps: worker and executor are modelled on values, as the steps between their awaits; the stores they call are classes.
- ArtifactPaths.CheckSpelling: which of several path errors is reported first depends on the sort order and is only stated as far as an error of that kind exists.
- ArtifactSets.EveryRowCaptured: does not speak of the executable flag, which the digest does not cover.
- ArtifactSets.Validate: which of several errors is returned is not stated, only when there is one.
- ArtifactSets.MaterializeSet: a destination that is a link or lies below one is refused by the code; links are not modelled.
- LogWriters.LogWriter.WriteBatch: a write that raises is taken to have stored nothing.
- Redaction.HiddenIffSafe: is exact for a secret on its own and for a secret in any company; for one given set with several unsafe secrets it does not say which of them can come back.
- Heartbeats.StopsBeforeExpiryIff: the clock of the worker and that of the database run at the same rate.
