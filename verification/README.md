# Verification of the backup control plane

Dafny models of the parts of the backup system whose correctness depends on interleaving, crashes,
arithmetic, or two pieces of code agreeing, and proofs of what they guarantee. `dafny verify
dfyconfig.toml` checks all of it.

| files | what they model |
|---|---|
| `Jobs`, `Reaper` | the job table, its guarded transitions, and the reaper that fails stuck jobs |
| `OperationState`, `Dispatch`, `DispatchMeaning`, `DispatchSafety`, `DispatchTheorems`, `DispatchGuard` | `AdmitStart` as a transaction of separate statements under READ COMMITTED, interleaved with any number of others |
| `Delivery`, `DeliverySafety`, `DeliveryTheorems`, `Agents`, `Outbox` | an agent (job runner and drain loop), its outbox on disk, a lossy network, and the handlers that take its reports |
| `Retention` | which snapshots may be deleted so that a restore-tested one survives |
| `RateLimit` | the per-IP token bucket and its eviction |
| `Migrate` | crash-restartable schema migrations |
| `Activity` | the hour/day/week activity chart |
| `Score`, `ScoreInputs` | the health score and the two ways its inputs are computed |
| `Scheduler`, `Cron` | backup dispatch and window; the schedule builder's cron printer and parser |
| `Prelude`, `Strings` | shared vocabulary |

How the concurrent parts are modelled. A transaction or handler is a session with a program
counter; `Enabled`/`Do` give one database statement, one agent action or one message per step;
a run is a sequence of states in which each follows from the one before by an enabled step of
anybody. What a transaction has written but not committed is part of its program counter.
A crash of the agent, a lost request or response, a duplicated request, a failed statement and a
lost COMMIT acknowledgement are steps like any other. `DispatchGuard` and `Agents` hold the same
operations as imperative methods, run alone; `HandlerAloneIsReport`, `AgentAloneIsReportTerminal` and
`AdmitStartLinearizes` connect them to the interleaved models. What a decision or an answer means is
stated on the data, apart from how it is computed: `GuardMeans`, `AnswerIsTrue`, `RuleOn`, `RunMeans`,
`PassMeans`, `Counted`, `Explains`, `InputMeans`.

Where a property is false of the code, the code is kept and the exact condition is proved:

- Retention: the control plane keeps no record of what it has approved, so rounds may overlap. While
  no further round is validated, a restore-tested snapshot is kept for ever if and only if one lies
  outside all outstanding lists (`KeepsOneForeverIff`), which one first tested while approved does not
  (`TestedDuringRoundIsLost`); a validation keeps this so if and only if such
  a snapshot is not a candidate or is the protected one (`ValidationKeepsSafeIff`); and two
  validations of one catalog spare a verified snapshot if and only if their candidate lists do not
  take everything between them (`TwoValidationsIff`). With rounds one at a time a verified row always
  remains (`AlwaysOneRestoreTested`); with overlaps no state at all is safe (`OverlapsSpareNothing`).
- Retention, data: a row can outlive its snapshot, because a failed round removes no rows and the
  clean-up is best-effort (`RowsOutliveData`). With nothing outstanding, a verified snapshot that still
  has its data is out of reach of every candidate list if and only if there is one and no verified row
  has lost its data (`AnyValidationIsSafeIff`); rounds that leave no such rows keep it so
  (`AlwaysOneStored`).
- Health score: the collector counts finished jobs of every type, the endpoint only backups. The
  inputs agree if and only if only backups have finished and no verified snapshot is listed twice
  (`InputsAgreeIff`). The scores agree if and only if counting the other jobs changes neither of the
  two alarms about jobs and no fully tested catalog lists a snapshot twice, or both have lost 100
  points (`ScoresAgreeIff`); one failed retention job in a perfect estate gives 70 against 100
  (`ScoresCanDiffer`).
- Eviction in the rate limiter is invisible if and only if rate·ttl ≥ burst or the burst is below
  one token (`EvictionInvisibleIff`).
- Cron: printing undoes parsing for the empty text and for lines of five single-spaced fields without
  a month, with minute and hour of two characters or more and no colon, and with weekdays that are
  unrestricted, or all known to the parser and alone; for no other text (`BuildUndoesParseIff`).
  `1-5` becomes Monday (`WorkdaysBecomeMonday`). The other way round, of the lists of known days only
  the empty one is lost (`DaysComeBackIff`).
- Scheduler: backups are dispatched only to systems that already have a backup job of the policy,
  so a policy without one never gets any from its schedule (`SchedulingNeverBootstraps`).

Two functions also differ where no stored value reaches: `DispatchBlockReason` lets through a text that
is none of the four operation states, `AllowsNewJobs` refuses it, and a constraint on the column keeps
such texts out (`BlockReasonVersusAllows`).

## Model

| member | source | states |
|---|---|---|
| `Jobs.ApplyEvolves` | internal/catalog/jobs.go:45-60 | every guarded statement moves a row only along the documented edges, writes the finish time only on entering a terminal status, and leaves a terminal row's outcome alone |
| `Jobs.NoWayBack` | internal/catalog/jobs.go:45-60 | in any history a terminal status never changes and no job returns to pending |
| `Jobs.LifecycleOfOneJob` | internal/catalog/jobs.go:45-60 | in any history a job's statuses form a legal path and its finish time is written exactly once if it ended and never otherwise |
| `Jobs.JobStore.ApplyTransition` | internal/catalog/jobs.go:243-263 | the conditional update either hits and writes its row, or changes nothing and reports missing or wrong state truthfully |
| `Jobs.JobStore.StartJob` | internal/catalog/jobs.go:266-273 | only a pending job starts; everything else is unchanged |
| `Jobs.JobStore.CompleteJob` | internal/catalog/jobs.go:275-284 | only a running job succeeds, with finish time and bytes |
| `Jobs.JobStore.FailJob` | internal/catalog/jobs.go:286-294 | exactly a pending or running job fails |
| `Jobs.JobStore.CancelJob` | internal/catalog/jobs.go:296-302 | only a running job is cancelled; an empty reason is stored as none |
| `Jobs.JobStore.RequestCancellation` | internal/catalog/jobs.go:222-237 | a cancel request is recorded on exactly the jobs that have not ended |
| `Jobs.JobStore.UpdateProgress` | internal/catalog/jobs.go:185-204 | a sign of life sets the progress time of the one row, whatever its status |
| `Jobs.JobStore.Delete` | internal/catalog/jobs.go:345-356 | exactly the one row goes, and a missing one is reported |
| `Reaper.FailStaleJobs` | internal/catalog/jobs.go:304-343 | every row is judged by its own times: a running job by its last progress, else its start, else its creation, and failed as "no heartbeat"; a pending one by its creation, and failed as "never picked up"; all others stay, nothing stale is left, and each failed row is counted once |
| `Reaper.Tick` | internal/scheduler/scheduler.go:436-461 | one pass with 30 minutes, 12 hours and 6 hours, each for its own kind of stuck job |
| `Reaper.OneStatement` | internal/catalog/jobs.go:305-328 | one bulk update makes the table what failing its stale rows makes it |
| `Reaper.TwoStatements` | internal/catalog/jobs.go:304-343 | the second update neither misses nor doubles rows because the first one ran |
| `Reaper.StuckJobIsReaped` | internal/scheduler/scheduler.go:436-461 | with passes at most ten minutes apart, any stuck job has ended or is gone one check interval after its grace, in any history around the passes |
| `Reaper.SilentJobEndsIn40Minutes` | internal/scheduler/scheduler.go:437-440 | a running job that stops reporting progress is terminal within 40 minutes |
| `Reaper.UnclaimedJobEndsIn370Minutes` | internal/scheduler/scheduler.go:437-440 | a job no agent claims is terminal within 6 hours and 10 minutes |
| `Reaper.UnreportingJobEndsIn730Minutes` | internal/scheduler/scheduler.go:437-440 | a running job that never reports progress is terminal within 12 hours and 10 minutes of its start |
| `OperationState.BlockReasonVersusAllows` | internal/catalog/operation_state.go:25-52 | the block reason agrees with `AllowsNewJobs` exactly on valid states; an unknown text is let through |
| `OperationState.GateOpens` | internal/catalog/operation_state.go:78-91 | both gates are open exactly for a state without block reason and a heartbeat at most 15 minutes old, and the operation state decides the reason first |
| `DispatchMeaning.GateMeans` | internal/catalog/operation_state.go:38-91 | one reason for each operation state and each heartbeat, both directions, the operation state first |
| `DispatchMeaning.HealthMeans` | internal/catalog/operation_state.go:78-91 | the health shown is online up to 2 minutes, degraded up to 15, offline beyond, unknown without a heartbeat |
| `Dispatch.Normalized` | internal/catalog/dispatch.go:103-116 | no limit can be zero or negative, and sensible ones are kept |
| `DispatchSafety.CountsOnlyFall` | internal/catalog/dispatch.go:253-259 | a change that starts no job can only lower each of the three counts |
| `DispatchSafety.AdmitKeepsCeilings` | internal/catalog/dispatch.go:260-325 | starting a job whose three counts are below the limits keeps all three ceilings |
| `DispatchSafety.StepKeepsInv` | internal/catalog/dispatch.go:169-333 | every statement of every session keeps locks, reads, counts and ceilings consistent |
| `DispatchSafety.CeilingsHold` | internal/catalog/dispatch.go:253-332 | in every reachable state the committed running jobs respect the global, per-repository and per-agent limits, although the counts come from three snapshots |
| `DispatchSafety.AnomalyUnreachable` | internal/catalog/dispatch.go:319-323 | no run ever takes the branch "job no longer pending" |
| `DispatchTheorems.BlockDecision` | internal/catalog/dispatch.go:260-308 | a count that blocks is the decision the atomic guard makes on the rows of that moment |
| `DispatchTheorems.ReturnDecision` | internal/catalog/dispatch.go:310-332 | a commit that admits is the decision the atomic guard makes on the rows of that moment |
| `DispatchTheorems.AdmitStartLinearizes` | internal/catalog/dispatch.go:242-332 | every returned decision, with its block reason, is what one atomic guard run at a single moment inside the transaction decides |
| `DispatchTheorems.GateWasRead` | internal/catalog/dispatch.go:205-251 | in every run the gate result a session goes by is that of an operation state and a heartbeat it read itself |
| `DispatchTheorems.AnswersAreTrueOfTheData` | internal/catalog/dispatch.go:169-333 | every answer of an interleaved `AdmitStart` is true, in the sense of `GuardMeans`, of the state and heartbeat it read and of the job table at one moment of its transaction, a table within all ceilings |
| `DispatchTheorems.AllowedMeansStarted` | internal/catalog/dispatch.go:310-332 | an admission is returned only after the job has been committed as running |
| `DispatchTheorems.NoWaitCycle` | internal/catalog/dispatch.go:183-188 | sessions never wait for each other in a cycle, over rows and advisory lock together |
| `DispatchTheorems.NoDeadlock` | internal/catalog/dispatch.go:253-256 | in any reachable state with an unfinished session some session can take its next step |
| `DispatchTheorems.JobsLiveOnce` | internal/catalog/jobs.go:45-60 | in every interleaved run each job follows a legal path and ends at most once |
| `DispatchGuards.DispatchGuard.constructor` | internal/catalog/dispatch.go:135-146 | limits are normalised when the guard is built |
| `DispatchGuards.DispatchGuard.AdmitStart` | internal/catalog/dispatch.go:169-333 | the answer is true of the data in the sense of `GuardMeans`; the job is started exactly when allowed, all ceilings are kept, nothing else changes, and the counters are the true counts afterwards |
| `DispatchGuards.DispatchGuard.Decide` | internal/catalog/dispatch.go:169-308 | the sequence of gates and counts gives the atomic decision and reports the counts it was made on |
| `DispatchMeaning.StartCounts` | internal/catalog/dispatch.go:327-332 | starting a pending job raises each count it falls under by exactly one |
| `DispatchMeaning.CountsMeanCeilings` | internal/catalog/dispatch.go:260-308 | each comparison of a count with its limit says whether that ceiling would hold with the job running |
| `DispatchMeaning.GuardMeans` | internal/catalog/dispatch.go:169-333 | for every outcome: the guard gives it if and only if the data say so. Allowed: gates open and all three ceilings would hold with the job running; a limit reason: its ceiling would break and those before it hold; missing, not pending, and each gate reason by the row, state and heartbeat |
| `DispatchMeaning.AllowedKeepsAllCeilings` | internal/catalog/dispatch.go:260-332 | in a table within its limits, the own three ceilings holding after the start means that all ceilings of all repositories and agents hold |
| `Outbox.NamesApart` | internal/agent/outbox/outbox.go:62-64 | event names are injective in the job id and no temporary name looks like an event |
| `Outbox.Store.Enqueue` | internal/agent/outbox/outbox.go:69-88 | once it returns without error the directory has, for the event's job, its kind, snapshot, bytes, paths and reason, with its own creation time or else the current one, and every other event as before; at every crash point it has either that or what it had |
| `Outbox.Store.List` | internal/agent/outbox/outbox.go:93-118 | exactly the readable events of the map, each once, an earlier creation time before a later one; temporary and corrupt files never |
| `Outbox.Store.Ack` | internal/agent/outbox/outbox.go:122-129 | idempotent removal of one key, atomic under a crash; a removal that fails changes nothing and is reported |
| `DeliverySafety.StepKeepsInv` | internal/agent/agent.go:427-510 | every step of runner, drain loop, handlers and world keeps the protocol's invariant |
| `DeliveryTheorems.OutcomeNeverLost` | internal/agent/agent.go:427-510 | once an outcome is enqueued, forever after the outbox has an event for the job, or the control plane has it ended or deleted, or a 401 was answered, also through crashes, lost responses, duplicates and a stale `Ack` |
| `DeliveryTheorems.AcksAreSafe` | internal/agent/agent.go:447-460 | an event is about to be removed only when its job's outcome is settled |
| `DeliveryTheorems.ConflictMeansTerminal` | internal/catalog/jobs.go:243-263 | a 409 to a terminal report is given only for a job that is already terminal, although the transition uses two statements |
| `DeliveryTheorems.PermanentMeansResolved` | internal/agent/agent.go:512-520 | every answer after which the agent drops an event means the outcome is settled |
| `DeliveryTheorems.OutcomesFollowStarts` | internal/agent/agent.go:305-414 | complete and cancelled events exist only for jobs that have left pending |
| `DeliveryTheorems.TerminalStatusIsEarned` | internal/agent/agent.go:356-414 | for every ended job of the agent an earlier step of the run is named. Success: its backup ended without error with exactly the bytes recorded. Cancelled: an operator's request is recorded and the agent had seen it when the backup ended. Failed: the agent failed with exactly the summary recorded and had seen no request, or the reaper did it |
| `DeliveryTheorems.LogGrowsBy` | internal/agent/agent.go:305-414 | each step records exactly what happened in it: an error-free backup with its bytes, a lookup or backup error with its text if no operator's request had been seen, a stop if one had, a reaped job |
| `DeliveryTheorems.AtMostOneSnapshot` | internal/api/agent_jobs.go:101-147 | however often and concurrently a completion is delivered, at most one snapshot is registered, and only for a job in success |
| `DeliveryTheorems.JobsLiveOnce` | internal/catalog/jobs.go:45-60 | in every run of the delivery protocol each job follows a legal path and ends at most once |
| `DeliveryTheorems.DeliveryStillPossible` | internal/agent/agent.go:476-510 | from every reachable state with an undelivered event a state with the job ended can still be reached |
| `Agents.Handlers.Transition` | internal/api/agent_jobs.go:117-212 | each kind of report makes exactly its own guarded write, with the reported bytes or summary, or the operator's reason |
| `Agents.Handlers.Report` | internal/api/agent_jobs.go:101-212 | the row ends as reported, with the bytes, the summary or the operator's reason, exactly if it is the caller's own running job (or pending, for a failure), and stays otherwise; a snapshot comes with exactly such a completion |
| `Agents.AnswerIsTrue` | internal/api/agent_jobs.go:101-250 | each answer says what it means for the row: success that the job has just ended as reported, a conflict that it had ended or was never started, missing that it is not the caller's; no other job is touched |
| `Agents.ClaimedHandlerFinishes` | internal/api/agent_jobs.go:101-147 | from the claim on, the interleaved handler run alone answers and writes what the sequential one does |
| `Agents.HandlerAloneIsReport` | internal/api/agent_jobs.go:101-250 | the interleaved handler, run without interruption, gives the answer, the table and the snapshots of the sequential one |
| `Agents.Agent.Deliver` | internal/agent/agent.go:463-474 | whenever the request arrives, whatever becomes of the answer, the row of the event's job ends as reported by this very event, or stays if it is not the agent's or has ended; nothing else changes, and a snapshot comes with exactly a completion |
| `Agents.Agent.TryDeliver` | internal/agent/agent.go:447-461 | the same, and the event goes exactly when an answer arrived, and then the job has ended |
| `Agents.Agent.ReportTerminal` | internal/agent/agent.go:427-442 | the same for a stored outcome and for one that could not be stored; a stored one stays in the outbox unless it was answered |
| `Agents.Agent.Drain` | internal/agent/agent.go:479-510 | each listed event whose request arrived does to its own job, and registers, exactly what its report says, other jobs stay, exactly the answered events go, no outcome of the agent's own jobs is lost while its token is accepted, and the outbox is empty when every call is answered |
| `Agents.AgentAloneIsReportTerminal` | internal/agent/agent.go:427-461 | runner and handler of the interleaved model, stepped without interruption, leave outbox, table and snapshots as `ReportTerminal` does |
| `Retention.CollectVerified` | internal/api/agent_retention.go:89-95 | an id is collected if and only if some position of the list holds a successful test of it |
| `Retention.CountSurvivors` | internal/api/agent_retention.go:111-117 | the number of verified snapshots that are not candidates |
| `Retention.FindLatest` | internal/api/agent_retention.go:124-135 | the newest verified candidate |
| `Retention.Split` | internal/api/agent_retention.go:146-155 | approved and protected are the candidates without and with the protected one, in order |
| `Retention.Validate` | internal/api/agent_retention.go:45-167 | on the rows and tests themselves: if a row has a successful test, one such row is outside the approved list; what is protected is the newest such row, if all of them are candidates, and nothing otherwise; the lists share out the candidates |
| `Retention.RuleHolds` | internal/api/agent_retention.go:89-155 | the rule as computed from the verified ids has that meaning on the tests |
| `Retention.VerifiedMeansTested` | internal/api/agent_retention.go:89-95 | an id is verified if and only if the list of tests holds a successful one of it |
| `Retention.OneMoreTest` | internal/api/agent_retention.go:89-95 | one more test verifies its snapshot if it succeeded and nothing otherwise |
| `Retention.ProtectExactly` | internal/api/agent_retention.go:111-144 | something is protected exactly when no verified snapshot would survive and a candidate is verified; it is then exactly the newest verified candidate |
| `Retention.SelectPartitions` | internal/api/agent_retention.go:146-155 | approved and protected list share out the candidates, occurrence by occurrence |
| `Retention.SelectKeepsOrder` | internal/api/agent_retention.go:146-155 | each list is the candidates at strictly increasing positions |
| `Retention.PositionsPartition` | internal/api/agent_retention.go:146-155 | every position of the candidates belongs to exactly one of the two lists |
| `Retention.RemoveFromCatalog` | internal/api/agent_retention.go:201-222 | exactly the snapshots reported as removed leave the catalog, but for rows whose delete fails |
| `Retention.HonestReportDeletesApproved` | internal/api/agent_retention.go:201-222 | a report that names only ids of one approved list deletes only rows of that list, whichever deletes fail |
| `Retention.ValidationIsSafe` | internal/api/agent_retention.go:89-155 | with nothing outstanding, a validation leaves a verified row outside the approved list, if there was one at all |
| `Retention.ValidationKeepsSafeIff` | internal/api/agent_retention.go:111-155 | with any lists outstanding, a validation leaves a verified snapshot outside all of them if and only if one was outside before and is no candidate or the protected one |
| `Retention.AnyValidationIsSafeIff` | internal/api/agent_retention.go:111-155 | with nothing outstanding, every candidate list spares a verified snapshot that still has its data if and only if there is one and no verified row has lost its data |
| `Retention.ProtectByCoverage` | internal/api/agent_retention.go:111-144 | a list that covers all verified snapshots protects the newest of them, any other list nothing |
| `Retention.TwoValidationsIff` | internal/api/agent_retention.go:45-155 | two validations of one catalog both spare a verified snapshot if and only if their candidate lists do not take everything between them |
| `Retention.AlwaysOneRestoreTested` | internal/api/agent_retention.go:45-222 | over any sequence of rounds one at a time, backups, tests that succeed or fail, and data removals a row with a successful test always remains, and its data too if no validation meets a verified row without data |
| `Retention.SafeForever` | internal/api/agent_retention.go:45-222 | under each rule a run may keep to, a verified snapshot outside all outstanding lists leaves one there at every later moment |
| `Retention.AlwaysOneStored` | internal/api/agent_retention.go:45-260 | over rounds that leave no row without data, what remains has its data |
| `Retention.KeepsOneForeverIff` | internal/api/agent_retention.go:89-222 | while no further round is validated, a verified snapshot, as row or as data, is kept for ever if and only if one lies outside all outstanding lists |
| `Retention.TestedDuringRoundIsLost` | internal/api/agent_retention.go:201-222 | for any single snapshot, a run in which it is tested during its round and then deleted as the only verified one |
| `Retention.OverlappingRoundsApproveEverything` | internal/api/agent_retention.go:89-155 | in any catalog with two verified snapshots, one list with the one and one with all others, validated alongside, spare no verified snapshot |
| `Retention.OverlapsSpareNothing` | internal/api/agent_retention.go:45-222 | from every state some run the handlers accept, with overlapping rounds, ends without a verified snapshot |
| `Retention.RowsOutliveData` | internal/api/agent_retention.go:236-260 | rounds one at a time that fail after removing data leave a verified row and no verified snapshot with data |
| `RateLimit.Bucket.Allow` | internal/security/ratelimit.go:20-37 | one request: refill up to the burst, take a token if there is a whole one |
| `RateLimit.IPRateLimiter.Allow` | internal/security/ratelimit.go:66-76 | an unknown address starts full, whatever the two clock readings are, and no other address is touched |
| `RateLimit.IPRateLimiter.Cleanup` | internal/security/ratelimit.go:78-98 | exactly the buckets idle longer than the ttl are forgotten |
| `RateLimit.EvictionIsInvisible` | internal/security/ratelimit.go:66-98 | for any history the limiter answers like one that never forgets, when rate·ttl ≥ burst |
| `RateLimit.ConfiguredLimitersForgetInvisibly` | internal/api/routes.go:16-20 | the two route limiters and the global one meet that condition |
| `RateLimit.EvictionInvisibleIff` | internal/security/ratelimit.go:66-98 | the exact condition under which no history can tell eviction |
| `RateLimit.WindowBound` | internal/security/ratelimit.go:20-37 | in any window of length T at most burst + rate·T requests are allowed |
| `RateLimit.BucketIsExact` | internal/security/ratelimit.go:20-37 | a request is allowed if and only if it fits every window ending now |
| `RateLimit.LimiterIsExact` | internal/security/ratelimit.go:66-98 | the evicting limiter as a whole is exact for each address, whatever others do |
| `Migrate.LoadMigrations` | internal/migrate/migrate.go:126-149 | exactly the well-named files, in ascending order, or an error |
| `Migrate.ParseName` | internal/migrate/migrate.go:132-143 | a file name is accepted if and only if what stands before its first underscore, which is not its first character, is a number, and that is its version |
| `Migrate.Database.ApplyOne` | internal/migrate/migrate.go:88-109 | one migration and its version record take effect together or not at all |
| `Migrate.Database.Run` | internal/migrate/migrate.go:35-86 | it succeeds if and only if it starts, the schema is clean and no fault falls on a pending migration, and then exactly the pending ones have been applied in order, the last recorded; otherwise nothing has changed, or exactly those before the first fault are applied, with that one if it came after the commit |
| `Migrate.RunSpecMeans` | internal/migrate/migrate.go:35-109 | the loop over all migrations does that to the pending ones alone |
| `Migrate.BetweenIsExact` | internal/migrate/migrate.go:62-80 | the list of versions between two bounds has each migration of that range exactly once, ascending, and nothing else |
| `Migrate.RunsConsistent` | internal/migrate/migrate.go:55-109 | after any number of crashed or failed runs the recorded version is the last one applied, and what was applied is a prefix of what was pending |
| `Migrate.MigrationsApplyExactlyOnce` | internal/migrate/migrate.go:55-109 | after runs that fail anywhere the next run without a fault succeeds; whichever run succeeds first leaves every pending migration applied once in order and the newest recorded; a further run applies nothing |
| `Activity.SelectMode` | internal/api/health_activity.go:45-65 | the number of buckets is always within the mode's limits |
| `Activity.ModeIsAsAsked` | internal/api/health_activity.go:45-65 | a number within 365 days, 52 weeks or 48 hours is what is shown, and 24 hours otherwise |
| `Activity.FirstParameterDecides` | internal/api/health_activity.go:45-65 | a parameter that is present hides the later ones, even when its value is refused |
| `Activity.WeekOfIsMonday` | internal/api/health_activity.go:142-146 | the week key is the Monday 00:00 that starts the time's week |
| `Activity.KeyMeansInterval` | internal/api/health_activity.go:82-149 | a time has a bucket's key exactly when it lies in that bucket, in all three modes |
| `Activity.BoundariesTile` | internal/api/health_activity.go:74-141 | the buckets tile the time from the cutoff to the end of the current bucket |
| `Activity.CountJobs` | internal/api/health_activity.go:83-87 | the loop over jobs adds each one to the bucket of its key and drops the others |
| `Activity.CountTests` | internal/api/health_activity.go:88-91 | the same for restore tests |
| `Activity.HealthActivity` | internal/api/health_activity.go:74-167 | every bucket holds the number of failed jobs, of the others, and of restore tests created in its own interval, and the bytes of the jobs that did not fail; retention jobs are in none |
| `Activity.TotalIsCounted` | internal/api/health_activity.go:82-167 | the totals of an interval are those numbers, each under its own heading |
| `Activity.TotalSplits` | internal/api/health_activity.go:74-167 | totals of adjacent intervals add up, nothing missed or shared |
| `Activity.NothingLostOrDoubled` | internal/api/health_activity.go:74-167 | summed over all buckets, failures, backups, restore tests and bytes are those of the whole window, so nothing is lost or counted twice |
| `Scheduler.WindowIsAnArc` | internal/scheduler/scheduler.go:177-197 | for all window texts, the window is one arc of the clock face, also across midnight, up to 24:00 and when the minutes are out of range |
| `Scheduler.JobTable.SystemsForPolicy` | internal/scheduler/scheduler.go:297-313 | every system with a backup job of the policy, once |
| `Scheduler.JobTable.DispatchBackup` | internal/scheduler/scheduler.go:200-232 | exactly one pending job per such system inside the window, nothing otherwise |
| `Scheduler.SchedulingNeverBootstraps` | internal/scheduler/scheduler.go:200-232 | no sequence of dispatches ever changes the set of systems of a policy |
| `Score.Calculate` | internal/health/score.go:83-215 | each of the twelve deductions is listed once, with its points, if and only if its own condition on the input holds; the score is 100 less their sum, not below 0; the label changes at 90, 75 and 55 |
| `Score.RateExceeds` | internal/health/score.go:151-157 | the failure-rate test is exact at 20 per cent |
| `Score.DeductionsExplainTheScore` | internal/health/score.go:38-52 | a deduction is listed if and only if it is due, each once, and together they account for the whole loss |
| `Score.AllDueExplains` | internal/health/score.go:83-200 | the twelve conditions and points, spelled out on the input |
| `Score.WorseNeverScoresHigher` | internal/health/score.go:83-215 | the score is monotone: a state nowhere better never scores higher, overlapping deductions included |
| `Score.PenaltyIsAtMost110` | internal/health/score.go:83-215 | no input loses more than 110 points |
| `Score.ClampIsNeeded` | internal/health/score.go:200-204 | an input that loses 110 points, so that the clamp decides |
| `Score.Itoa` | internal/health/score.go:237-249 | the buffer is large enough for every 64-bit number and holds its digits |
| `Score.ItoaReadsBack` | internal/health/score.go:230-249 | a printed count reads back as itself; a negative number prints as nothing |
| `Score.AtoiReadsSigns` | internal/migrate/migrate.go:138-141 | the number in a file name or parameter may carry a sign, and one beyond 64 bits is refused |
| `Score.OnlyDigitsAreRead` | internal/migrate/migrate.go:138-141 | and nothing but digits is read |
| `ScoreInputs.CountNested` | internal/metrics/collector.go:227-236 | the nested scan counts the verified snapshots |
| `ScoreInputs.CountDedup` | internal/metrics/collector.go:270-282 | the scan over the tests counts the verified ids |
| `ScoreInputs.CountBySet` | internal/api/health_score.go:116-130 | the look-up counts the verified snapshots |
| `ScoreInputs.DedupAgreesIff` | internal/metrics/collector.go:227-282 | the count over ids is never larger, and equal if and only if no verified snapshot is listed twice |
| `ScoreInputs.NewestIsMaximum` | internal/metrics/collector.go:249-269 | the search for the latest time finds a maximum, and nothing only if there is none |
| `ScoreInputs.CountAgents` | internal/metrics/collector.go:167-178 | online, idle and offline agents add up to all systems |
| `ScoreInputs.CountByStatus` | internal/metrics/collector.go:380-386 | the map holds the number of jobs in each status |
| `ScoreInputs.Collect` | internal/metrics/collector.go:154-322 | every field is the number of catalog entries it names: agents by the age of their heartbeat, finished jobs of every type, recent failures, repositories without protection or encryption, policies with rules, the latest successful backup and test, and the distinct verified ids |
| `ScoreInputs.TallyBackups` | internal/api/health_score.go:42-64 | the endpoint's single pass over backups |
| `ScoreInputs.ComputeInput` | internal/api/health_score.go:19-112 | the same with backups alone, and with verified snapshots counted by position |
| `ScoreInputs.SummaryMeans` | internal/api/health_score.go:19-112 | both ways to the input mean these numbers, whatever is counted as verified |
| `ScoreInputs.TalliesAgreeIff` | internal/metrics/collector.go:191-204 | counting all types equals counting backups if and only if only backups have finished |
| `ScoreInputs.InputsAgreeIff` | internal/api/health_score.go:19-112 | the two computations give the same input exactly under the condition named above |
| `ScoreInputs.ScoresAgree` | internal/metrics/collector.go:246-321 | for a catalog of backups with unique snapshots both show the same score and deductions |
| `ScoreInputs.ScoresAgreeIff` | internal/metrics/collector.go:246-321 | the scores, and the deductions, are the same exactly under the conditions named above |
| `ScoreInputs.OnlyThreeDiffer` | internal/api/health_score.go:42-73 | only three deductions can differ between the two, two of them only one way |
| `ScoreInputs.ScoresCanDiffer` | internal/metrics/collector.go:246-321 | in a perfect estate one recently failed retention job makes them 70 and 100 |
| `Cron.DayNumbers` | web/src/components/ScheduleBuilder.tsx:26-27 | Monday to Saturday are 1 to 6 and Sunday is 0, printed and read |
| `Cron.LineReads` | web/src/components/ScheduleBuilder.tsx:56-61 | a line is minute, hour, day of month, month and weekday with one space between them |
| `Cron.PaddedWithZeros` | web/src/components/ScheduleBuilder.tsx:42 | padding puts zeros in front, up to two characters |
| `Cron.TextIsPrinted` | web/src/components/ScheduleBuilder.tsx:52-63 | what is printed in each mode, with 2 for a missing hour, 0 for a missing minute and 1 for a missing day of month |
| `Cron.WeekdaysArePrinted` | web/src/components/ScheduleBuilder.tsx:57-60 | no day is printed as 1, known days as their numbers with commas |
| `Cron.NoTimeIsTwo` | web/src/components/ScheduleBuilder.tsx:54 | without a time 02:00 is printed |
| `Cron.TextIsRead` | web/src/components/ScheduleBuilder.tsx:37-49 | what is read from five fields: the mode by the two day fields, the padded time, the known days, the day of month |
| `Cron.OtherTexts` | web/src/components/ScheduleBuilder.tsx:38-40 | the empty text is no schedule, one of more or fewer than five fields a custom one |
| `Cron.FieldsOfLine` | web/src/components/ScheduleBuilder.tsx:37-41 | a line of five tokens is split into these tokens |
| `Cron.SplitUndoesJoin` | web/src/components/ScheduleBuilder.tsx:45-57 | splitting a joined list at its separator gives the list |
| `Cron.JoinUndoesSplit` | web/src/components/ScheduleBuilder.tsx:42-57 | joining the parts of a text gives the text, and no part holds the separator |
| `Cron.ParseUndoesBuild` | web/src/components/ScheduleBuilder.tsx:37-63 | parsing undoes printing for daily, weekly and monthly schedules: mode, days in order, day of month, padded time |
| `Cron.TimeComesBackIff` | web/src/components/ScheduleBuilder.tsx:42-63 | the time comes back unchanged if and only if both parts have two characters or more, as HH:MM has |
| `Cron.DaysComeBackIff` | web/src/components/ScheduleBuilder.tsx:44-60 | known days come back unless the list is empty, which becomes Monday |
| `Cron.DomComesBackIff` | web/src/components/ScheduleBuilder.tsx:48-62 | a day of month comes back unless it is empty or a star |
| `Cron.MonthIsIgnored` | web/src/components/ScheduleBuilder.tsx:41-49 | the parser gives the same schedule for any month field |
| `Cron.BuildUndoesParseIff` | web/src/components/ScheduleBuilder.tsx:37-63 | over all texts, exactly which ones come back from parsing and printing |
| `Cron.LineComesBackIff` | web/src/components/ScheduleBuilder.tsx:37-63 | a line of five fields comes back exactly when its fields meet that condition |
| `Cron.DowComesBackIff` | web/src/components/ScheduleBuilder.tsx:45-57 | a weekday field comes back if and only if the parser knows every comma-separated part |
| `Cron.UnknownWeekdaysBecomeMonday` | web/src/components/ScheduleBuilder.tsx:44-60 | weekdays none of which the parser knows are parsed as no day and printed as Monday |
| `Cron.WorkdaysBecomeMonday` | web/src/components/ScheduleBuilder.tsx:44-60 | Monday to Friday, written 1-5, is printed as Monday |

## Left out

- HTTP routing, JSON, middleware, TLS, sessions and token generation: plumbing; a request is a message with a reply.
- SQL text and the database driver: a statement is a conditional row update, a count, a row lock or the advisory lock until commit.
- The unguarded `Update` (internal/catalog/jobs.go:162), jobs created as `running` (internal/api/jobs.go:93) and starting without a guard (internal/api/agent_jobs.go:43): they bypass the transitions and break both the ceilings and terminal immutability.
- Policy edits and deletion while jobs are in flight: a policy's repository is constant in a run. A running `AdmitStart` keeps the repository it read first, so an edit during it can exceed the per-repository limit.
- Operation state and health at commit time: both are read before the advisory lock and may be stale by then; nothing is claimed about jobs starting after maintenance was set.
- The repository counter in an allowed decision for a job without a repository: the code adds 1 to a count it never took.
- DispatchTheorems.NoDeadlock: says that some session can step, not that a given one eventually does; fairness of the database's lock queues is not modelled.
- Reaper.StuckJobIsReaped: takes a pass as one moment; its two statements with row locks, interleaved with everything else, are in `Dispatch`.
- Progress percentages and throughput: `UpdateProgress` is not guarded, only its time stamp matters to the reaper.
- Delivery: an event's snapshot id and paths; whether a policy has a repository is part of the choice to register a snapshot.
- Agents.Agent.Drain: one drain without the ticker, the other thread or failing `Ack` calls, which are steps of `Delivery`; a 5xx answer counts as a lost message.
- An agent whose outbox directory cannot be opened (internal/agent/agent.go:428-433): it reports directly once and nothing is promised.
- The agent's half of retention: it skips these jobs (internal/agent/agent.go:143), so any actor that removes a subset of the approved ids stands for it.
- Retention.AlwaysOneStored: assumes that a round that ends leaves no row whose data it removed, which the handlers do not enforce; without it `AnyValidationIsSafeIff` says what is at stake.
- Retention.AnyValidationIsSafeIff: the control plane does not know which data is still stored, so it cannot check this condition itself.
- Restore tests' own status: their update is unguarded and the stale cleaner reads, then writes; only that a test ended, and whether it succeeded, is used.
- RateLimit: reals for float64, a monotone clock, `Allow` and the clean-up atomic under their mutex.
- Migrate: one runner, distinct versions and a fixed file set; nothing in the code serialises two runners, and nothing is claimed about them.
- Activity: bucket labels, and restore tests failing to load.
- Score.Calculate: the list of confirmed positive factors, the label's colour, the reasons' wording, and rounding of the failure rate in float64.
- ScoreInputs.Collect: the individual gauges, and stores that fail while being listed; both listings of the restore tests are taken to be the same.
- Scheduler: the cron engine, time zones, parsing of the window's texts, restore-test and retention dispatch, and the dead-man switch.
- Cron: custom schedules, whose text is passed through, and the human-readable next run.
- Ties when events or migrations are sorted: any order of equal keys is allowed.
- restic, file walking and the self-updater: external processes; a backup ends with success or an error.
