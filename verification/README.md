# Jobworkerp Conductor: verified model

The conductor fires jobs in jobworkerp when a cron schedule is due, a Slack event matches a handler,
a worker result arrives or an administrator asks for it. This project models three parts of it and
proves what they promise:

1. **The execution ledger.** Every triggered job has a row (`job_id`, `result_status`,
   `enqueue_error`) that drivers, cancellers and deleters write without any lock. Proved over every
   interleaving of any number of them: a Cancelled row stays Cancelled with its job, a status seen as
   terminal never becomes active again, and a non-forced delete removes only refs whose job has ended.
2. **The replicated configuration.** The admin API commits to the database and then publishes; the
   conductor's event loop applies what it receives to an in-memory store, to the cron library and to
   a cache of compiled Slack patterns. Proved: the replica converges, the registered jobs and the cache
   mirror the store at every event boundary although the library and the regex engine may fail, the name
   index inverts the forward map, and versions, snapshots and differences mean what they say.
3. **Configuration persistence.** Execution targets are flattened to columns and rebuilt; an export
   joins rows to server names and an import resolves the names to fresh ids in one transaction. Proved:
   what comes back, and exactly when an exported file can be imported again.

## Files

| file | contents |
|---|---|
| `wrappers.dfy` | `Option`, `Result`, iteration in an unspecified order |
| `execution_status.dfy` | the ledger row and the status derived from it |
| `execution_ref_repository.dfy` | the table and its single-statement updates |
| `execution_app.dfy` | cancel and delete, each call run to its end |
| `execution_ref_lifecycle.dfy`, `execution_ref_safety.dfy` | the ledger as a transition system; its invariant and the results over all runs |
| `execution_ref_recorder.dfy`, `execution_ref_refinement.dfy` | the drivers as imperative code; step by step, in every interleaving, drivers, cancellers and deleters of the transition system do what the code does |
| `handler_executor.dfy` | retries with exponential backoff |
| `config_entities.dfy`, `execution_targets.dfy` | configuration messages; targets through the database |
| `name_index.dfy`, `config_history.dfy`, `local_config_store.dfy` | forward maps with name indices; versions and snapshots; the store |
| `scheduler_manager.dfy`, `reaction_names.dfy`, `slack_matching.dfy`, `conductor.dfy` | cron jobs, Slack cache and matcher, the event loop that drives both |
| `config_replication.dfy`, `end_to_end.dfy` | writers, channel and consumer; from the table to the jobs the library fires |
| `named_rows.dfy`, `config_management.dfy`, `config_file_laws.dfy`, `config_repository.dfy`, `config_round_trip.dfy` | export and import; what files and the rows written from them mean; what survives both |

`dafny verify dfyconfig.toml` checks everything.

## Assumptions about the surroundings

- jobworkerp: a live job has a processing status and a finished one has none; finished is absorbing; an
  awaited job that yields an outcome is finished (one that yields an error need not be); job ids are
  fresh; any query may fail; a finished job may leave no stored result (`SurroundingsAreFree`). The codes of Success (0) and
  Cancelled (6) belong to jobworkerp's protocol, which is not part of this model; a stored result
  carries its status as the client library decodes it.
- The cron library hands out fresh ids, may refuse any call, keeps account of what it refused, and a
  refused call changes nothing. Whether a crontab parses is
  a parameter, as are the regex engine and the URL library; `ReadsAddresses` states what the last one
  does with canonical addresses (section 3.2.3 of RFC 3986).
- The database runs a statement atomically and a transaction all or nothing, and enforces UNIQUE names;
  the notification channel is a queue. TOML text is a structured value.
- Hash maps and unordered queries are iterated in an arbitrary order.

## Where a natural reading is false

- A non-forced delete does not wait for the driver: a ref without any recorded outcome can be deleted
  once its recorded job is gone, because success is then inferred (`OutcomelessRefCanBeDeleted`).
  `DeleteRemovesOnlyFinished` states what holds; `TerminalExactly` is the exact condition.
- The cached Slack matcher is stricter than the stored texts on one family of events: a reaction, for a
  handler whose message pattern does not compile (`CachedExactly`).
- One write alone can bring replica and table apart. Delivered, it does exactly when it updates an absent
  row or deletes a row whose preceding read failed; a lost message does exactly when the table then says
  something new (`WriteConvergesIff`). Overlapping writes can do so too (`OverlapDiverges`).
- Version numbers are reused after a restore (`VersionsAreReusedAfterRestore`).
- A name collision can lose the older entity's name for good (`CollisionLosesAName`).
- A reload changes the fired target in its empty texts exactly as `CronFiresIdenticallyIff` and
  `SlackFiresIdenticallyIff` say.
- An import with overwrite leaves every Slack handler pointing at a server id that no longer exists
  (`SlackHandlersAreLeftDangling`).
- A comment in `api/app/src/app/execution_status.rs:307-312` says success is inferred only for refs
  older than the recorded result status. The code also infers it for a ref whose job is gone while its
  driver has recorded nothing yet, or only an error (`TerminalWithoutOutcome`,
  `EnqueueErrorHiddenExactlyByJobId`); the model follows the code.

## Model

| member | source | states |
|---|---|---|
| ExecutionStatus.TerminalExactly | api/app/src/app/execution_status.rs:140-346 | a ref resolves to a terminal status exactly when the row has an outcome and no job, or both queries succeed and the job is no longer processed |
| ExecutionStatus.TerminalWithoutOutcome | api/app/src/app/execution_status.rs:300-395 | without a recorded outcome a terminal status needs a recorded job that is gone, and is the inferred success if nothing is stored |
| ExecutionStatus.ShownStatusMeans | api/app/src/app/execution_status.rs:221-424 | for every shown status, the condition on row and observations under which, and only under which, it is shown |
| ExecutionRefRepository.FirstCancelledWins | api/infra/src/infra/execution_ref/rdb.rs:114-154 | the first Cancelled update applied fixes status and job id, whatever else is applied |
| ExecutionRefRepository.LastResultWins | api/infra/src/infra/execution_ref/rdb.rs:114-154 | without a Cancelled update the last one wins |
| ExecutionRefRepository.CancelledRowIsFrozen | api/infra/src/infra/execution_ref/rdb.rs:127-154 | no list of updates changes a Cancelled row |
| ExecutionRefRepository.CancellationIsOrderIndependent | api/infra/src/infra/execution_ref/rdb.rs:114-154 | whether the row ends Cancelled is the same for every permutation of the updates |
| ExecutionRefRepository.ChunkingIsUnobservable | api/infra/src/infra/execution_ref/rdb.rs:301-318 | any split into chunks, duplicates included, deletes and counts what one deletion of the whole list does |
| ExecutionRefRepository.Repository.Create | api/infra/src/infra/execution_ref/rdb.rs:63-112 | one new row under a fresh id |
| ExecutionRefRepository.Repository.UpdateResult | api/infra/src/infra/execution_ref/rdb.rs:127-154 | a row whose status is 6 (Cancelled) is left alone, any other takes job id and status, no other row is touched, and the affected count says which |
| ExecutionRefRepository.Repository.UpdateJobId | api/infra/src/infra/execution_ref/rdb.rs:159-178 | the job id of one row, and of no other |
| ExecutionRefRepository.Repository.UpdateEnqueueError | api/infra/src/infra/execution_ref/rdb.rs:182-202 | the error of one row, Cancelled or not, and of no other |
| ExecutionRefRepository.Repository.Delete | api/infra/src/infra/execution_ref/rdb.rs:283-290 | removes the row and says whether it existed |
| ExecutionRefRepository.Repository.DeleteByIds | api/infra/src/infra/execution_ref/rdb.rs:301-318 | removes exactly the listed rows and returns the number of distinct ids that existed, with at most 900 per statement |
| ExecutionRefRepository.Repository.DeleteAllBySource | api/infra/src/infra/execution_ref/rdb.rs:323-337 | removes exactly the rows of the source and counts them |
| ExecutionApp.ExecutionStatusApp.CancelExecution | api/app/src/app/execution_status.rs:554-590 | the four errors and answers, and that only a successful remote deletion is recorded: status 6 on that row, with the job that was read |
| ExecutionApp.ExecutionStatusApp.DeleteExecutionRef | api/app/src/app/execution_status.rs:592-609 | deletes exactly when the ref exists and resolves to a terminal status |
| ExecutionApp.CollectTerminal | api/app/src/app/execution_status.rs:624-643 | the loop collects exactly the refs of the source that resolve to a terminal status |
| ExecutionApp.ExecutionStatusApp.DeleteExecutionRefsBySource | api/app/src/app/execution_status.rs:611-646 | a row goes exactly if it has that source type and id and, without force, resolves to a terminal status; the count is what is gone |
| ExecutionApp.CancellationMustBeRecorded | api/app/src/app/execution_status.rs:571-587 | after a pending job is discarded the ref shows Cancelled exactly if the ledger says so; else success would be inferred |
| ExecutionApp.EnqueueErrorHiddenExactlyByJobId | api/app/src/app/execution_status.rs:313-424 | an error on the row is shown exactly when no job id is recorded |
| ExecutionRefSafety.StepKeepsInv | api/app/src/app/execution_status.rs:554-646 | every step of every driver, canceller, deleter and of the environment keeps the ledger invariant and every fact readers rely on |
| ExecutionRefSafety.RunKeepsInv | shared/src/execution_ref_recorder.rs:107-158 | so does every run |
| ExecutionRefSafety.ReachableInv | shared/src/triggered_execution.rs:111-157 | the invariant holds in every reachable state |
| ExecutionRefSafety.CancelledIsFinal | api/infra/src/infra/execution_ref/rdb.rs:127-202 | in every continuation of every run a Cancelled row stays Cancelled with its job id until deleted, and a driver-created one resolves to Cancelled when jobworkerp has nothing left, even after a late error |
| ExecutionRefSafety.CancelWriteRecordsItsJob | api/app/src/app/execution_status.rs:554-590 | the write of a successful canceller leaves the row Cancelled with its own job, unless it was Cancelled before |
| ExecutionRefSafety.SettledExactlyTerminal | api/app/src/app/execution_status.rs:140-346 | the invariant's "settled" is resolving to a terminal status when no query fails |
| ExecutionRefSafety.TerminalIsForever | api/app/src/app/execution_status.rs:140-346 | a status seen as terminal never becomes active again in any run |
| ExecutionRefSafety.DeleteRemovesOnlyFinished | api/app/src/app/execution_status.rs:592-646 | a non-forced delete, resolved one by one and executed later, removes a ref only if its recorded job has ended or, without one, its driver has recorded an outcome |
| ExecutionRefSafety.OutcomelessRefCanBeDeleted | api/app/src/app/execution_status.rs:592-646 | a run in which a ref without outcome is deleted while its driver still awaits |
| ExecutionRefSafety.DetachedNeverEnqueuesUnrecorded | api/app/src/app/execution_status.rs:663-700 | in every run a manual trigger has a job only if its ref was stored |
| ExecutionRefRecorder.RecordPendingThenUpdate | shared/src/execution_ref_recorder.rs:107-158 | whatever the recorder replies, the result is the job's terminal one or the error of the enqueue, and the calls are exactly those of a blocking run |
| ExecutionRefRecorder.RunWithoutRef | slack-event-handler/src/handler_executor.rs:186-207 | the branch without a server id has the same result and records nothing |
| ExecutionRefRecorder.BlockingRunFollowsProtocol | shared/src/execution_ref_recorder.rs:107-158 | record first; then, only if that succeeded, at most one job id update before the await and exactly one outcome update at the end, all on the recorded id |
| ExecutionRefRecorder.SpawnAndRecord | shared/src/triggered_execution.rs:111-157 | what happens before the request returns, and what the spawned task still awaits |
| ExecutionRefRecorder.MonitorTerminal | shared/src/triggered_execution.rs:130-155 | the spawned task awaits and records the outcome |
| ExecutionRefRecorder.SpawnAndRunToCompletion | shared/src/triggered_execution.rs:111-157 | both together log exactly a detached run |
| ExecutionRefRecorder.ManualPathMatchesAutomatic | shared/src/triggered_execution.rs:111-157 | once the ref exists both paths change the table alike, for every outcome and every failing update |
| ExecutionRefRecorder.UndisturbedRun | shared/src/execution_ref_recorder.rs:107-158 | what an undisturbed run leaves in its row for each reply and terminal outcome, and that no other row changes |
| ExecutionRefRecorder.RunningJobIsTracked | shared/src/execution_ref_recorder.rs:107-158 | while its job runs, a job id known at the enqueue stands in the row, on both paths |
| ExecutionRefRecorder.TriggerExecution | api/app/src/app/execution_status.rs:663-737 | nothing is enqueued unless the ref was stored; the calls made, what is left to await and the answer given in every other case |
| ExecutionRefRecorder.TriggerReportsTheLedger | api/app/src/app/execution_status.rs:700-737 | the status a trigger reports is what its row resolves to at that moment, a live answer included where a job id is known |
| ExecutionRefRefinement.LoggedIsTheRun | shared/src/execution_ref_recorder.rs:107-158 | the events of a driver's steps, put together, are the run of `record_pending_then_update` or of a manual trigger, a failed record included |
| ExecutionRefRefinement.MoveMatchesLog | shared/src/execution_ref_recorder.rs:107-158 | in any state a driver can take its code's next step exactly if ids are fresh and an awaited job has ended, and the table changes by what the code logs there |
| ExecutionRefRefinement.DriverStaysWithItsCode | shared/src/triggered_execution.rs:111-157 | in every interleaving a driver is where its code is |
| ExecutionRefRefinement.InterleavedCancel | api/app/src/app/execution_status.rs:554-590 | whatever happens between its calls, a canceller deletes the job it read first and then writes the cancellation of that job |
| ExecutionRefRefinement.InterleavedResolution | api/app/src/app/execution_status.rs:624-643 | however the queries interleave, a deletion by source selects exactly the listed refs that resolved to a terminal status, each under the view observed for it |
| ExecutionRefRefinement.CancellerTakesTheAppsSteps | api/app/src/app/execution_status.rs:554-590 | the undisturbed steps of a canceller change the table as `cancel_execution` does |
| ExecutionRefRefinement.DeleterTakesTheAppsSteps | api/app/src/app/execution_status.rs:592-609 | the undisturbed steps of a deleter remove the ref exactly if it resolves to a terminal status |
| HandlerExecutor.ExecuteWorkflow | slack-event-handler/src/handler_executor.rs:111-231 | one attempt succeeds exactly if its set-up, its enqueue and its job do, carries the error of whichever failed otherwise, and logs exactly its calls |
| HandlerExecutor.ExecuteWorkflowWithRetry | slack-event-handler/src/handler_executor.rs:36-108 | the log grows by exactly the attempts and pauses of the retry policy, and the result is success exactly if the job enqueued last succeeded; between 1 and the bound attempts, retried only after retriable errors, at most one ref per attempt, one sleep fewer than attempts and their total within its range |
| HandlerExecutor.RetryLoop | slack-event-handler/src/handler_executor.rs:43-97 | the loop makes exactly the attempts and pauses of the recursive specification |
| HandlerExecutor.RetriesAreRight | slack-event-handler/src/handler_executor.rs:43-97 | the specification stops at the first success or other error, and at the bound |
| HandlerExecutor.EveryAttemptIsMade | slack-event-handler/src/handler_executor.rs:43-97 | each verdict is that of an attempt whose events stand in the log where the replies it saw were given |
| HandlerExecutor.LastVerdictDecides | slack-event-handler/src/handler_executor.rs:36-108 | the run ends with the events of an attempt, and the last verdict is what its job reports |
| HandlerExecutor.RetriesAreModest | slack-event-handler/src/handler_executor.rs:76-90 | each sleep is its attempt's delay, and no attempt asks for a second ref |
| HandlerExecutor.TotalSlept | slack-event-handler/src/handler_executor.rs:76-90 | the range of the total slept in a run of n attempts |
| HandlerExecutor.DelayTakesEveryValue | slack-event-handler/src/handler_executor.rs:76-90 | every delay of an attempt's range can occur |
| HandlerExecutor.DefaultBound | slack-event-handler/src/handler_executor.rs:36-108 | with the bound of three: at most three attempts, exactly three if all fail retriably, and at most four seconds slept |
| HandlerExecutor.TotalBackoff | slack-event-handler/src/handler_executor.rs:76-90 | the exact range of the total sleep after k failures |
| HandlerExecutor.DelaysFitInU64 | slack-event-handler/src/handler_executor.rs:76-90 | no delay overflows with at most 64 sleeps |
| ExecutionTargets.AcceptedExactlyIfItFires | shared/src/validation.rs:84-117 | a target is accepted exactly if what it would fire has a URL or a worker name |
| ExecutionTargets.CronFiresAsConfigured | shared/src/triggered_execution.rs:35-58 | a scheduler fires the configured target, or the workflow of the deprecated fields, before and after a reload |
| ExecutionTargets.CronFiresItsColumns | api/infra/src/infra/cron_scheduler/rows.rs:25-61 | a scheduler read from its row fires the worker its columns name, or else their workflow |
| ExecutionTargets.CronSurvivesStorage | api/infra/src/infra/cron_scheduler/rdb.rs:18-157 | a validated scheduler fires from its row what it fires from event data, up to empty texts; everything else is unchanged; a second reload changes nothing |
| ExecutionTargets.CronFiresIdenticallyIff | api/infra/src/infra/cron_scheduler/rows.rs:25-61 | exactly when even the empty texts are unchanged |
| ExecutionTargets.ListenerSurvivesStorage | api/infra/src/infra/worker_result_handler/rdb.rs:21-39 | a listener fires the same target before and after a reload, empty texts included |
| ExecutionTargets.ListenerFiresAsConfigured | api/infra/src/infra/worker_result_handler/rdb.rs:21-39 | a listener fires the configured target, before and after a reload |
| ExecutionTargets.SlackSurvivesStorage | api/infra/src/infra/slack_event_handler/rows.rs:43-117 | the same for Slack handlers, with the reaction operation kept when it is a known one |
| ExecutionTargets.SlackFiresAsConfigured | slack-event-handler/src/handler_executor.rs:320-364 | a Slack handler fires the configured target, before and after a reload |
| ExecutionTargets.SlackFiresIdenticallyIff | api/infra/src/infra/slack_event_handler/rdb.rs:21-42 | exactly when even the empty texts are unchanged |
| NameIndex.RunHasNoOrphans | shared/src/local_config_store.rs:93-147 | in every run, collisions included, an index entry leads to a stored entity of that name |
| NameIndex.UpsertKeepsInverseIff | shared/src/local_config_store.rs:93-126 | an upsert keeps the exact inverse if and only if it takes no name held by another id |
| NameIndex.RemoveKeepsInverse | shared/src/local_config_store.rs:128-147 | a removal keeps the exact inverse |
| NameIndex.RunKeepsInverse | shared/src/local_config_store.rs:93-147 | a run without collisions ends with the exact inverse |
| NameIndex.RebuiltInverseIff | shared/src/local_config_store.rs:477-512 | a rebuilt index is the inverse if and only if names are distinct, in whatever order the map was iterated |
| NameIndex.InverseIsUnique | shared/src/local_config_store.rs:477-512 | rebuilding where the index is the inverse yields the very same index |
| NameIndex.CollisionLosesAName | shared/src/local_config_store.rs:93-147 | after a collision and the removal of the newer entity the older cannot be found by name |
| NameIndex.RebuildIndex | shared/src/local_config_store.rs:477-512 | the loop indexes every stored name and orphans none |
| NameIndex.ValidateIndex | shared/src/local_config_store.rs:720-747 | Ok exactly when every stored name maps back to its id and no entry is orphaned |
| NameIndex.FindByNameFinds | shared/src/local_config_store.rs:395-399 | a lookup never returns an entity of another name, and with the exact inverse misses none |
| NameIndex.LoadedExactly | jobworkerp-conductor/src/dynamic/local_config.rs:22-46 | loading distinct ids stores exactly the complete entries |
| ConfigHistory.VersionDeterminesConfiguration | shared/src/local_config_store.rs:389-392 | before the first restore or import a version number determines the whole configuration |
| ConfigHistory.VersionsAreReusedAfterRestore | shared/src/local_config_store.rs:451-474 | afterwards one number can name two configurations |
| ConfigHistory.RingHoldsLastTen | shared/src/local_config_store.rs:429-448 | in every run the ring holds exactly the last ten snapshots in creation order |
| ConfigHistory.RestoreReinstates | shared/src/local_config_store.rs:451-474 | restoring any retained version reinstates its four maps and its number |
| ConfigHistory.ImportCanBeUndone | shared/src/local_config_store.rs:610-625 | the first import is undone by restoring the version it started from, while at most nine more snapshots were created |
| ConfigHistory.DiffReportsEachIdOnce | shared/src/local_config_store.rs:520-590 | every id of either side is reported once, and no other |
| ConfigHistory.DiffAccountsForIds | shared/src/local_config_store.rs:520-590 | current ids are the snapshot's plus Added minus Removed, for all four kinds |
| ConfigHistory.NothingAddedOrRemovedAfterRestore | shared/src/local_config_store.rs:451-590 | right after a restore the difference has neither |
| LocalConfigStore.UpsertInto | shared/src/local_config_store.rs:93-126 | afterwards the entity is stored under its id and its name leads there, only its former name is gone from the index; fails exactly for a missing id or data |
| LocalConfigStore.RemoveFrom | shared/src/local_config_store.rs:128-147 | afterwards neither the entity nor its name is there, and nothing else is gone |
| LocalConfigStore.DiffKind | shared/src/local_config_store.rs:529-544 | the two loops report exactly the expected differences, without repeats |
| LocalConfigStore.RemovingServerKeepsConsistencyIff | shared/src/local_config_store.rs:628-717 | removing a server keeps references consistent exactly when nothing mentions it |
| LocalConfigStore.LocalConfigStore.UpsertCronScheduler | shared/src/local_config_store.rs:93-126 | the store takes the specified step, the version grows exactly on success, no orphan arises |
| LocalConfigStore.LocalConfigStore.UpsertWorkerResultHandler | shared/src/local_config_store.rs:161-193 | the same for listeners |
| LocalConfigStore.LocalConfigStore.UpsertJobworkerpServer | shared/src/local_config_store.rs:228-261 | the same for servers |
| LocalConfigStore.LocalConfigStore.UpsertSlackEventHandler | shared/src/local_config_store.rs:296-329 | the same for Slack handlers |
| LocalConfigStore.LocalConfigStore.RemoveCronScheduler | shared/src/local_config_store.rs:128-147 | returns what was stored; the version grows only if something was |
| LocalConfigStore.LocalConfigStore.RemoveWorkerResultHandler | shared/src/local_config_store.rs:195-217 | the same for listeners |
| LocalConfigStore.LocalConfigStore.RemoveJobworkerpServer | shared/src/local_config_store.rs:263-285 | the same for servers |
| LocalConfigStore.LocalConfigStore.RemoveSlackEventHandler | shared/src/local_config_store.rs:331-353 | the same for Slack handlers |
| LocalConfigStore.LocalConfigStore.CreateSnapshot | shared/src/local_config_store.rs:429-448 | appends the current version and configuration, drops the oldest of ten, leaves everything else |
| LocalConfigStore.LocalConfigStore.FindSnapshot | shared/src/local_config_store.rs:451-456 | the search returns the oldest retained snapshot of the version, or there is none |
| LocalConfigStore.LocalConfigStore.RestoreFromSnapshot | shared/src/local_config_store.rs:451-474 | version and configuration are those of the oldest retained snapshot of that version, with rebuilt indices; an unknown version changes nothing |
| LocalConfigStore.LocalConfigStore.ImportConfig | shared/src/local_config_store.rs:610-625 | afterwards the store holds the exported four maps and their version, with rebuilt indices, and the newest snapshot is the state before |
| LocalConfigStore.LocalConfigStore.DiffWithSnapshot | shared/src/local_config_store.rs:520-590 | fails exactly for an unknown version, else returns a comparison of the two configurations |
| LocalConfigStore.LocalConfigStore.ValidateIndexConsistency | shared/src/local_config_store.rs:720-823 | Ok exactly when all four indices are exact inverses |
| LocalConfigStore.LocalConfigStore.ValidateConsistency | shared/src/local_config_store.rs:628-717 | Ok exactly when every reference is present and leads to a stored server |
| LocalConfigStore.LocalConfigStore.LoadFromInitialConfig | jobworkerp-conductor/src/dynamic/local_config.rs:22-46 | the four loops upsert the lists in order and skip incomplete entries; the version grows by one for each complete one |
| SchedulerManager.DynamicSchedulerManager.PrepareJob | jobworkerp-conductor/src/dynamic/scheduler_manager.rs:154-214 | when a job can be built, is skipped or cannot be built, that it captures the stored data, and that its endpoint is the stored server's scheme, host and port |
| SchedulerManager.AddableExactly | jobworkerp-conductor/src/dynamic/scheduler_manager.rs:154-230 | an enabled scheduler lacks something exactly if its server is not named, not stored or without data, or its crontab does not parse |
| SchedulerManager.DynamicSchedulerManager.AddSchedulerFromLocal | jobworkerp-conductor/src/dynamic/scheduler_manager.rs:154-311 | fails exactly if the job cannot be prepared or the library refuses it; on success an enabled scheduler's job has its stored data and runs at the address of its stored server; registered jobs stay exactly the accounted ones and other schedulers are untouched |
| SchedulerManager.DynamicSchedulerManager.RemoveSchedulerById | jobworkerp-conductor/src/dynamic/scheduler_manager.rs:346-362 | the handle goes first; fails exactly if the library refuses, whose job then stays registered and untracked |
| SchedulerManager.DynamicSchedulerManager.UpdateSchedulerFromEvent | jobworkerp-conductor/src/dynamic/scheduler_manager.rs:314-343 | brings the one scheduler back in step with the store of that moment: tracked exactly if enabled, lacking nothing, and not refused by the library's latest call about it |
| SchedulerManager.DynamicSchedulerManager.StopAll | jobworkerp-conductor/src/dynamic/scheduler_manager.rs:102-128 | nothing is tracked, and what is still registered is what the library refused to remove, or was replaced before |
| SchedulerManager.DynamicSchedulerManager.SafeReload | jobworkerp-conductor/src/dynamic/scheduler_manager.rs:136-151 | on success every listed enabled scheduler is tracked; on failure the library refused a call or a listed one could not be prepared |
| SchedulerManager.DynamicSchedulerManager.StartInitialSchedulers | jobworkerp-conductor/src/initialization/layer.rs:406-460 | after start-up exactly the enabled schedulers that lack nothing and were not refused are tracked, with their stored data |
| SchedulerManager.DynamicSchedulerManager.NothingRefused | jobworkerp-conductor/src/dynamic/scheduler_manager.rs:154-362 | without refusals the tracked schedulers are exactly the enabled ones that lacked nothing when last tried, and every registered job is tracked |
| ReactionNames.SplitUndoesJoin | slack-event-handler/src/config_cache.rs:117-122 | splitting at commas undoes joining |
| ReactionNames.JoinUndoesSplit | slack-event-handler/src/config_cache.rs:117-122 | and joining undoes splitting |
| ReactionNames.TrimStrips | slack-event-handler/src/config_cache.rs:115-131 | trimming removes exactly the white space at the ends |
| ReactionNames.ListedNamesAreReadBack | slack-event-handler/src/config_cache.rs:115-131 | plain names listed with commas, white space around them and gaps are read as exactly those names |
| SlackMatching.OperationFitsItsColumn | slack-event-handler/src/event_matcher.rs:201-219 | an operation fits exactly if the stored column is absent, both or names it |
| SlackMatching.AcceptsExactly | slack-event-handler/src/event_matcher.rs:62-283 | what a handler accepts, condition by condition: its channel or any, mention or message, operation, names, and patterns that compile and match |
| SlackMatching.AcceptedAreAdmitted | slack-event-handler/src/event_matcher.rs:62-141 | whatever is cached, only events of the right channel and kind are accepted, and a handler without patterns and names accepts all of those |
| SlackMatching.CachedExactly | slack-event-handler/src/event_matcher.rs:62-283 | the cached matcher accepts exactly what the direct one accepts, but for reactions of handlers whose message pattern does not compile |
| SlackMatching.AgreeWhenAllCompile | slack-event-handler/src/config_cache.rs:82-134 | for handlers whose patterns all compile the two agree on every event |
| SlackMatching.NeverBothMentionAndMessage | slack-event-handler/src/event_matcher.rs:84-110 | the two events of one mention never fire a handler twice, and one of them does when its conditions hold |
| SlackMatching.SlackHandlerCache.CompileAndCachePatterns | slack-event-handler/src/config_cache.rs:82-134 | what is written up to the first failing pattern, for this handler only; after a failure filters and names are as before; the version grows only on success |
| SlackMatching.SlackHandlerCache.InvalidateHandler | slack-event-handler/src/config_cache.rs:137-160 | clears one handler's entry, and counts only if there was one |
| SlackMatching.SlackHandlerCache.Clear | slack-event-handler/src/config_cache.rs:163-170 | empties the cache |
| SlackMatching.DynamicSlackHandlerManager.Start | slack-event-handler/src/manager.rs:76-118 | after start the cache fits the store, failing handlers included |
| SlackMatching.DynamicSlackHandlerManager.UpdateHandlerCacheFromEvent | slack-event-handler/src/manager.rs:241-309 | an event keeps cache and store in step |
| SlackMatching.DynamicSlackHandlerManager.CheckMessageConditions | slack-event-handler/src/event_matcher.rs:145-182 | the branches decide the message condition, a missing id or data included |
| SlackMatching.DynamicSlackHandlerManager.CheckReactionConditions | slack-event-handler/src/event_matcher.rs:186-283 | the branches decide the reaction condition |
| SlackMatching.DynamicSlackHandlerManager.MatchEventToHandlers | slack-event-handler/src/event_matcher.rs:62-141 | returns each accepted handler once and no other: only handlers of the event's channel or of any, and every such one that sets no pattern and no names |
| SlackMatching.DynamicSlackHandlerManager.DispatchFollowsTheStore | slack-event-handler/src/event_matcher.rs:62-283 | while in step, dispatching is what the stored texts mean, but for the one family |
| Conductor.EventHandlerServerManager.Start | jobworkerp-conductor/src/initialization/layer.rs:245-305 | a first start brings jobs and cache in step after one snapshot, a second is refused and changes nothing |
| Conductor.EventHandlerServerManager.HandleCronSchedulerChange | jobworkerp-conductor/src/initialization/layer.rs:644-723 | a deletion removes the stored scheduler, a complete creation or update stores it; store and jobs stay in step; fails exactly for data without an id |
| Conductor.EventHandlerServerManager.HandleWorkerResultHandlerChange | jobworkerp-conductor/src/initialization/layer.rs:726-767 | the store's part of a listener change: what the event says is stored or removed |
| Conductor.EventHandlerServerManager.HandleJobworkerpServerChange | jobworkerp-conductor/src/initialization/layer.rs:807-862 | what the event says is stored or removed, and only the store is touched |
| Conductor.EventHandlerServerManager.HandleSlackEventHandlerChange | jobworkerp-conductor/src/initialization/layer.rs:865-947 | what the event says is stored or removed, and store and cache stay in step |
| Conductor.EventHandlerServerManager.HandleConfigChangeEvent | jobworkerp-conductor/src/initialization/layer.rs:556-641 | the state before is kept as the newest snapshot, the one entity follows the event and no other kind changes; everything is in step at the next boundary |
| Conductor.EventHandlerServerManager.ReceiveAll | jobworkerp-conductor/src/initialization/layer.rs:533-545 | the same after any sequence of events, failing ones included; which schedulers lacked something when last tried is a function of the events |
| Conductor.Serve | jobworkerp-conductor/src/initialization/layer.rs:245-305 | one whole life: load, start, follow any events; store, jobs and cache are in step at the end, and the store is the one the events lead to |
| Conductor.StartsWithWhatWasFetched | jobworkerp-conductor/src/dynamic/local_config.rs:22-46 | a conductor starts with exactly the complete entries it fetched, of all four kinds, and one snapshot of them |
| Conductor.NextEventIsObeyed | jobworkerp-conductor/src/initialization/layer.rs:533-641 | each further event of a run changes the configuration by exactly what it says |
| Conductor.EventHandlerServerManager.WithoutRefusals | jobworkerp-conductor/src/dynamic/scheduler_manager.rs:154-362 | at every event boundary, if the library refused nothing, the tracked ids are exactly the enabled ones that lacked nothing when last tried, and every registered job is tracked |
| Conductor.NoTwoJobsWithoutARefusal | jobworkerp-conductor/src/dynamic/scheduler_manager.rs:314-362 | two registered jobs of one scheduler mean that the library refused a removal |
| Conductor.RunsAreReproducible | jobworkerp-conductor/src/initialization/layer.rs:556-590 | in every run of the conductor a version names one configuration and every retained snapshot can be reinstated |
| ConfigReplication.ConductorApplies | jobworkerp-conductor/src/initialization/layer.rs:644-695 | the consumer step is what the event loop does to its schedulers |
| ConfigReplication.StepKeepsInv | api/app/src/app/cron_scheduler.rs:188-283 | every orderly step of any writer or the consumer keeps the replication invariant |
| ConfigReplication.NamesStayUnique | api/infra/src/infra/cron_scheduler/rdb.rs:18-157 | in every run, however the writers interleave, no two rows of the table bear one name |
| ConfigReplication.DrainedReplicaEqualsTable | api/app/src/app/cron_scheduler.rs:188-283 | in every orderly interleaving, once the queue is drained the store equals the table up to target normalisation |
| ConfigReplication.LoadedTableIsInStep | jobworkerp-conductor/src/dynamic/local_config.rs:22-32 | loading the table at start-up puts the store in step |
| ConfigReplication.CommitPossibleIff | api/app/src/app/cron_scheduler.rs:188-254 | exactly when a creation or an update can be committed: target, server, free name, and for an update only if the row exists |
| ConfigReplication.WriteDoesWhatItSays | api/app/src/app/cron_scheduler.rs:188-283 | after one undisturbed write the row says what was sent or is gone, the entry follows exactly if it was delivered, and nothing else changes |
| ConfigReplication.WriteConvergesIff | api/app/src/app/cron_scheduler.rs:188-283 | one undisturbed write leaves replica and table in step exactly when it is safe: delivered, it must update an existing row or delete one that could be read; undelivered, the table must say nothing new |
| ConfigReplication.OverlapDiverges | api/app/src/app/cron_scheduler.rs:217-254 | overlapping updates published in the other order leave the older data in the store |
| EndToEnd.SchedulersAreWhatWasReceived | jobworkerp-conductor/src/initialization/layer.rs:533-545 | the stored schedulers are what the received changes make of the loaded ones |
| EndToEnd.InStepFires | jobworkerp-conductor/src/dynamic/scheduler_manager.rs:154-311 | without refusals, a conductor in step with the table has one job for exactly each enabled row that lacked nothing, and it fires what the columns say at the address its server had then |
| EndToEnd.ServeTheTable | api/app/src/app/cron_scheduler.rs:188-283 | the whole way from any orderly interleaving of writers to the jobs the library fires: which rows have one, what it fires and where it runs |
| NamedRows.Insert | api/infra/src/infra/config_management/rdb.rs:68-106 | an INSERT fails exactly when the name is in use |
| NamedRows.InsertAll | api/infra/src/infra/config_management/rdb.rs:62-106 | the loop succeeds exactly when every item can be made a row with a free name, and then appends them all |
| ConfigManagement.CanonicalAddressSurvives | api/infra/src/infra/config_management/rdb.rs:487-500 | a canonical address is read back, a default port dropped on the way and restored |
| ConfigFileLaws.DecimalDenotes | api/infra/src/infra/config_management/rdb.rs:487-500 | a port is written as its decimal digits |
| ConfigFileLaws.AddressIsReadAs | api/infra/src/infra/config_management/rdb.rs:487-500 | an address is read as its host, its port or else 443 for https and 80 otherwise, and whether it is https |
| ConfigFileLaws.FileIsAcceptedIff | api/infra/src/infra/config_management/rdb.rs:511-564 | exactly which files pass validation |
| ConfigFileLaws.ImportSucceedsIff | api/infra/src/infra/config_management/rdb.rs:38-313 | an accepted file is imported exactly if its names are free, its items name servers of the table or the file, and have their crontab or listened worker |
| ConfigFileLaws.ImportWritesTheFile | api/infra/src/infra/config_management/rdb.rs:61-311 | one new enabled row for each listed server, scheduler and listener, saying what the file says, and none besides |
| ConfigFileLaws.ServersExported | api/infra/src/infra/config_management/rdb.rs:316-345 | the file lists exactly the stored servers, or the enabled ones, as scheme, host and port |
| ConfigFileLaws.CronsExported | api/infra/src/infra/config_management/rdb.rs:345-387 | and exactly the schedulers, or the enabled ones, whose server is stored, under its name |
| ConfigFileLaws.ListenersExported | api/infra/src/infra/config_management/rdb.rs:388-453 | and exactly the listeners, or the enabled ones, whose two servers are stored, under their names |
| ConfigRepository.ValidateTomlConfig | api/infra/src/infra/config_management/rdb.rs:511-564 | accepts exactly the files with a server, distinct server names, readable addresses and a target on every item |
| ConfigRepository.BuildServerMap | api/infra/src/infra/config_management/rdb.rs:108-119 | the map sends each server name to its id |
| ConfigRepository.RunImport | api/infra/src/infra/config_management/rdb.rs:61-311 | the statements succeed exactly when the file can be imported, and then each listed server, scheduler and listener is one new enabled row that says what the file says |
| ConfigRepository.ConfigManagementRepository.ImportTomlConfig | api/infra/src/infra/config_management/rdb.rs:38-313 | succeeds exactly when the file can be imported into the start state; then each listed item is one new enabled row that says what the file says and nothing else is new; otherwise the database is unchanged; the counts |
| ConfigRepository.ConfigManagementRepository.ExportTomlConfig | api/infra/src/infra/config_management/rdb.rs:316-453 | the file lists the selected rows with their servers' names, in the order the database returns them |
| ConfigRepository.ConfigManagementRepository.ClearAllConfigs | api/infra/src/infra/config_management/rdb.rs:15-35 | empties three tables and leaves Slack handlers |
| ConfigRoundTrip.ReimportSucceedsIff | api/infra/src/infra/config_management/rdb.rs:316-403 | importing an export with overwrite succeeds exactly when some server is exported and nothing exported refers to one that is not |
| ConfigRoundTrip.ReimportRestores | api/infra/src/infra/config_management/rdb.rs:38-453 | what comes back is, name by name, what was exported |
| ConfigRoundTrip.FullRoundTrip | api/infra/src/infra/config_management/rdb.rs:38-453 | a full export of a well-kept database with a server restores servers, schedulers and listeners by name |
| ConfigRoundTrip.FullExportIsReimportable | api/infra/src/infra/config_management/rdb.rs:316-453 | a full export can be imported again exactly when there is any server |
| ConfigRoundTrip.SlackHandlersAreLeftDangling | api/infra/src/infra/config_management/rdb.rs:48-62 | after an import with overwrite no Slack handler refers to an existing server |
| ConfigRoundTrip.ExportThenImport | api/infra/src/infra/config_management/rdb.rs:38-453 | both calls on one repository: succeed exactly as above, restore what was exported, or leave the database as it was |

## Left out

- The listener manager: it looks a removed listener's name up after the store has changed, so it does not mirror the store; only the store's part of listener events is modelled.
- `EventHandlerServerManager::stop`: it stops neither cron nor the event loop, so runs have a single start; errors during start are not modelled.
- gRPC services, CLI, tracing, environment parsing, Redis and memory caches, protobuf and payload encoding.
- Slack Socket Mode: an event is its kind, channel and text, or reaction and user; workflow arguments are not modelled.
- Time: cron firing and time zones, timestamps, `last_sync`, snapshot descriptions and the wording of errors.
- Database failures inside `Repository` and the import: a failed statement changes nothing; in the transition system, the recorder and the replication model writes may fail.
- Publications by other kinds than cron schedulers: their commit-then-publish code is the same; TOML import and clear publish nothing and are not part of the replication model.
- The duplicate clean-up before the UNIQUE indices exist; name collation and prefix indices of MySQL.
- Overflow of 64-bit versions, ids and, beyond 64 sleeps, delays.
- `re_execute`, paging and filters of the ledger listings.
- Conductor.EventHandlerServerManager.HandleWorkerResultHandlerChange: speaks of the store only, because the listener manager is left out.
- SchedulerManager.DynamicSchedulerManager.UpdateSchedulerFromEvent: does not say that a job's server address follows later changes of the server, because the code captures it when the job is added.
