# Execution lifecycle of the job scheduler, modelled and proved in Dafny

The repository is a distributed HTTP job scheduler. A scheduler service plans due work and publishes
it, worker services claim and run it, an execution service recovers stalled work and serves the
operators' commands, a job service owns the jobs, and a gateway limits request rates. All of them write
the same few tables; what is true of an execution over its whole life depends on guards spread over four
services. This project models those tables, every transaction and guarded update on them, and the broker
between scheduler and workers, and proves what every run keeps.

How it is laid out:

- `Schema`, `Database`: the tables, as values (`Db`) and as one object the services update (`Store`).
- `Backoff`, `Attempts`: the two back-off functions and the three code paths that end an attempt.
- `ExecutionCommands`, `JobCommands`, `Worker`, `Recovery`, `Scheduler`, `Dispatch`: one module per source
  file. Each handler, loop and transaction is a method on the store, proved equal to a function from one
  committed state to the next. (Creating jobs and executions and pausing queues are steps of `World` only.)
- `World`: those functions as the steps of one state machine, with the broker's ready queue, the deliveries
  in flight, the commands between their read and their update, and the runs still publishing. A `Trace` is
  any finite run from an empty execution table.
- `Lifecycle`, `Deletion`, `Concurrency`, `DeadLetters`, `Schedules`, `Broker`: theorems over all traces.
- `Guards`: from a state in which no update that read too early is still under way, what the guards protect
  stays for good, whatever follows.
- `Scenarios`, `LateUpdates`: complete runs, built step by step, in which a property fails as soon as its
  condition does.
- `AttemptLog`: the three attempt writers with row read, number read and commit as separate steps.
- `RateLimiter`: the gateway's fixed-window counter over all request streams.

Grain: what reads first and updates later is two steps, with anything in between: the worker's read and
claim and its report, recovery's read of a row and its update, the scheduler's plan, publish and mark, and
the retry, pause, resume, requeue and discard commands. An update does what the code's `where` clause lets
it: recovery and requeue write by id whatever the row has become. An attempt's number is the next one at
the commit; a transaction that read an older one is aborted by the unique index, which for the run is as if
it had never committed, and `AttemptLog` takes that apart. Every other transaction or guarded update is one
step.

What a query answers, the outcome of the HTTP call, clocks, the cron library's next run and which
delivery, fault or crash comes next are parameters, left arbitrary. A query's answer is any page of the
rows it selects, in its order, ties in any order; `Schema.PageExists` and `Scheduler.AnswersExist` show
there always is one.

## Where the code and its documentation differ

The model follows the code.

- The repository's README.md:890 says messages without an execution can be discarded. Both dead-letter routes filter on the
  execution's organization (backend/execution-service/src/command-routes.ts:359-364 and 456-461), so such a
  message is never found: `DeadLetters.MessageSettledOnce`.
- Its README.md:145 says exhausted executions are written to the dead-letter table. Recovery fails an execution
  without writing a message: `Recovery.RecoveryEqualsReportedFailure`.
- A failed attempt of a paused job is not retried when a worker reports it, but is when recovery does:
  `Attempts.RecoverySimulatesFailedAttempt`.
- A queue's `concurrencyLimit` can be exceeded, in exactly two ways (`Concurrency.LimitCrossedExactly`); both
  happen (`Scenarios`).
- The guards on deleted jobs, on settled messages and on stale executions are checked in a read and not
  repeated in the update. `Deletion.QuietBrokenExactly`, `Deletion.UndeletedExactly`,
  `DeadLetters.SettledTwiceExactly` and `Lifecycle.TerminalLeftExactly` say exactly when a late update gets past
  them; it happens (`LateUpdates`). The counting laws of `Lifecycle` charge for the late recovery commits.
- Its README.md:119 says workers send heartbeats for the execution they run. The worker's heartbeat refreshes its
  own row only, so here an execution's heartbeat moves only by its claim and by the heartbeat route.

## Model

| member | source | states |
|---|---|---|
| Dispatch.GetDispatchableExecutions | backend/scheduler-service/src/scheduler.ts:173-194 | the loop returns, in order, the ids at the positions `Greedy` selects; retries and pending add up to their number, and retries counts the RETRY_SCHEDULED and STALLED ones |
| Dispatch.RetriesCount | backend/scheduler-service/src/scheduler.ts:186-190 | the retries counted are the chosen candidates that are RETRY_SCHEDULED or STALLED |
| Dispatch.GreedyIsFeasible | backend/scheduler-service/src/scheduler.ts:177-185 | at every prefix of the candidates the choice stays within the batch size and within every queue's limit less its active executions |
| Dispatch.SkippedForAReason | backend/scheduler-service/src/scheduler.ts:177-192 | a skipped candidate means a full batch or a saturated queue, and no later candidate of its queue is taken: each queue's chosen ones are a prefix of its candidates |
| Dispatch.DispatchedExactly | backend/scheduler-service/src/scheduler.ts:160-192 | from every prefix exactly min(batch, sum over queues of min(capacity, candidates there)) are taken |
| Dispatch.DispatchIsDominant | backend/scheduler-service/src/scheduler.ts:160-192 | no other selection within the same limits takes more from any prefix of the priority order: the greedy choice is optimal and priority-dominant |
| Dispatch.FeasibleBelowCeiling | backend/scheduler-service/src/scheduler.ts:160-192 | upper bound on every feasible selection, prefix by prefix |
| Scheduler.WindowInOrder | backend/scheduler-service/src/scheduler.ts:160-171 | the candidates are ready executions only (PENDING, RETRY_SCHEDULED or STALLED, due, job and queue ACTIVE), the higher queue priority first and the earlier due time on a tie; one is left out only when the window is full of others that come before it |
| Scheduler.ChosenAllInOrder | backend/scheduler-service/src/scheduler.ts:160-192 | what is dispatched is ready and in that order |
| Scheduler.CapacityMeans | backend/scheduler-service/src/scheduler.ts:141-157 | what an active queue may take is its limit less its QUEUED and RUNNING executions |
| Scheduler.PausedTakesNothing | backend/scheduler-service/src/scheduler.ts:141-146 | a paused queue takes nothing |
| Scheduler.LeftWaitingForAReason | backend/scheduler-service/src/scheduler.ts:140-195 | a ready execution is not dispatched only if the batch is full, its queue is saturated (queued, running and chosen reach its limit), or it lies behind a full window of 5 x batch candidates of higher priority, or equal priority and no later due time |
| Scheduler.OneTimePageMeans | backend/scheduler-service/src/scheduler.ts:62-71 | the one-time query takes active one-time jobs whose time has come and that have no execution, earliest first, and leaves one out only when its page is full |
| Scheduler.RecurringPageMeans | backend/scheduler-service/src/scheduler.ts:92-100 | the recurring query takes due schedules of active recurring jobs, earliest first, and leaves one out only when its page is full |
| Scheduler.ScheduleDueOneTimeJobs | backend/scheduler-service/src/scheduler.ts:73-89 | creates one fresh PENDING execution per job of the page, in order, and returns their ids |
| Scheduler.OneTimeAllRows | backend/scheduler-service/src/scheduler.ts:75-86 | every job of the page gets one PENDING execution, scheduled for and due at the time the job is to run, in order |
| Scheduler.ScheduleDueRecurringJobs | backend/scheduler-service/src/scheduler.ts:102-138 | the loop with its re-read; returns as many ids as executions were created |
| Scheduler.DispatchDue | backend/scheduler-service/src/scheduler.ts:140-195 | limits of active queues and counts of active executions feed the loop; the result is the choice for the stored state |
| Scheduler.CountActive | backend/scheduler-service/src/scheduler.ts:148-158 | the grouped count is the number of QUEUED and RUNNING executions of each queue |
| Scheduler.PlanOnce | backend/scheduler-service/src/scheduler.ts:197-231 | without the lock nothing changes; with it the due executions exist, the returned ids are the choice in the resulting state, all ready and in priority order, and the statistics count the rows created, the ids chosen and the retries among them |
| Scheduler.Mark | backend/scheduler-service/src/scheduler.ts:50-58 | exactly a PENDING, RETRY_SCHEDULED or STALLED row becomes QUEUED, no other column changes |
| Scheduler.PlannedOnlyAdds | backend/scheduler-service/src/scheduler.ts:61-138 | planning changes no job, queue, message or existing execution; what it adds are fresh PENDING executions of active jobs |
| Scheduler.AnswersExist | backend/scheduler-service/src/scheduler.ts:61-171 | in every well-formed state the planning queries have answers, so planning is never blocked |
| Schedules.PlanningTakesItsPage | backend/scheduler-service/src/scheduler.ts:61-89 | after planning, the due unscheduled one-time jobs are exactly those that were due less the page taken |
| Schedules.PlansToDrain | backend/scheduler-service/src/scheduler.ts:61-89 | n due one-time jobs are drained after k locked runs at one clock if and only if k is at least ceil(n / batchSize) |
| Schedules.NothingLeftToSchedule | backend/scheduler-service/src/scheduler.ts:61-89 | a run after that creates no one-time execution |
| Schedules.ScheduledAtMostOnce | backend/scheduler-service/src/scheduler.ts:63-68 | over any run, with manual runs and everything else interleaved, a one-time job is on the page of at most one planning run |
| Schedules.OneTimeMadeOnce | backend/scheduler-service/src/scheduler.ts:61-89 | over any run planning creates at most one execution for a one-time job |
| Schedules.EachScheduleFiresOnce | backend/scheduler-service/src/scheduler.ts:104-135 | for any list of schedules, even with repetitions, a due listed schedule yields exactly one execution, at the time that was due, however many ticks were missed, and moves past `now`; any other schedule is untouched |
| Schedules.PlannedMovesSchedule | backend/scheduler-service/src/scheduler.ts:91-138 | a planning transaction moves a schedule from at or before `now` to after `now`, with lastRunAt the old nextRunAt, or leaves it as it was |
| Schedules.SchedulesMoveForward | backend/scheduler-service/src/scheduler.ts:91-138 | over any run, whatever the clocks of its planning runs, the times a schedule fired for strictly increase, all lie before nextRunAt, and lastRunAt is the last of them |
| Schedules.EachTimeHasOneExecution | backend/scheduler-service/src/scheduler.ts:113-120 | over any run, the executions planning created for a recurring job are exactly one for each of these times, with that time as scheduledFor |
| Schedules.FiringIsRecurring | backend/scheduler-service/src/scheduler.ts:93-96 | only recurring jobs fire |
| Worker.ReadExecution | backend/worker-service/src/worker.ts:147-171 | which of the four outcomes the first read has |
| Worker.CancelOrClaim | backend/worker-service/src/worker.ts:171-211 | for a deleted job exactly a PENDING, QUEUED, RETRY_SCHEDULED or STALLED row is canceled; otherwise the claim succeeds exactly on an unlocked QUEUED or RETRY_SCHEDULED row, which then is RUNNING, locked by this worker, started and heartbeating at the claim's time |
| Worker.Record | backend/worker-service/src/worker.ts:45-145 | while this worker holds the RUNNING row the attempt ends as promised and a message is written exactly if the execution failed for good; otherwise nothing changes |
| Worker.SettleFailure | backend/worker-service/src/index.ts:74-86 | malformed messages are recorded and dropped, lost claims dropped, anything else put back |
| Broker.MessagesConserved | backend/worker-service/src/index.ts:69-87 | over any run, for each execution: messages published + put back = waiting + delivered |
| Broker.ClaimsAreDelivered | backend/worker-service/src/worker.ts:193-211 | every claim uses up a delivery of its own |
| Broker.ClaimsWithinMessages | backend/scheduler-service/src/scheduler.ts:47-59 | an execution is claimed no more often than its messages were published or put back |
| Broker.MarksArePublished | backend/scheduler-service/src/scheduler.ts:47-59 | over any run an execution is marked QUEUED by a run no more often than it was published: publish comes first |
| BackoffProperties.CopiesAgree | backend/worker-service/src/execution.ts:23-41 | both copies give the same delay for every job and attempt number |
| BackoffProperties.DelayBoundedAndMonotone | backend/worker-service/src/execution.ts:31-40 | delays lie between 0 and the configured cap and never decrease with the attempt number |
| BackoffProperties.ExponentialDoubles | backend/worker-service/src/execution.ts:32-33 | each exponential delay is the previous one doubled, up to the cap |
| BackoffProperties.DelayIsCappedGrowth | backend/execution-service/src/retry.ts:9-19 | the delay is the cap or a wait that stays the same, grows by one initial delay per attempt, or doubles from the second attempt on, whichever is smaller |
| BackoffProperties.TotalDelayBounded | backend/execution-service/src/retry.ts:9-19 | k waits sum to at most k caps and, for EXPONENTIAL, to at most initial x (2^k - 1) |
| BackoffProperties.IntermediatesExact | backend/job-service/src/validation.ts:73-76 | within the validated bounds the uncapped delay stays below 2^53, so the arithmetic is exact |
| Attempts.WorkerAndRouteAgree | backend/execution-service/src/command-routes.ts:156-208 | the `/attempts` route and the worker write the same columns for the same input |
| Attempts.RecoverySimulatesFailedAttempt | backend/execution-service/src/recovery.ts:25-43 | recovery writes the row a failed attempt ending now writes if and only if the job is active or no attempt is left; it never dead-letters, the attempt does exactly when it fails for good |
| Attempts.LatestOfGapFree | backend/worker-service/src/worker.ts:62-70 | on a gap-free log the maximum attempt number is the log's length |
| Attempts.WorkerEndsAttempt | backend/worker-service/src/worker.ts:62-106 | an attempt gets the number after the highest so far and is logged; success ends the execution, failure of an active job with attempts left schedules the next after the capped wait, any other fails it; a message is due exactly in the last case |
| Attempts.RecoveryEndsAttempt | backend/execution-service/src/recovery.ts:25-43 | recovery ends it the same way as a failure, retrying whether or not the job is active, and never with a message |
| Attempts.LatestIsHighest | backend/worker-service/src/worker.ts:62-70 | the aggregate is the highest attempt number logged |
| Recovery.RecoverTransaction | backend/execution-service/src/index.ts:64-138 | one row's transaction: it acts exactly on a RUNNING row whose heartbeat is before the threshold, cancels it for a deleted job, else ends its attempt as a failure; no message is written |
| Recovery.RecoverBatch | backend/execution-service/src/index.ts:59-139 | the loop's counters equal the number of rows that went each way when the pass started, and add up to the rows scanned |
| Recovery.RecoverStalledExecutions | backend/execution-service/src/index.ts:46-149 | a whole pass with all its statistics; every execution it recovers was RUNNING with a heartbeat older than the configured age and is RUNNING no more, every other RUNNING one is unchanged |
| Recovery.PassRecoversOverdue | backend/execution-service/src/recovery.ts:17-23 | by age: only executions silent for longer than the threshold are recovered, and one is left only for a full batch of others at least as old |
| Recovery.AllOverdueRecovered | backend/execution-service/src/index.ts:49-57 | a pass whose batch has room for all overdue executions recovers all of them |
| Recovery.FreshClaimIsNotStale | backend/worker-service/src/worker.ts:193-205 | a freshly claimed execution is locked by its worker and stale exactly for thresholds after the claim |
| Lifecycle.HeartbeatIsLastSign | backend/worker-service/src/worker.ts:199-204 | over any run the heartbeat of a RUNNING execution is the time of its last claim or heartbeat request |
| Lifecycle.RecoveryReadsOnlyTheSilent | backend/execution-service/src/index.ts:64-76 | over any run recovery takes an execution on if and only if it is RUNNING and its last claim or heartbeat lies before the threshold |
| Recovery.CancelDeletedJobRunnableExecutions | backend/execution-service/src/index.ts:28-44 | exactly the PENDING, QUEUED, RETRY_SCHEDULED and STALLED executions of deleted jobs are canceled, and the count says how many changed |
| Recovery.PassEffect | backend/execution-service/src/index.ts:63-139 | the rows of a pass do not influence each other |
| Recovery.PassClearsItsPage | backend/execution-service/src/index.ts:46-139 | a pass takes exactly the oldest min(batch, n) stale rows out of RUNNING |
| Recovery.PassTouchesOnlyItsPage | backend/execution-service/src/index.ts:46-139 | every other row is unchanged, except for the sweep's cancels |
| Recovery.StaleAfterPasses | backend/execution-service/src/index.ts:46-139 | how many stale rows are left after k passes |
| Recovery.PassesToClear | backend/execution-service/src/index.ts:46-139 | n stale rows are cleared after k passes at one clock if and only if k is at least ceil(n / batch) |
| Recovery.RecoveryEqualsReportedFailure | backend/execution-service/src/index.ts:92-131 | on whole states: recovery leaves the executions the holder's failure report would leave, exactly when the job is active, or paused with no attempt left; and writes no dead letter |
| ExecutionCommands.PostAttempt | backend/execution-service/src/command-routes.ts:140-240 | any existing execution's attempt ends as promised, with a message exactly if it failed for good; an unknown one is refused |
| ExecutionCommands.PostHeartbeat | backend/execution-service/src/command-routes.ts:111-138 | only the holder refreshes the heartbeat, anyone else gets 404 |
| ExecutionCommands.PostCancel | backend/execution-service/src/command-routes.ts:242-290 | conflicts if and only if the execution has ended; any other, also a RUNNING one, is canceled |
| ExecutionCommands.PostRetry | backend/execution-service/src/command-routes.ts:292-351 | Ok if and only if the execution is FAILED or CANCELED and its job is not deleted; it then is PENDING, due at the requested time, unlocked, with its attempts kept |
| ExecutionCommands.PostRequeue | backend/execution-service/src/command-routes.ts:353-412 | Ok if and only if the message is linked, neither discarded nor requeued, and the job not deleted; its execution then is PENDING and due now and only this message is marked |
| ExecutionCommands.DeleteDeadLetter | backend/execution-service/src/command-routes.ts:451-481 | Ok if and only if the message is linked and was not requeued; only this message is marked |
| JobCommands.PostRun | backend/job-service/src/command-routes.ts:45-68 | NotFound for a missing or deleted job, Conflict for a paused one, else one new PENDING execution due now |
| JobCommands.PostStatus | backend/job-service/src/command-routes.ts:86-158 | Ok if and only if the job exists and is not deleted; only its status changes |
| JobCommands.DeleteJob | backend/job-service/src/command-routes.ts:271-309 | the job is marked deleted and exactly its PENDING, QUEUED, RETRY_SCHEDULED and STALLED executions are canceled, in one transaction |
| World.StepActs | backend/worker-service/src/worker.ts:147-211 | whatever event any service performs, each existing execution undergoes exactly one of eleven actions, whose guard holds, and nothing else |
| World.StepCreates | backend/scheduler-service/src/scheduler.ts:76-83 | an execution that appears is new: PENDING, no attempts, unlocked |
| World.StepJobs | backend/job-service/src/command-routes.ts:86-309 | jobs are never removed and keep everything but their status, in particular queue and retry limit |
| World.OthersLeaveJobs | backend/job-service/src/command-routes.ts:86-309 | only the job service changes jobs and queues |
| Lifecycle.ShapeAlways | backend/worker-service/src/worker.ts:85-106 | in every reachable state: RUNNING iff locked; terminal iff finishedAt set iff nextAttemptAt null; RUNNING has start and heartbeat; STALLED is never entered; the attempt log is gap-free |
| Lifecycle.TerminalLeftExactly | backend/execution-service/src/index.ts:64-131 | over any run a terminal status changes if and only if the event is a manual retry (of FAILED or CANCELED), a dead-letter requeue, or a recovery commit that reschedules, fails or cancels what ended since it was read |
| Lifecycle.ClaimConservation | backend/worker-service/src/worker.ts:193-211 | over any run: claims + orphans = recorded attempts + claims abandoned while RUNNING + 1 if RUNNING, where orphans are the recovery commits on an execution not RUNNING any more; so without them no claim yields two attempts |
| Lifecycle.LogHoldsEveryEnding | backend/worker-service/src/worker.ts:112-125 | the log holds exactly the recorded attempts, numbered 1 to attemptCount |
| Lifecycle.AttemptBudget | backend/worker-service/src/worker.ts:66-74 | attemptCount is at most maxAttempts plus the reopenings and orphans so far, and strictly less while not terminal |
| Lifecycle.StepsLowerPotential | backend/scheduler-service/src/scheduler.ts:50-58 | every mark, claim, report, recovery or cancel lowers the potential; only a reopening or a late recovery commit raises it, by at most one round |
| Lifecycle.LifecycleTerminates | backend/execution-service/src/recovery.ts:26-31 | an execution takes at most 3 x maxAttempts such steps per round, and has one round more than it had reopenings and late recovery commits |
| Deletion.QuietBrokenExactly | backend/execution-service/src/command-routes.ts:319-335 | at any point of any run, an event leaves an execution of a deleted job claimable (QUEUED, RETRY_SCHEDULED, or PENDING in a plan) if and only if it is late: a retry or requeue commit while a run still holds the execution, a failed attempt with attempts left reported on an earlier reading of the job, or a recovery commit with attempts left that read the job before its deletion |
| Deletion.LateRetryExactly | backend/execution-service/src/command-routes.ts:326-335 | a retry commit does so if and only if the status is still the one read, the job is deleted by now, and a run still holds the execution in its plan |
| Deletion.DeletedIsQuiet | backend/job-service/src/command-routes.ts:286-307 | in every state of a run without such late updates an execution of a deleted job is neither QUEUED nor RETRY_SCHEDULED, and if PENDING no run is about to queue it |
| Deletion.NoClaimForDeletedJobs | backend/worker-service/src/worker.ts:193-205 | over every run in which the execution sees no late update, no claim of it succeeds once its job is deleted, although the claim does not look at the job |
| Deletion.UndeletedExactly | backend/job-service/src/command-routes.ts:86-222 | at any point of any run a deleted job leaves DELETED if and only if a command that sets its status (pause, resume, or an edit of the status field) commits |
| Guards.DeletedForGood | backend/job-service/src/command-routes.ts:29-31 | a deleted job for which no pause, resume or edit that read it earlier is under way stays deleted in every continuation |
| Guards.QuietForGood | backend/execution-service/src/command-routes.ts:319-324 | once nothing is under way that read the job before its deletion, a quiet execution of it stays quiet in every continuation |
| Guards.NothingRunsAfterDeletion | backend/worker-service/src/worker.ts:171-205 | and no claim of it ever succeeds again |
| Guards.LateReadersNeverClaim | backend/worker-service/src/worker.ts:150-190 | whatever late updates do to an execution of a deleted job, only a worker that read it before the deletion can still claim it |
| Guards.EndedForGood | backend/execution-service/src/index.ts:70-76 | an ended execution that no recovery under way has read as RUNNING keeps its final status until it is reopened |
| LateUpdates.LateRetryRunsDeletedJob | backend/execution-service/src/command-routes.ts:300-335 | a complete run: published, read by a worker, canceled, read by a retry, job deleted, retry committed, marked, claimed for the deleted job |
| LateUpdates.LateReportRunsDeletedJob | backend/worker-service/src/worker.ts:62-106 | a complete run in which a report that read the job before its deletion reschedules the execution and another worker claims it |
| LateUpdates.LateRecoveryRunsDeletedJob | backend/execution-service/src/index.ts:64-131 | a complete run: recovery reads a stale execution, an operator cancels it, the job is deleted, recovery commits by id, and a worker claims it for the deleted job |
| LateUpdates.LateRecoveryUndoesSuccess | backend/execution-service/src/index.ts:109-131 | a complete run in which a worker's success is taken back by a recovery that read before it: one claim, two attempts |
| LateUpdates.LateResumeUndeletes | backend/job-service/src/command-routes.ts:139-156 | a complete run in which a resume takes a job out of DELETED |
| Deletion.PlansExist | backend/scheduler-service/src/scheduler.ts:233-235 | what a run is about to publish exists |
| Concurrency.ChoiceFits | backend/scheduler-service/src/scheduler.ts:148-192 | a planning run that chooses anything from a queue leaves active plus chosen within the queue's limit |
| Concurrency.PlanningHolds | backend/scheduler-service/src/scheduler.ts:173-195 | after a planning run a queue is held by exactly the executions that were active, those chosen, and those an earlier run had left unmarked |
| Concurrency.QueueConcurrency | backend/scheduler-service/src/scheduler.ts:47-59 | in every reachable state, under every interleaving, the executions of a queue that are queued, running or planned are at most its limit plus stale claims plus executions that overlapping runs found unmarked |
| Concurrency.LimitCrossedExactly | backend/scheduler-service/src/scheduler.ts:148-192 | from a state within the limit, an event takes a queue past it if and only if it is a planning run after which active, chosen and unmarked together exceed it, or a stale claim at a full queue |
| Concurrency.ConcurrencyLimitHolds | backend/scheduler-service/src/scheduler.ts:148-192 | from any state within the limit, however reached, a run stays within it throughout if and only if no such event occurs |
| Concurrency.ClaimCost | backend/worker-service/src/worker.ts:193-205 | a successful claim adds exactly one to its queue's holders if it takes an unplanned RETRY_SCHEDULED execution, and nothing otherwise |
| Scenarios.OverlapExceedsLimit | backend/scheduler-service/src/scheduler.ts:197-235 | a run of two overlapping dispatches that queues two executions of a queue that admits one, and meets the bound with equality |
| Scenarios.StaleClaimExceedsLimit | backend/worker-service/src/worker.ts:193-205 | a run without overlap in which a message left over from an unmarked publish does the same |
| DeadLetters.MessagesAreFinalFailures | backend/worker-service/src/worker.ts:81-143 | an execution's messages are as many as the final failures workers recorded for it |
| DeadLetters.MessageNamesAttempt | backend/worker-service/src/worker.ts:127-142 | every message names an attempt in its execution's log that a worker recorded and that did not succeed |
| DeadLetters.MessagesNameDistinctAttempts | backend/worker-service/src/worker.ts:127-142 | no two messages of an execution name the same attempt |
| DeadLetters.MessagesNameFinalFailures | backend/worker-service/src/worker.ts:81-143 | the attempts an execution's messages name are exactly those recorded as final failures |
| DeadLetters.RequeuesAreRequeuedMessages | backend/execution-service/src/command-routes.ts:370-412 | over any run the requeues of an execution are its messages marked requeued plus the commits of a requeue already requeued since it was read: each message reopens once exactly as long as there are none |
| DeadLetters.RequeuesMessagesAttempts | backend/execution-service/src/command-routes.ts:353-412 | requeues less those repeats are at most messages, messages at most attempts |
| DeadLetters.SettledTwiceExactly | backend/execution-service/src/command-routes.ts:456-478 | at any point of any run a message becomes both requeued and discarded if and only if a discard commits after it was requeued or a requeue after it was discarded |
| DeadLetters.MessageSettledOnce | backend/execution-service/src/command-routes.ts:451-481 | without such a commit no message is both; one without an execution is never either, in any run |
| Guards.RequeuedForGood | backend/execution-service/src/command-routes.ts:370-412 | a requeued message that no requeue or discard under way has read is never touched again |
| Guards.DiscardedForGood | backend/execution-service/src/command-routes.ts:366-376 | a discarded message that no requeue under way has read is never requeued |
| DeadLetters.CommandsAreLinked | backend/execution-service/src/command-routes.ts:359-364 | whatever a requeue or discard has read stays linked to the same execution until it commits |
| LateUpdates.LateDiscardSettlesTwice | backend/execution-service/src/command-routes.ts:456-478 | a complete run that leaves a message both requeued and discarded |
| LateUpdates.LateRequeueReopensAgain | backend/execution-service/src/command-routes.ts:359-412 | a complete run in which one message reopens its execution twice |
| AttemptLog.LogGapFree | backend/packages/database/prisma/schema.prisma:262 | with row read, number read and commit of all three writers interleaved arbitrarily, every committed state has attempt numbers exactly 1 to attemptCount |
| AttemptLog.CommitExtends | backend/packages/database/prisma/schema.prisma:262 | a commit carries the next number or one the unique index rejects |
| AttemptLog.ClaimsBalance | backend/execution-service/src/index.ts:92-131 | at that grain: claims + orphaned attempts = attempts + abandoned claims + 1 if RUNNING |
| AttemptLog.AttemptsWithinClaims | backend/execution-service/src/index.ts:92-131 | claim conservation holds there if and only if no attempt was committed to a row that was not RUNNING |
| AttemptLog.WorkersLeaveNoOrphans | backend/worker-service/src/worker.ts:85-110 | such an attempt never comes from a worker |
| AttemptLog.LateRecoveryDoublesAnAttempt | backend/execution-service/src/index.ts:64-131 | a concrete history: one claim, recovery reads the row as stale, the worker's success commits, recovery commits a second attempt and takes the execution out of SUCCEEDED |
| RateLimiter.Limiter.RateLimitRequests | backend/api-gateway/src/middleware.ts:22-56 | the middleware's counters and verdict, including disabled limits and Redis failures |
| RateLimiter.CountersAreSound | backend/api-gateway/src/middleware.ts:33-40 | in every stream of requests a counter outlives its window and counts exactly its arrivals |
| RateLimiter.NewCounterExpires | backend/api-gateway/src/middleware.ts:33-39 | a new counter counts one and expires one window after its first request, rounded up to less than a second more |
| RateLimiter.VerdictIsExact | backend/api-gateway/src/middleware.ts:35-51 | a request passes exactly when fewer than the maximum arrived before it in its window |
| RateLimiter.WindowQuota | backend/api-gateway/src/middleware.ts:33-51 | without faults exactly min(arrivals, maximum) pass in a window, with faults at most that many by count |
| RateLimiter.SlidingWindowBound | backend/api-gateway/src/middleware.ts:33-51 | any interval of n window lengths lets at most (n + 1) x maximum requests of one identity through, plus those that Redis failures let through |
| RateLimiter.DisabledLetsAllThrough | backend/api-gateway/src/middleware.ts:23-26 | a disabled limiter lets everything through and keeps no counters |
| Schema.PageExists | backend/scheduler-service/src/scheduler.ts:69-70 | every ordered and limited query has an answer, whatever the ties |

## Left out

- HTTP routing, request validation, authentication, Prisma, the broker client, Redis connections and the outgoing request: plumbing; outcomes are parameters.
- Organization scoping of the routes: it only turns a reply into 404.
- The cron library: its next run is any time after `now`.
- `mark-queued` and `mark-running` (backend/execution-service/src/command-routes.ts:55-109): unguarded internal routes no other service calls; they break the lifecycle shape.
- The `/attempts` route as an event of whole runs: it updates by id alone, without a lock check; it is covered by `Attempts.WorkerAndRouteAgree`, `ExecutionCommands.PostAttempt` and `AttemptLog`.
- PATCH of jobs (but for the status, which commits as pause and resume do), queues and schedules, and the hard delete of queues: retry limits, queue limits, queue membership and schedules are fixed during a run.
- Worker presence rows, metrics, the dashboard, listing routes, and the preview, duration and message texts of attempts: no property here depends on them.
- The in-process flags that keep one process from starting a second scheduler or recovery loop: other processes overlap anyway, and the steps interleave freely.
- The exception `recordAttempt` throws for a missing execution: modelled as no change.
- The read before a cancel, a deletion or a manual run: the cancel's update repeats the status it read, a deletion decides nothing, and a manual run that commits late creates a PENDING execution of a deleted job, which is what `PostExecution` does.
- `Recovery.RecoverStalledExecutions`: an uninterrupted pass; rows that change under a pass are skipped one by one, which `Recovery.RecoverTransaction` and the interleaved events of `World` cover.
- The Redis commands of the limiter are one step that can fail before, between and after them; a window length is a whole number of milliseconds.
- Queries whose answer changes between statements of one planning transaction: the advisory lock and the transaction are taken to isolate it.
