/** Runs in which an update commits after something its read did not see. They show that the conditions
    under which deletion and dead-letter settlement hold are needed. */
module LateUpdates {
  import opened Schema
  import opened Attempts
  import opened ExecutionCommands
  import opened JobCommands
  import opened Recovery
  import opened Worker
  import opened World
  import opened Lifecycle
  import opened DeadLetters
  import opened Scenarios

  /** A command that was read is in no one's way. */
  lemma ReadingIsAllowed(w: World, tag: Tag)
    requires w.db.WellFormed() && tag !in w.commands
    ensures Allowed(w, ReadRetry(tag, 0, 0)) && Allowed(w, ReadRequeue(tag, 0)) && Allowed(w, ReadDiscard(tag, 0))
    ensures forall status :: Allowed(w, ReadStatus(tag, 0, status))
  {
  }

  lemma OperatorsAllowed(w: World)
    requires w.db.WellFormed()
    ensures Allowed(w, CancelExecution(0, 0)) && Allowed(w, RemoveJob(0, 0))
    ensures forall run :: Allowed(w, Publish(run)) && Allowed(w, Mark(run))
  {
  }

  // Deletion.

  function Deleted(): Job {
    OnlyJob().Seen(JobDeleted)
  }

  function WithJob(db: Db, job: Job): Db {
    db.(jobs := map[0 := job])
  }

  /** Deleting the job sweeps the executions that can be swept. */
  lemma RemoveStep(w: World, first: Execution, second: Execution)
    requires w.db == Two(first, second) && w.db.WellFormed() && first.jobId == 0 && second.jobId == 0
    requires !Runnable(first.status) && Runnable(second.status)
    ensures Step(w, RemoveJob(0, 0)) == w.(db := WithJob(Two(first, SweptRow(second, 0)), Deleted()))
  {
    var db := Delete(w.db, 0, 0).db;
    assert db.executions == map[0 := first, 1 := SweptRow(second, 0)];
    assert db.jobs == map[0 := Deleted()];
  }

  lemma CancelStep(w: World)
    requires w.db.WellFormed() && 0 in w.db.executions && !Terminal(w.db.executions[0].status)
    ensures Step(w, CancelExecution(0, 0)) == w.(db := w.db.WithRow(0, CanceledRow(w.db.executions[0], 0)))
  {
  }

  lemma ReadRetryStep(w: World, tag: Tag)
    requires w.db.WellFormed() && tag !in w.commands && 0 in w.db.executions && w.db.executions[0].status == Canceled
    requires w.db.JobOf(0).status == JobActive
    ensures Step(w, ReadRetry(tag, 0, 0)) == w.(commands := w.commands[tag := Retrying(0, Canceled, 0)])
  {
  }

  lemma CommitRetryStep(w: World, tag: Tag)
    requires w.db.WellFormed() && w.commands == map[tag := Retrying(0, Canceled, 0)]
    requires 0 in w.db.executions && w.db.executions[0].status == Canceled
    ensures Allowed(w, CommitRetry(tag, 0, Canceled, 0))
    ensures Step(w, CommitRetry(tag, 0, Canceled, 0))
         == w.(db := w.db.WithRow(0, ReopenedRow(w.db.executions[0], 0)), commands := map[])
  {
  }

  /** An execution is published but not marked, a worker reads it ... */
  lemma ReadWhilePlanned() returns (t: Trace)
    ensures IsRun(t)
    ensures Now(t) == World(Two(Fresh(), Fresh()), multiset{}, map[0 := Observed(7, 0, false)], map[],
                            map[0 := Publication([0], true)])
  {
    hide Db.WellFormed, Step, IsRun, Allowed;
    t := StartWithTwo();
    t := Plan(t, 0, [Fresh(), Fresh()], 0);
    PublishStep(Now(t), 0, 0);
    OperatorsAllowed(Now(t));
    t := Go(t, Publish(0));
    t := Receive(t, 0, 7, 0);
  }

  /** ... and an operator cancels it. */
  lemma CanceledWhilePlanned() returns (t: Trace)
    ensures IsRun(t)
    ensures Now(t) == World(Two(CanceledRow(Fresh(), 0), Fresh()), multiset{}, map[0 := Observed(7, 0, false)], map[],
                            map[0 := Publication([0], true)])
  {
    hide Db.WellFormed, Step, IsRun, Allowed;
    t := ReadWhilePlanned();
    CancelStep(Now(t));
    OperatorsAllowed(Now(t));
    t := Go(t, CancelExecution(0, 0));
    assert Now(t).db.executions == map[0 := CanceledRow(Fresh(), 0), 1 := Fresh()];
  }

  /** A retry reads the canceled execution, then the job is deleted ... */
  lemma RetryReadBeforeDeletion() returns (t: Trace)
    ensures IsRun(t)
    ensures Now(t) == World(WithJob(Two(CanceledRow(Fresh(), 0), SweptRow(Fresh(), 0)), Deleted()), multiset{},
                            map[0 := Observed(7, 0, false)], map[5 := Retrying(0, Canceled, 0)],
                            map[0 := Publication([0], true)])
  {
    hide Db.WellFormed, Step, IsRun, Allowed;
    t := CanceledWhilePlanned();
    ReadRetryStep(Now(t), 5);
    ReadingIsAllowed(Now(t), 5);
    t := Go(t, ReadRetry(5, 0, 0));
    RemoveStep(Now(t), CanceledRow(Fresh(), 0), Fresh());
    OperatorsAllowed(Now(t));
    t := Go(t, RemoveJob(0, 0));
  }

  /** ... and the retry commits. */
  lemma ReopenedAfterDeletion() returns (t: Trace)
    ensures IsRun(t)
    ensures Now(t) == World(WithJob(Two(Fresh(), SweptRow(Fresh(), 0)), Deleted()), multiset{},
                            map[0 := Observed(7, 0, false)], map[], map[0 := Publication([0], true)])
  {
    hide Db.WellFormed, Step, IsRun, Allowed;
    t := RetryReadBeforeDeletion();
    CommitRetryStep(Now(t), 5);
    t := Go(t, CommitRetry(5, 0, Canceled, 0));
    assert Now(t).db.executions == map[0 := Fresh(), 1 := SweptRow(Fresh(), 0)];
  }

  /** The run that still holds it marks it QUEUED, and the worker that read it before the deletion
      claims it for the deleted job. */
  lemma LateRetryRunsDeletedJob() returns (t: Trace)
    ensures Continues(t, 0) && LastAction(t, 0).Claimed? && LastJob(t, 0).status == JobDeleted
  {
    hide Db.WellFormed, Step, IsRun, Allowed, ActionOn;
    t := ReopenedAfterDeletion();
    MarkStep(Now(t), 0, 0);
    OperatorsAllowed(Now(t));
    t := Go(t, Mark(0));
    ClaimStep(Now(t), 0, 7, 0);
    OthersAllowed(Now(t), 0);
    t := Go(t, ClaimOrCancel(0, 0));
  }

  /** Two workers read the same execution before the deletion and one claims it. */
  lemma ClaimedAndObserved() returns (t: Trace)
    ensures IsRun(t)
    ensures Now(t) == World(Two(ClaimedRow(QueuedRow(Fresh()), 7, 0), Fresh()), multiset{},
                            map[0 := Executing(7, 0), 1 := Observed(8, 0, false)], map[],
                            map[0 := Publication([], false)])
  {
    hide Db.WellFormed, Step, IsRun, Allowed;
    t := PublishedTwice();
    t := ReceiveAndClaim(t, 0, 7, 0);
    t := Receive(t, 1, 8, 0);
    assert Now(t).db.executions == map[0 := ClaimedRow(QueuedRow(Fresh()), 7, 0), 1 := Fresh()];
  }

  /** The first reports a failure: its transaction reads the job before the deletion and reschedules
      after it. Then the second claims. */
  lemma LateReportRunsDeletedJob() returns (t: Trace)
    ensures Continues(t, 0) && LastAction(t, 0).Claimed? && LastJob(t, 0).status == JobDeleted
  {
    hide Db.WellFormed, Step, IsRun, Allowed, ActionOn;
    t := ClaimedAndObserved();
    ReadReportStep(Now(t), 0, 0);
    OthersAllowed(Now(t), 0);
    t := Go(t, ReadReport(0));
    RemoveStep(Now(t), ClaimedRow(QueuedRow(Fresh()), 7, 0), Fresh());
    OperatorsAllowed(Now(t));
    t := Go(t, RemoveJob(0, 0));
    ReportStep(Now(t), 0, 0);
    OthersAllowed(Now(t), 0);
    t := Go(t, Report(0, AttemptFailed, 0));
    ClaimStep(Now(t), 1, 8, 0);
    OthersAllowed(Now(t), 1);
    t := Go(t, ClaimOrCancel(1, 0));
  }

  lemma ReadStaleStep(w: World, tag: Tag)
    requires w.db.WellFormed() && tag !in w.commands && 0 in w.db.executions
    requires w.db.executions[0] == ClaimedRow(QueuedRow(Fresh()), 7, 0)
    ensures Allowed(w, ReadStale(tag, 0, 1))
    ensures Step(w, ReadStale(tag, 0, 1))
         == w.(commands := w.commands[tag := Recovering(0, w.db.JobOf(0).status, Some(7))])
  {
    hide Db.WellFormed;
  }

  /** The update of a recovery that saw an active job. */
  lemma CommitRecoveryStep(w: World, tag: Tag)
    requires w.db.WellFormed() && w.commands == map[tag := Recovering(0, JobActive, Some(7))] && 0 in w.db.executions
    ensures Allowed(w, CommitRecovery(tag, 0, JobActive, Some(7), 0))
    ensures var row := w.db.executions[0];
            Step(w, CommitRecovery(tag, 0, JobActive, Some(7), 0))
            == w.(db := w.db.WithRow(0, Ended(row, PatchFor(row, w.db.JobOf(0), 0), Some(7), AttemptFailed, 0)),
                  commands := map[])
  {
    hide Db.WellFormed, Step, JobServiceDb, ExecutionServiceDb, SchedulerDb, WorkerDb, RecoverCommit, PatchFor, Ended;
    CommandStep(w, CommitRecovery(tag, 0, JobActive, Some(7), 0));
    SeenActive(w.db);
    assert w.commands - {tag} == map[];
  }

  lemma SeenActive(db: Db)
    requires db.WellFormed() && 0 in db.executions
    ensures var row := db.executions[0];
            RecoverCommit(db, 0, JobActive, Some(7), 0)
            == db.WithRow(0, Ended(row, PatchFor(row, db.JobOf(0), 0), Some(7), AttemptFailed, 0))
  {
  }

  /** The execution as a cancel leaves it, and as recovery then writes over it. */
  function CanceledRunning(): Execution {
    CanceledRow(ClaimedRow(QueuedRow(Fresh()), 7, 0), 0)
  }

  lemma RecoveredAfterCancel(job: Job)
    requires job.Seen(JobActive) == OnlyJob()
    ensures Ended(CanceledRunning(), PatchFor(CanceledRunning(), job, 0), Some(7), AttemptFailed, 0) == RetryingRow()
  {
    assert PatchFor(CanceledRunning(), job, 0) == Patch(1, RetryScheduled, Some(0), None, false);
  }

  /** Recovery reads the execution as stale, an operator cancels it ... */
  lemma CanceledInRecovery() returns (t: Trace)
    ensures IsRun(t)
    ensures Now(t) == World(Two(CanceledRunning(), Fresh()), multiset{},
                            map[0 := Executing(7, 0), 1 := Observed(8, 0, false)],
                            map[5 := Recovering(0, JobActive, Some(7))], map[0 := Publication([], false)])
  {
    hide Db.WellFormed, Step, IsRun, Allowed;
    t := ClaimedAndObserved();
    ReadStaleStep(Now(t), 5);
    t := Go(t, ReadStale(5, 0, 1));
    CancelStep(Now(t));
    OperatorsAllowed(Now(t));
    t := Go(t, CancelExecution(0, 0));
    assert Now(t).db.executions == map[0 := CanceledRunning(), 1 := Fresh()];
  }

  /** ... the job is deleted, which skips the canceled execution, and recovery reschedules it ... */
  lemma RecoveredAfterDeletion() returns (t: Trace)
    ensures IsRun(t)
    ensures Now(t) == World(WithJob(Two(RetryingRow(), SweptRow(Fresh(), 0)), Deleted()), multiset{},
                            map[0 := Executing(7, 0), 1 := Observed(8, 0, false)], map[],
                            map[0 := Publication([], false)])
  {
    hide Db.WellFormed, Step, IsRun, Allowed;
    t := CanceledInRecovery();
    RemoveStep(Now(t), CanceledRunning(), Fresh());
    OperatorsAllowed(Now(t));
    t := Go(t, RemoveJob(0, 0));
    CommitRecoveryStep(Now(t), 5);
    RecoveredAfterCancel(Now(t).db.JobOf(0));
    t := Go(t, CommitRecovery(5, 0, JobActive, Some(7), 0));
    assert Now(t).db.executions == map[0 := RetryingRow(), 1 := SweptRow(Fresh(), 0)];
  }

  /** ... so that the worker that read it before the deletion claims it. */
  lemma LateRecoveryRunsDeletedJob() returns (t: Trace)
    ensures Continues(t, 0) && LastAction(t, 0).Claimed? && LastJob(t, 0).status == JobDeleted
  {
    hide Db.WellFormed, Step, IsRun, Allowed, ActionOn;
    t := RecoveredAfterDeletion();
    ClaimStep(Now(t), 1, 8, 0);
    OthersAllowed(Now(t), 1);
    t := Go(t, ClaimOrCancel(1, 0));
  }

  /** A success, and what recovery makes of it. */
  function SucceededRow(): Execution {
    RetryingRow().(status := Succeeded, nextAttemptAt := None, finishedAt := Some(0),
                   attempts := [Attempt(1, Some(7), AttemptSucceeded, 0)])
  }

  lemma SuccessStep(w: World)
    requires w.db.WellFormed() && 0 in w.handlers && w.handlers[0] == Reporting(7, 0, JobActive)
    requires 0 in w.db.executions && w.db.executions[0] == ClaimedRow(QueuedRow(Fresh()), 7, 0)
    ensures Step(w, Report(0, AttemptSucceeded, 0))
         == w.(db := w.db.WithRow(0, SucceededRow()), handlers := w.handlers[0 := Executing(7, 0)])
  {
    var patch := ReportPatch(w.db.executions[0], w.db.JobOf(0), JobActive, AttemptSucceeded, 0);
    assert patch == Patch(1, Succeeded, None, Some(0), false);
    assert Ended(w.db.executions[0], patch, Some(7), AttemptSucceeded, 0) == SucceededRow();
  }

  /** Recovery reads the execution as stale while the worker is about to report ... */
  lemma ReportingInRecovery() returns (t: Trace)
    ensures IsRun(t)
    ensures Now(t) == World(Two(ClaimedRow(QueuedRow(Fresh()), 7, 0), Fresh()), multiset{},
                            map[0 := Reporting(7, 0, JobActive), 1 := Observed(8, 0, false)],
                            map[5 := Recovering(0, JobActive, Some(7))], map[0 := Publication([], false)])
  {
    hide Db.WellFormed, Step, IsRun, Allowed;
    t := ClaimedAndObserved();
    ReadStaleStep(Now(t), 5);
    t := Go(t, ReadStale(5, 0, 1));
    ReadReportStep(Now(t), 0, 0);
    OthersAllowed(Now(t), 0);
    t := Go(t, ReadReport(0));
    assert Now(t).handlers == map[0 := Reporting(7, 0, JobActive), 1 := Observed(8, 0, false)];
  }

  /** ... its success ... */
  lemma SucceededInRecovery() returns (t: Trace)
    ensures IsRun(t)
    ensures Now(t) == World(Two(SucceededRow(), Fresh()), multiset{},
                            map[0 := Executing(7, 0), 1 := Observed(8, 0, false)],
                            map[5 := Recovering(0, JobActive, Some(7))], map[0 := Publication([], false)])
  {
    hide Db.WellFormed, Step, IsRun, Allowed;
    t := ReportingInRecovery();
    SuccessStep(Now(t));
    SuccessAllowed(Now(t));
    t := Go(t, Report(0, AttemptSucceeded, 0));
    assert Now(t).db.executions == map[0 := SucceededRow(), 1 := Fresh()];
    assert Now(t).handlers == map[0 := Executing(7, 0), 1 := Observed(8, 0, false)];
  }

  lemma SuccessAllowed(w: World)
    requires w.db.WellFormed()
    ensures Allowed(w, Report(0, AttemptSucceeded, 0))
  {
  }

  /** ... and recovery, committing last, takes it back: one claim, two attempts, and an execution that
      left SUCCEEDED without having been reopened. */
  lemma LateRecoveryUndoesSuccess() returns (t: Trace)
    ensures Continues(t, 0) && LastRow(t, 0).status == Succeeded
    ensures Is(Orphans, LastRow(t, 0), LastJob(t, 0), LastAction(t, 0))
    ensures 0 in Now(t).db.executions && Now(t).db.executions[0].status == RetryScheduled
    ensures Now(t).db.executions[0].attemptCount == 2
  {
    hide Db.WellFormed, Step, IsRun, Allowed;
    t := SucceededInRecovery();
    CommitRecoveryStep(Now(t), 5);
    assert PatchFor(SucceededRow(), OnlyJob(), 0).status == RetryScheduled;
    t := Go(t, CommitRecovery(5, 0, JobActive, Some(7), 0));
  }

  lemma StatusSteps(w: World, tag: Tag, status: Settable)
    requires w.db.WellFormed() && tag !in w.commands && 0 in w.db.jobs && w.db.jobs[0].status != JobDeleted
    ensures Step(w, ReadStatus(tag, 0, status)) == w.(commands := w.commands[tag := Switching(0, status)])
  {
  }

  lemma CommitStatusStep(w: World, tag: Tag, status: Settable)
    requires w.db.WellFormed() && w.commands == map[tag := Switching(0, status)] && 0 in w.db.jobs
    ensures Allowed(w, CommitStatus(tag, 0, status))
    ensures Step(w, CommitStatus(tag, 0, status))
         == w.(db := w.db.(jobs := w.db.jobs[0 := w.db.jobs[0].Seen(status)]), commands := map[])
  {
  }

  /** A resume reads the job, the job is deleted, and the resume takes it out of DELETED. */
  lemma LateResumeUndeletes() returns (deleted: Trace, t: Trace)
    ensures IsRun(deleted) && IsRun(t) && Extends(deleted, t)
    ensures 0 in Now(deleted).db.jobs && Now(deleted).db.jobs[0].status == JobDeleted
    ensures 0 in Now(t).db.jobs && Now(t).db.jobs[0].status == JobActive
  {
    hide Db.WellFormed, Step, IsRun, Allowed;
    t := CanceledWhilePlanned();
    StatusSteps(Now(t), 5, JobActive);
    ReadingIsAllowed(Now(t), 5);
    t := Go(t, ReadStatus(5, 0, JobActive));
    RemoveStep(Now(t), CanceledRow(Fresh(), 0), Fresh());
    OperatorsAllowed(Now(t));
    deleted := Go(t, RemoveJob(0, 0));
    CommitStatusStep(Now(deleted), 5, JobActive);
    t := Go(deleted, CommitStatus(5, 0, JobActive));
  }

  // Dead letters.

  function FailedRow(): Execution {
    RetryingRow().(status := Failed, nextAttemptAt := None, finishedAt := Some(0))
  }

  function Letter(): DeadLetter {
    DeadLetter(Some(0), 1, None, None)
  }

  function DeadLettered(row: Execution, letter: DeadLetter): Db {
    WithJob(Two(row, Fresh()), OnlyJob().Seen(JobPaused)).(deadLetters := map[0 := letter], nextDeadLetterId := 1)
  }

  function RunningPaused(): Db {
    WithJob(Two(ClaimedRow(QueuedRow(Fresh()), 7, 0), Fresh()), OnlyJob().Seen(JobPaused))
  }

  lemma FinalReport(db: Db)
    requires db == RunningPaused() && db.WellFormed()
    ensures RecordSeen(db, 0, 7, JobPaused, AttemptFailed, 0) == DeadLettered(FailedRow(), Letter())
  {
    var row := db.executions[0];
    var job := db.JobOf(0).Seen(JobPaused);
    var patch := WorkerPatch(row.attemptCount, LatestNumber(row.attempts), job, AttemptFailed, 0);
    assert patch == Patch(1, Failed, None, Some(0), true);
    assert Ended(row, patch, Some(7), AttemptFailed, 0) == FailedRow();
    var next := RecordSeen(db, 0, 7, JobPaused, AttemptFailed, 0);
    assert next.executions == map[0 := FailedRow(), 1 := Fresh()];
  }

  lemma FinalReportStep(w: World)
    requires w.db == RunningPaused() && w.db.WellFormed() && w.handlers == map[0 := Reporting(7, 0, JobPaused)]
    ensures Step(w, Report(0, AttemptFailed, 0))
         == w.(db := DeadLettered(FailedRow(), Letter()), handlers := map[0 := Executing(7, 0)])
  {
    hide RecordSeen, DeadLettered, FailedRow;
    FinalReport(w.db);
    assert w.handlers[0 := Executing(7, 0)] == map[0 := Executing(7, 0)];
  }

  lemma PausedWhileRunning() returns (t: Trace)
    ensures IsRun(t)
    ensures Now(t) == World(RunningPaused(), multiset{0}, map[0 := Executing(7, 0)], map[],
                            map[0 := Publication([], false)])
  {
    hide Db.WellFormed, Step, IsRun, Allowed;
    t := PublishedTwice();
    t := ReceiveAndClaim(t, 0, 7, 0);
    StatusSteps(Now(t), 5, JobPaused);
    ReadingIsAllowed(Now(t), 5);
    t := Go(t, ReadStatus(5, 0, JobPaused));
    CommitStatusStep(Now(t), 5, JobPaused);
    t := Go(t, CommitStatus(5, 0, JobPaused));
    assert Now(t).db.executions == map[0 := ClaimedRow(QueuedRow(Fresh()), 7, 0), 1 := Fresh()];
    assert Now(t).db.jobs == map[0 := OnlyJob().Seen(JobPaused)];
  }

  /** An attempt of a paused job fails for good and is dead-lettered. */
  lemma FailsForGood() returns (t: Trace)
    ensures IsRun(t)
    ensures Now(t) == World(DeadLettered(FailedRow(), Letter()), multiset{0}, map[0 := Executing(7, 0)], map[],
                            map[0 := Publication([], false)])
  {
    hide Db.WellFormed, Step, IsRun, Allowed;
    t := PausedWhileRunning();
    ReadReportStep(Now(t), 0, 0);
    OthersAllowed(Now(t), 0);
    t := Go(t, ReadReport(0));
    assert Now(t).handlers == map[0 := Reporting(7, 0, JobPaused)];
    FinalReportStep(Now(t));
    OthersAllowed(Now(t), 0);
    t := Go(t, Report(0, AttemptFailed, 0));
  }

  lemma ReadLetterSteps(w: World, tag: Tag)
    requires w.db == DeadLettered(FailedRow(), Letter()) && w.db.WellFormed() && tag !in w.commands
    ensures Step(w, ReadRequeue(tag, 0)) == w.(commands := w.commands[tag := Requeuing(0, 0)])
    ensures Step(w, ReadDiscard(tag, 0)) == w.(commands := w.commands[tag := Discarding(0)])
  {
    hide Db.WellFormed;
  }

  lemma CommitRequeueStep(w: World, tag: Tag, row: Execution, letter: DeadLetter)
    requires w.db == DeadLettered(row, letter) && w.db.WellFormed()
    requires tag in w.commands && w.commands[tag] == Requeuing(0, 0)
    ensures Allowed(w, CommitRequeue(tag, 0, 0, 0))
    ensures Step(w, CommitRequeue(tag, 0, 0, 0))
         == w.(db := DeadLettered(ReopenedRow(row, 0), letter.(requeuedAt := Some(0))), commands := w.commands - {tag})
  {
    var next := RequeueCommit(w.db, 0, 0, 0).db;
    assert next.executions == map[0 := ReopenedRow(row, 0), 1 := Fresh()];
    assert next.deadLetters == map[0 := letter.(requeuedAt := Some(0))];
  }

  lemma CommitDiscardStep(w: World, tag: Tag, row: Execution, letter: DeadLetter)
    requires w.db == DeadLettered(row, letter) && w.db.WellFormed()
    requires tag in w.commands && w.commands[tag] == Discarding(0)
    ensures Allowed(w, CommitDiscard(tag, 0, 0))
    ensures Step(w, CommitDiscard(tag, 0, 0))
         == w.(db := DeadLettered(row, letter.(discardedAt := Some(0))), commands := w.commands - {tag})
  {
    assert DiscardCommit(w.db, 0, 0).deadLetters == map[0 := letter.(discardedAt := Some(0))];
  }

  /** A discard reads the message, the message is requeued, and the discard commits: it is both. */
  lemma LateDiscardSettlesTwice() returns (t: Trace)
    ensures IsRun(t) && 0 in Now(t).db.deadLetters && !SettledOnce(Now(t).db.deadLetters[0])
  {
    hide Db.WellFormed, Step, IsRun, Allowed;
    t := FailsForGood();
    ReadLetterSteps(Now(t), 5);
    ReadingIsAllowed(Now(t), 5);
    t := Go(t, ReadDiscard(5, 0));
    ReadLetterSteps(Now(t), 6);
    ReadingIsAllowed(Now(t), 6);
    t := Go(t, ReadRequeue(6, 0));
    CommitRequeueStep(Now(t), 6, FailedRow(), Letter());
    t := Go(t, CommitRequeue(6, 0, 0, 0));
    CommitDiscardStep(Now(t), 5, ReopenedRow(FailedRow(), 0), Letter().(requeuedAt := Some(0)));
    t := Go(t, CommitDiscard(5, 0, 0));
  }

  lemma RequeueHappens(t: Trace, tag: Tag)
    requires Continues(t, 0) && t.event == CommitRequeue(tag, 0, 0, 0) && 0 in Now(t.before).db.deadLetters
    ensures Count(t, 0, Requeues) == Count(t.before, 0, Requeues) + 1
  {
    hide ActionOn, Perform, NextDb, Allowed;
    RequeueHits(Now(t.before), t.event, 0);
  }

  /** Two requeues read the one message of an execution ... */
  lemma BothRead() returns (t: Trace)
    ensures IsRun(t)
    ensures Now(t) == World(DeadLettered(FailedRow(), Letter()), multiset{0}, map[0 := Executing(7, 0)],
                            map[5 := Requeuing(0, 0), 6 := Requeuing(0, 0)], map[0 := Publication([], false)])
  {
    hide Db.WellFormed, Step, IsRun, Allowed;
    t := FailsForGood();
    ReadLetterSteps(Now(t), 5);
    ReadingIsAllowed(Now(t), 5);
    t := Go(t, ReadRequeue(5, 0));
    ReadLetterSteps(Now(t), 6);
    ReadingIsAllowed(Now(t), 6);
    t := Go(t, ReadRequeue(6, 0));
  }

  /** ... and both reopen it. */
  lemma LateRequeueReopensAgain() returns (t: Trace)
    ensures IsRun(t) && 0 in Now(t).db.executions
    ensures |Linked(Now(t).db, 0)| == 1 < Count(t, 0, Requeues)
  {
    hide Db.WellFormed, Step, IsRun, Allowed, ActionOn, Count;
    t := BothRead();
    CommitRequeueStep(Now(t), 5, FailedRow(), Letter());
    t := Go(t, CommitRequeue(5, 0, 0, 0));
    RequeueHappens(t, 5);
    CommitRequeueStep(Now(t), 6, ReopenedRow(FailedRow(), 0), Letter().(requeuedAt := Some(0)));
    t := Go(t, CommitRequeue(6, 0, 0, 0));
    RequeueHappens(t, 6);
    assert Linked(Now(t).db, 0) == {0};
  }
}
