/** backend/execution-service/src/recovery.ts */
module RecoveryPlan {
  import opened Schema
  import ExecutionRetry

  datatype Recovery = Recovery(
    attemptNumber: nat,
    retryable: bool,
    nextAttemptAt: Option<Time>,
    status: ExecutionStatus,
    finishedAt: Option<Time>)

  function CalculateStaleBefore(now: Time, stalledAfterMs: int): Time {
    now - stalledAfterMs
  }

  predicate IsExecutionStale(execution: Execution, staleBefore: Time) {
    execution.lastHeartbeatAt.Some? && execution.lastHeartbeatAt.value < staleBefore
  }

  function PlanStalledExecutionRecovery(attemptCount: nat, job: Job, now: Time): Recovery {
    var attemptNumber := attemptCount + 1;
    var retryable := attemptNumber < job.maxAttempts;
    Recovery(
      attemptNumber,
      retryable,
      if retryable then Some(now + ExecutionRetry.CalculateBackoffDelayMs(job, attemptNumber + 1)) else None,
      if retryable then RetryScheduled else Failed,
      if retryable then None else Some(now))
  }
}

/** The three code paths that end an attempt. Each computes the columns it will write from what
    it read, so the read and the write can be told apart. */
module Attempts {
  import opened Schema
  import opened RecoveryPlan
  import ExecutionRetry
  import WorkerExecution
  import BackoffProperties

  /** The columns an ended attempt writes (the lock is always cleared). */
  datatype Patch = Patch(
    attemptCount: nat,
    status: ExecutionStatus,
    nextAttemptAt: Option<Time>,
    finishedAt: Option<Time>,
    deadLettered: bool)

  function Apply(row: Execution, patch: Patch): Execution {
    row.(attemptCount := patch.attemptCount, status := patch.status, nextAttemptAt := patch.nextAttemptAt,
         lockedByWorkerId := None, finishedAt := patch.finishedAt)
  }

  /** The execution once the attempt the patch describes was committed with it. */
  function Ended(row: Execution, patch: Patch, worker: Option<WorkerId>, status: AttemptStatus, at: Time): Execution {
    Apply(row, patch).(attempts := row.attempts + [Attempt(patch.attemptCount, worker, status, at)])
  }

  /** The aggregate `_max` over an execution's attempt rows, 0 when there are none. */
  function LatestNumber(log: seq<Attempt>): nat {
    if |log| == 0 then 0
    else
      var rest := LatestNumber(log[..|log| - 1]);
      var last := log[|log| - 1].attemptNumber;
      if rest < last then last else rest
  }

  function Max(x: nat, y: nat): nat {
    if x < y then y else x
  }

  function ShouldDeadLetterAttempt(status: AttemptStatus, retryable: bool): bool {
    status != AttemptSucceeded && !retryable
  }

  /** `recordAttempt` in the worker service. */
  function WorkerPatch(attemptCount: nat, latest: nat, job: Job, status: AttemptStatus, finishedAt: Time): Patch {
    var attemptNumber := Max(attemptCount, latest) + 1;
    var retryable := status != AttemptSucceeded && job.status == JobActive && attemptNumber < job.maxAttempts;
    Patch(
      attemptNumber,
      if status == AttemptSucceeded then Succeeded else if retryable then RetryScheduled else Failed,
      if retryable then Some(finishedAt + WorkerExecution.CalculateBackoffDelayMs(job, attemptNumber + 1)) else None,
      if status == AttemptSucceeded || !retryable then Some(finishedAt) else None,
      ShouldDeadLetterAttempt(status, retryable))
  }

  /** `POST /executions/:id/attempts` in the execution service. */
  function RoutePatch(attemptCount: nat, latest: nat, job: Job, status: AttemptStatus, finishedAt: Time): Patch {
    var attemptNumber := Max(attemptCount, latest) + 1;
    var succeeded := status == AttemptSucceeded;
    var retryable := !succeeded && job.status == JobActive && attemptNumber < job.maxAttempts;
    Patch(
      attemptNumber,
      if succeeded then Succeeded else if retryable then RetryScheduled else Failed,
      if retryable then Some(finishedAt + ExecutionRetry.CalculateBackoffDelayMs(job, attemptNumber + 1)) else None,
      if succeeded || !retryable then Some(finishedAt) else None,
      !succeeded && !retryable)
  }

  /** The recovery loop's update for a stalled execution of a job that is not deleted. */
  function RecoveryPatch(attemptCount: nat, latest: nat, job: Job, now: Time): Patch {
    var recovery := PlanStalledExecutionRecovery(Max(attemptCount, latest), job, now);
    Patch(recovery.attemptNumber, recovery.status, recovery.nextAttemptAt, recovery.finishedAt, false)
  }

  lemma WorkerAndRouteAgree(attemptCount: nat, latest: nat, job: Job, status: AttemptStatus, finishedAt: Time)
    ensures WorkerPatch(attemptCount, latest, job, status, finishedAt)
         == RoutePatch(attemptCount, latest, job, status, finishedAt)
  {
    BackoffProperties.CopiesAgree(job, Max(attemptCount, latest) + 2);
  }

  /** Recovery writes the row a failed attempt ending at `now` would write, exactly when the job is
      active or no attempt is left. (Recovery never looks at PAUSED, so there it keeps retrying.)
      It never dead-letters; a failed attempt does, exactly when the execution fails for good. */
  lemma RecoverySimulatesFailedAttempt(row: Execution, latest: nat, job: Job, status: AttemptStatus, now: Time)
    requires status == AttemptFailed || status == AttemptTimedOut
    ensures var byRecovery := RecoveryPatch(row.attemptCount, latest, job, now);
            var byWorker := WorkerPatch(row.attemptCount, latest, job, status, now);
            && (Apply(row, byRecovery) == Apply(row, byWorker)
                <==> job.status == JobActive || job.maxAttempts <= Max(row.attemptCount, latest) + 1)
            && !byRecovery.deadLettered
            && (byWorker.deadLettered <==> byWorker.status == Failed)
  {
    BackoffProperties.CopiesAgree(job, Max(row.attemptCount, latest) + 2);
  }

  lemma {:induction false} LatestIsHighest(log: seq<Attempt>)
    ensures forall i :: 0 <= i < |log| ==> log[i].attemptNumber <= LatestNumber(log)
    ensures LatestNumber(log) > 0 ==> exists i :: 0 <= i < |log| && log[i].attemptNumber == LatestNumber(log)
  {
    if |log| > 0 {
      LatestIsHighest(log[..|log| - 1]);
      assert log[|log| - 1].attemptNumber <= LatestNumber(log);
    }
  }

  /** What ending an attempt promises: it gets the number after the highest so far and is logged; the
      lock is gone; a success ends the execution, a failure of an active job with attempts left
      schedules the next one after the configured wait, any other fails the execution. */
  ghost predicate AttemptEnds(row: Execution, next: Execution, job: Job, worker: Option<WorkerId>,
                              status: AttemptStatus, at: Time)
  {
    var number := next.attemptCount;
    && row.attemptCount < number
    && (forall i :: 0 <= i < |row.attempts| ==> row.attempts[i].attemptNumber < number)
    && (number == row.attemptCount + 1
        || exists i :: 0 <= i < |row.attempts| && row.attempts[i].attemptNumber + 1 == number)
    && next.attempts == row.attempts + [Attempt(number, worker, status, at)]
    && next.lockedByWorkerId == None
    && next.jobId == row.jobId && next.scheduledFor == row.scheduledFor
    && next.startedAt == row.startedAt && next.lastHeartbeatAt == row.lastHeartbeatAt
    && if status == AttemptSucceeded then
         next.status == Succeeded && next.nextAttemptAt == None && next.finishedAt == Some(at)
       else if job.status == JobActive && number < job.maxAttempts then
         && next.status == RetryScheduled && next.finishedAt == None
         && next.nextAttemptAt == Some(at + Min(BackoffProperties.Growth(job, number + 1), job.retryMaxDelayMs))
       else
         next.status == Failed && next.nextAttemptAt == None && next.finishedAt == Some(at)
  }

  lemma WorkerEndsAttempt(row: Execution, job: Job, worker: Option<WorkerId>, status: AttemptStatus, at: Time)
    ensures var patch := WorkerPatch(row.attemptCount, LatestNumber(row.attempts), job, status, at);
            var next := Ended(row, patch, worker, status, at);
            && AttemptEnds(row, next, job, worker, status, at)
            && (patch.deadLettered <==> next.status == Failed)
  {
    LatestIsHighest(row.attempts);
    BackoffProperties.DelayIsCappedGrowth(job, Max(row.attemptCount, LatestNumber(row.attempts)) + 2);
  }

  /** Recovery ends it as a failure, and retries whether or not the job is active. */
  lemma RecoveryEndsAttempt(row: Execution, job: Job, holder: Option<WorkerId>, at: Time)
    ensures var patch := RecoveryPatch(row.attemptCount, LatestNumber(row.attempts), job, at);
            && AttemptEnds(row, Ended(row, patch, holder, AttemptFailed, at), job.Seen(JobActive), holder,
                           AttemptFailed, at)
            && !patch.deadLettered
  {
    var number := Max(row.attemptCount, LatestNumber(row.attempts)) + 1;
    LatestIsHighest(row.attempts);
    BackoffProperties.CopiesAgree(job, number + 1);
    BackoffProperties.DelayIsCappedGrowth(job, number + 1);
    SeenGrowsAlike(job, JobActive, number + 1);
  }

  lemma {:induction false} SeenGrowsAlike(job: Job, status: JobStatus, attempt: nat)
    ensures BackoffProperties.Growth(job.Seen(status), attempt) == BackoffProperties.Growth(job, attempt)
  {
    if attempt > 0 {
      SeenGrowsAlike(job, status, attempt - 1);
    }
  }

  /** The attempt log of a row that has recorded `count` attempts. */
  ghost predicate GapFree(log: seq<Attempt>, count: nat) {
    && |log| == count
    && forall i :: 0 <= i < |log| ==> log[i].attemptNumber == i + 1
  }

  lemma {:induction false} LatestOfGapFree(log: seq<Attempt>)
    requires GapFree(log, |log|)
    ensures LatestNumber(log) == |log|
  {
    if |log| > 0 {
      LatestOfGapFree(log[..|log| - 1]);
    }
  }
}
