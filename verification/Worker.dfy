/** backend/worker-service/src/worker.ts and the delivery handling of its index.ts */
module Worker {
  import opened Schema
  import opened Attempts
  import opened Database
  import opened ExecutionCommands

  /** What `executeJob` learns from its first read. */
  datatype Observation = Gone | AlreadyTerminal | DeletedJob | MayRun

  function Observe(db: Db, id: ExecutionId): Observation
    requires db.WellFormed()
  {
    if id !in db.executions then Gone
    else if Terminal(db.executions[id].status) then AlreadyTerminal
    else if db.JobOf(id).status == JobDeleted then DeletedJob
    else MayRun
  }

  /** The guarded cancel `executeJob` issues when it saw a deleted job. */
  function CancelRunnable(db: Db, id: ExecutionId, now: Time): Db {
    if id in db.executions && Runnable(db.executions[id].status)
    then db.WithRow(id, CanceledRow(db.executions[id], now))
    else db
  }

  predicate Claimable(row: Execution) {
    (row.status == Queued || row.status == RetryScheduled) && row.lockedByWorkerId.None?
  }

  /** The compare-and-set claim: it looks at the row, never at the job. */
  function Claim(db: Db, id: ExecutionId, worker: WorkerId, now: Time): Db {
    if id in db.executions && Claimable(db.executions[id])
    then db.WithRow(id, ClaimedRow(db.executions[id], worker, now))
    else db
  }

  /** The guard of the recording write. */
  predicate Recordable(row: Execution, worker: WorkerId) {
    row.status == Running && row.lockedByWorkerId == Some(worker)
  }

  /** The recording transaction when it read the job with the status `seen`. */
  function RecordSeen(db: Db, id: ExecutionId, worker: WorkerId, seen: JobStatus, status: AttemptStatus,
                      finishedAt: Time): Db
    requires db.WellFormed()
  {
    if id in db.executions && Recordable(db.executions[id], worker) then
      var patch := WorkerPatch(db.executions[id].attemptCount, LatestNumber(db.executions[id].attempts),
                               db.JobOf(id).Seen(seen), status, finishedAt);
      CommitAttempt(db, id, patch, Some(worker), status, finishedAt)
    else db
  }

  function RecordAttempt(db: Db, id: ExecutionId, worker: WorkerId, status: AttemptStatus, finishedAt: Time): Db
    requires db.WellFormed()
  {
    if id in db.executions then RecordSeen(db, id, worker, db.JobOf(id).status, status, finishedAt) else db
  }

  /** How a delivery is settled: acknowledged, put back, or dropped. */
  datatype Settlement = Ack | PutBack | Drop

  datatype Failure = MalformedMessage | AlreadyClaimed | OtherError

  /** The catch branch of the consume callback. */
  method SettleFailure(store: Store, failure: Failure) returns (settlement: Settlement)
    requires store.Valid()
    modifies store
    ensures store.Valid()
    ensures settlement == (if failure == OtherError then PutBack else Drop)
    ensures store.Snapshot() == (if failure == MalformedMessage then CreateDeadLetter(old(store.Snapshot()), None, 0)
                                 else old(store.Snapshot()))
  {
    var isAlreadyClaimed := failure == AlreadyClaimed;
    var shouldRequeue := failure != MalformedMessage && !isAlreadyClaimed;
    if !shouldRequeue && !isAlreadyClaimed {
      store.InsertDeadLetter(None, 0);
    }
    settlement := if shouldRequeue then PutBack else Drop;
  }

  method ReadExecution(store: Store, id: ExecutionId) returns (seen: Observation)
    requires store.Valid()
    ensures seen == Observe(store.Snapshot(), id)
    ensures seen == Gone <==> id !in store.executions
    ensures seen != Gone ==>
              var row := store.executions[id];
              && (seen == AlreadyTerminal
                  <==> row.status == Canceled || row.status == Succeeded || row.status == Failed)
              && (seen == MayRun <==> seen != AlreadyTerminal && store.jobs[row.jobId].status != JobDeleted)
  {
    if id !in store.executions {
      return Gone;
    }
    var execution := store.executions[id];
    if execution.status == Canceled || execution.status == Succeeded || execution.status == Failed {
      return AlreadyTerminal;
    }
    if store.jobs[execution.jobId].status == JobDeleted {
      return DeletedJob;
    }
    return MayRun;
  }

  /** What follows the read, once it did not end the call: the guarded cancel of a deleted job's
      execution, or the claim. */
  method CancelOrClaim(store: Store, id: ExecutionId, jobDeleted: bool, worker: WorkerId, now: Time)
    returns (claimed: bool)
    requires store.Valid()
    modifies store
    ensures store.Valid()
    ensures store.Snapshot() == (if jobDeleted then CancelRunnable(old(store.Snapshot()), id, now)
                                 else Claim(old(store.Snapshot()), id, worker, now))
    ensures claimed <==>
              && !jobDeleted && id in old(store.executions)
              && (old(store.executions)[id].status == Queued || old(store.executions)[id].status == RetryScheduled)
              && old(store.executions)[id].lockedByWorkerId == None
    ensures claimed ==>
              store.executions[id]
              == old(store.executions)[id].(status := Running, lockedByWorkerId := Some(worker),
                                            startedAt := Some(now), lastHeartbeatAt := Some(now))
    ensures !claimed && !jobDeleted ==> store.Snapshot() == old(store.Snapshot())
    ensures jobDeleted && id in old(store.executions) ==>
              var row := old(store.executions)[id];
              store.executions[id]
              == if row.status == Pending || row.status == Queued || row.status == RetryScheduled
                    || row.status == Stalled
                 then row.(status := Canceled, nextAttemptAt := None, lockedByWorkerId := None, finishedAt := Some(now))
                 else row
  {
    claimed := false;
    if jobDeleted {
      if id in store.executions && Runnable(store.executions[id].status) {
        store.UpdateRow(id, store.executions[id].(status := Canceled, nextAttemptAt := None,
                                                  lockedByWorkerId := None, finishedAt := Some(now)));
      }
      return;
    }
    if id in store.executions && Claimable(store.executions[id]) {
      store.UpdateRow(id, store.executions[id].(status := Running, lockedByWorkerId := Some(worker),
                                                startedAt := Some(now), lastHeartbeatAt := Some(now)));
      claimed := true;
    }
  }

  method Record(store: Store, id: ExecutionId, worker: WorkerId, status: AttemptStatus, finishedAt: Time)
    requires store.Valid()
    modifies store
    ensures store.Valid()
    ensures store.Snapshot() == RecordAttempt(old(store.Snapshot()), id, worker, status, finishedAt)
    ensures var held := && id in old(store.executions) && old(store.executions)[id].status == Running
                        && old(store.executions)[id].lockedByWorkerId == Some(worker);
            if held then
              var row := old(store.executions)[id];
              && AttemptEnds(row, store.executions[id], old(store.jobs)[row.jobId], Some(worker), status, finishedAt)
              && store.deadLetters
                 == if store.executions[id].status == Failed
                    then old(store.deadLetters)[old(store.nextDeadLetterId) :=
                           DeadLetter(Some(id), store.executions[id].attemptCount, None, None)]
                    else old(store.deadLetters)
            else
              store.Snapshot() == old(store.Snapshot())
  {
    if id !in store.executions {
      return;
    }
    var execution := store.executions[id];
    if execution.status == Canceled {
      return;
    }
    var patch := WorkerPatch(execution.attemptCount, LatestNumber(execution.attempts), store.jobs[execution.jobId],
                             status, finishedAt);
    if !Recordable(store.executions[id], worker) {
      return;
    }
    WorkerEndsAttempt(execution, store.jobs[execution.jobId], Some(worker), status, finishedAt);
    var log := execution.attempts + [Attempt(patch.attemptCount, Some(worker), status, finishedAt)];
    store.UpdateRow(id, Apply(execution, patch).(attempts := log));
    if patch.deadLettered {
      store.InsertDeadLetter(Some(id), patch.attemptCount);
    }
  }
}
