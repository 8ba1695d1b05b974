/** backend/execution-service/src/command-routes.ts: the handlers as functions from one committed
    state to the next, and as methods on the store. */
module ExecutionCommands {
  import opened Schema
  import opened Attempts
  import opened Database

  datatype Reply = Reply(db: Db, outcome: Outcome)

  /** The insert and update that end an attempt in one transaction. */
  function CommitAttempt(db: Db, id: ExecutionId, patch: Patch, worker: Option<WorkerId>,
                         status: AttemptStatus, finishedAt: Time): Db
    requires db.WellFormed() && id in db.executions
  {
    var written := db.WithRow(id, Ended(db.executions[id], patch, worker, status, finishedAt));
    if patch.deadLettered then CreateDeadLetter(written, Some(id), patch.attemptCount) else written
  }

  function RouteAttempt(db: Db, id: ExecutionId, worker: Option<WorkerId>,
                        status: AttemptStatus, finishedAt: Time): Reply
    requires db.WellFormed()
  {
    if id !in db.executions then Reply(db, NotFound)
    else
      var patch := RoutePatch(db.executions[id].attemptCount, LatestNumber(db.executions[id].attempts), db.JobOf(id),
                              status, finishedAt);
      Reply(CommitAttempt(db, id, patch, worker, status, finishedAt), Ok)
  }

  function Heartbeat(db: Db, id: ExecutionId, worker: WorkerId, at: Time): Reply {
    if id !in db.executions || db.executions[id].lockedByWorkerId != Some(worker) then Reply(db, NotFound)
    else Reply(db.WithRow(id, db.executions[id].(lastHeartbeatAt := Some(at))), Ok)
  }

  function Cancel(db: Db, id: ExecutionId, now: Time): Reply {
    if id !in db.executions then Reply(db, NotFound)
    else if Terminal(db.executions[id].status) then Reply(db, Conflict)
    else Reply(db.WithRow(id, CanceledRow(db.executions[id], now)), Ok)
  }

  // Retry, requeue and discard read first and update later; each is a decision and a commit.

  /** What the retry handler decides from its first read. */
  function RetryDecision(db: Db, id: ExecutionId): Outcome
    requires db.WellFormed()
  {
    if id !in db.executions then NotFound
    else if db.executions[id].status != Failed && db.executions[id].status != Canceled then Conflict
    else if db.JobOf(id).status == JobDeleted then Conflict
    else Ok
  }

  /** The retry handler's update, guarded by the status it read. */
  function RetryCommit(db: Db, id: ExecutionId, observed: ExecutionStatus, retryAt: Time): Reply {
    if id !in db.executions || db.executions[id].status != observed then Reply(db, NotFound)
    else Reply(db.WithRow(id, ReopenedRow(db.executions[id], retryAt)), Ok)
  }

  function Retry(db: Db, id: ExecutionId, retryAt: Time): Reply
    requires db.WellFormed()
  {
    var decision := RetryDecision(db, id);
    if decision != Ok then Reply(db, decision)
    else RetryCommit(db, id, db.executions[id].status, retryAt)
  }

  function RequeueDecision(db: Db, message: DeadLetterId): Outcome
    requires db.WellFormed()
  {
    if message !in db.deadLetters || db.deadLetters[message].executionId.None? then NotFound
    else
      var letter := db.deadLetters[message];
      if letter.discardedAt.Some? || letter.requeuedAt.Some? then Conflict
      else if db.JobOf(letter.executionId.value).status == JobDeleted then Conflict
      else Ok
  }

  /** Its two updates look the execution and the message up by id only. */
  function RequeueCommit(db: Db, message: DeadLetterId, id: ExecutionId, now: Time): Reply {
    if id !in db.executions || message !in db.deadLetters then Reply(db, NotFound)
    else
      var requeued := db.deadLetters[message].(requeuedAt := Some(now));
      var reopened := db.WithRow(id, ReopenedRow(db.executions[id], now));
      Reply(reopened.(deadLetters := db.deadLetters[message := requeued]), Ok)
  }

  function Requeue(db: Db, message: DeadLetterId, now: Time): Reply
    requires db.WellFormed()
  {
    var decision := RequeueDecision(db, message);
    if decision != Ok then Reply(db, decision)
    else RequeueCommit(db, message, db.deadLetters[message].executionId.value, now)
  }

  function DiscardDecision(db: Db, message: DeadLetterId): Outcome {
    if message !in db.deadLetters || db.deadLetters[message].executionId.None? then NotFound
    else if db.deadLetters[message].requeuedAt.Some? then Conflict
    else Ok
  }

  /** The discard route's update looks the message up by id only. */
  function DiscardCommit(db: Db, message: DeadLetterId, now: Time): Db
    requires message in db.deadLetters
  {
    db.(deadLetters := db.deadLetters[message := db.deadLetters[message].(discardedAt := Some(now))])
  }

  function Discard(db: Db, message: DeadLetterId, now: Time): Reply {
    var decision := DiscardDecision(db, message);
    if decision != Ok then Reply(db, decision) else Reply(DiscardCommit(db, message, now), Ok)
  }

  // The handlers.

  method PostAttempt(store: Store, id: ExecutionId, worker: Option<WorkerId>, status: AttemptStatus,
                     finishedAt: Time)
    returns (outcome: Outcome)
    requires store.Valid()
    modifies store
    ensures store.Valid()
    ensures Reply(store.Snapshot(), outcome) == RouteAttempt(old(store.Snapshot()), id, worker, status, finishedAt)
    ensures outcome == (if id in old(store.executions) then Ok else NotFound)
    ensures outcome == Ok ==>
              var row := old(store.executions)[id];
              && AttemptEnds(row, store.executions[id], old(store.jobs)[row.jobId], worker, status, finishedAt)
              && store.deadLetters
                 == if store.executions[id].status == Failed
                    then old(store.deadLetters)[old(store.nextDeadLetterId) :=
                           DeadLetter(Some(id), store.executions[id].attemptCount, None, None)]
                    else old(store.deadLetters)
    ensures outcome != Ok ==> store.Snapshot() == old(store.Snapshot())
  {
    if id !in store.executions {
      return NotFound;
    }
    var execution := store.executions[id];
    var patch := RoutePatch(execution.attemptCount, LatestNumber(execution.attempts), store.jobs[execution.jobId],
                            status, finishedAt);
    WorkerEndsAttempt(execution, store.jobs[execution.jobId], worker, status, finishedAt);
    WorkerAndRouteAgree(execution.attemptCount, LatestNumber(execution.attempts), store.jobs[execution.jobId], status,
                        finishedAt);
    var log := execution.attempts + [Attempt(patch.attemptCount, worker, status, finishedAt)];
    store.UpdateRow(id, Apply(execution, patch).(attempts := log));
    if patch.deadLettered {
      store.InsertDeadLetter(Some(id), patch.attemptCount);
    }
    return Ok;
  }

  method PostHeartbeat(store: Store, id: ExecutionId, worker: WorkerId, at: Time) returns (outcome: Outcome)
    requires store.Valid()
    modifies store
    ensures store.Valid()
    ensures Reply(store.Snapshot(), outcome) == Heartbeat(old(store.Snapshot()), id, worker, at)
    ensures outcome == if id in old(store.executions) && old(store.executions)[id].lockedByWorkerId == Some(worker)
                       then Ok else NotFound
    ensures outcome == Ok ==> store.executions[id] == old(store.executions)[id].(lastHeartbeatAt := Some(at))
    ensures outcome != Ok ==> store.Snapshot() == old(store.Snapshot())
  {
    if id in store.executions && store.executions[id].lockedByWorkerId == Some(worker) {
      store.UpdateRow(id, store.executions[id].(lastHeartbeatAt := Some(at)));
      return Ok;
    }
    return NotFound;
  }

  method PostCancel(store: Store, id: ExecutionId, now: Time) returns (outcome: Outcome)
    requires store.Valid()
    modifies store
    ensures store.Valid()
    ensures Reply(store.Snapshot(), outcome) == Cancel(old(store.Snapshot()), id, now)
    ensures outcome != Ok ==> store.Snapshot() == old(store.Snapshot())
    ensures outcome == NotFound <==> id !in old(store.executions)
    ensures outcome != NotFound ==>
              var row := old(store.executions)[id];
              && (outcome == Conflict <==> row.status == Succeeded || row.status == Failed || row.status == Canceled)
              && (outcome == Ok ==>
                    store.executions[id] == row.(status := Canceled, lockedByWorkerId := None, nextAttemptAt := None,
                                                 finishedAt := Some(now)))
  {
    if id !in store.executions {
      return NotFound;
    }
    var existing := store.executions[id];
    if Terminal(existing.status) {
      return Conflict;
    }
    store.UpdateRow(id, existing.(status := Canceled, lockedByWorkerId := None, nextAttemptAt := None,
                                  finishedAt := Some(now)));
    return Ok;
  }

  method PostRetry(store: Store, id: ExecutionId, retryAt: Time) returns (outcome: Outcome)
    requires store.Valid()
    modifies store
    ensures store.Valid()
    ensures Reply(store.Snapshot(), outcome) == Retry(old(store.Snapshot()), id, retryAt)
    ensures outcome != Ok ==> store.Snapshot() == old(store.Snapshot())
    ensures outcome == NotFound <==> id !in old(store.executions)
    ensures outcome != NotFound ==>
              var row := old(store.executions)[id];
              && (outcome == Ok <==> (row.status == Failed || row.status == Canceled)
                                     && old(store.jobs)[row.jobId].status != JobDeleted)
              && (outcome == Ok ==>
                    store.executions[id] == row.(status := Pending, nextAttemptAt := Some(retryAt),
                                                 lockedByWorkerId := None, lastHeartbeatAt := None, startedAt := None,
                                                 finishedAt := None))
  {
    if id !in store.executions {
      return NotFound;
    }
    var existing := store.executions[id];
    if existing.status != Failed && existing.status != Canceled {
      return Conflict;
    }
    if store.jobs[existing.jobId].status == JobDeleted {
      return Conflict;
    }
    store.UpdateRow(id, existing.(status := Pending, nextAttemptAt := Some(retryAt), lockedByWorkerId := None,
                                  lastHeartbeatAt := None, startedAt := None, finishedAt := None));
    return Ok;
  }

  method PostRequeue(store: Store, message: DeadLetterId, now: Time) returns (outcome: Outcome)
    requires store.Valid()
    modifies store
    ensures store.Valid()
    ensures Reply(store.Snapshot(), outcome) == Requeue(old(store.Snapshot()), message, now)
    ensures outcome != Ok ==> store.Snapshot() == old(store.Snapshot())
    ensures outcome == NotFound <==>
              message !in old(store.deadLetters) || old(store.deadLetters)[message].executionId == None
    ensures outcome != NotFound ==>
              var letter := old(store.deadLetters)[message];
              var id := letter.executionId.value;
              var row := old(store.executions)[id];
              && (outcome == Ok <==> letter.discardedAt == None && letter.requeuedAt == None
                                     && old(store.jobs)[row.jobId].status != JobDeleted)
              && (outcome == Ok ==>
                    && store.deadLetters == old(store.deadLetters)[message := letter.(requeuedAt := Some(now))]
                    && store.executions[id] == row.(status := Pending, nextAttemptAt := Some(now),
                                                    lockedByWorkerId := None, lastHeartbeatAt := None,
                                                    startedAt := None, finishedAt := None))
  {
    if message !in store.deadLetters || store.deadLetters[message].executionId.None? {
      return NotFound;
    }
    var letter := store.deadLetters[message];
    if letter.discardedAt.Some? {
      return Conflict;
    }
    if letter.requeuedAt.Some? {
      return Conflict;
    }
    var id := letter.executionId.value;
    var execution := store.executions[id];
    if store.jobs[execution.jobId].status == JobDeleted {
      return Conflict;
    }
    store.UpdateRow(id, execution.(status := Pending, nextAttemptAt := Some(now), lockedByWorkerId := None,
                                   lastHeartbeatAt := None, startedAt := None, finishedAt := None));
    store.deadLetters := store.deadLetters[message := letter.(requeuedAt := Some(now))];
    return Ok;
  }

  method DeleteDeadLetter(store: Store, message: DeadLetterId, now: Time) returns (outcome: Outcome)
    requires store.Valid()
    modifies store
    ensures store.Valid()
    ensures Reply(store.Snapshot(), outcome) == Discard(old(store.Snapshot()), message, now)
    ensures outcome != Ok ==> store.Snapshot() == old(store.Snapshot())
    ensures outcome == NotFound <==>
              message !in old(store.deadLetters) || old(store.deadLetters)[message].executionId == None
    ensures outcome != NotFound ==>
              var letter := old(store.deadLetters)[message];
              && (outcome == Ok <==> letter.requeuedAt == None)
              && (outcome == Ok ==>
                    store.deadLetters == old(store.deadLetters)[message := letter.(discardedAt := Some(now))])
    ensures store.executions == old(store.executions)
  {
    if message !in store.deadLetters || store.deadLetters[message].executionId.None? {
      return NotFound;
    }
    var letter := store.deadLetters[message];
    if letter.requeuedAt.Some? {
      return Conflict;
    }
    store.deadLetters := store.deadLetters[message := letter.(discardedAt := Some(now))];
    return Ok;
  }
}
