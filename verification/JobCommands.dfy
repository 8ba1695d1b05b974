/** backend/job-service/src/command-routes.ts */
module JobCommands {
  import opened Schema
  import opened Database
  import opened ExecutionCommands

  function Run(db: Db, id: JobId, now: Time): Reply {
    if id !in db.jobs || db.jobs[id].status == JobDeleted then Reply(db, NotFound)
    else if db.jobs[id].status == JobPaused then Reply(db, Conflict)
    else Reply(CreateExecution(db, id, now), Ok)
  }

  predicate CanChangeJobStatus(current: JobStatus) {
    current != JobDeleted
  }

  /** What pause and resume decide from their first read. */
  function StatusDecision(db: Db, id: JobId): Outcome {
    if id !in db.jobs then NotFound
    else if !CanChangeJobStatus(db.jobs[id].status) then Conflict
    else Ok
  }

  /** Their update looks the job up by id only. */
  function StatusCommit(db: Db, id: JobId, status: JobStatus): Db
    requires id in db.jobs
  {
    db.(jobs := db.jobs[id := db.jobs[id].(status := status)])
  }

  function ChangeStatus(db: Db, id: JobId, status: JobStatus): Reply {
    var decision := StatusDecision(db, id);
    if decision != Ok then Reply(db, decision) else Reply(StatusCommit(db, id, status), Ok)
  }

  function RunnableOf(executions: map<ExecutionId, Execution>, id: JobId): set<ExecutionId> {
    set e | e in executions && executions[e].jobId == id && Runnable(executions[e].status)
  }

  /** Marks the job deleted and cancels its runnable executions. */
  function Delete(db: Db, id: JobId, now: Time): Reply {
    if id !in db.jobs then Reply(db, NotFound)
    else
      var swept := SweepRows(db.executions, RunnableOf(db.executions, id), now);
      Reply(StatusCommit(db, id, JobDeleted).(executions := swept), Ok)
  }

  method PostRun(store: Store, id: JobId, now: Time) returns (outcome: Outcome)
    requires store.Valid()
    modifies store
    ensures store.Valid()
    ensures Reply(store.Snapshot(), outcome) == Run(old(store.Snapshot()), id, now)
    ensures outcome == NotFound <==> id !in old(store.jobs) || old(store.jobs)[id].status == JobDeleted
    ensures outcome == Conflict <==> id in old(store.jobs) && old(store.jobs)[id].status == JobPaused
    ensures outcome == Ok ==>
              && old(store.nextExecutionId) in store.executions
              && store.executions[old(store.nextExecutionId)]
                 == Execution(id, Pending, 0, Some(now), None, None, now, None, None, [])
    ensures outcome != Ok ==> store.Snapshot() == old(store.Snapshot())
  {
    if id !in store.jobs || store.jobs[id].status == JobDeleted {
      return NotFound;
    }
    if store.jobs[id].status == JobPaused {
      return Conflict;
    }
    var _ := store.InsertExecution(id, now);
    return Ok;
  }

  /** `POST /jobs/:id/pause` with PAUSED, `POST /jobs/:id/resume` with ACTIVE. */
  method PostStatus(store: Store, id: JobId, status: JobStatus) returns (outcome: Outcome)
    requires store.Valid()
    modifies store
    ensures store.Valid()
    ensures Reply(store.Snapshot(), outcome) == ChangeStatus(old(store.Snapshot()), id, status)
    ensures outcome == NotFound <==> id !in old(store.jobs)
    ensures outcome == Ok <==> id in old(store.jobs) && old(store.jobs)[id].status != JobDeleted
    ensures outcome == Ok ==> store.jobs == old(store.jobs)[id := old(store.jobs)[id].(status := status)]
    ensures outcome != Ok ==> store.Snapshot() == old(store.Snapshot())
    ensures store.executions == old(store.executions)
  {
    if id !in store.jobs {
      return NotFound;
    }
    if !CanChangeJobStatus(store.jobs[id].status) {
      return Conflict;
    }
    store.jobs := store.jobs[id := store.jobs[id].(status := status)];
    return Ok;
  }

  method DeleteJob(store: Store, id: JobId, now: Time) returns (outcome: Outcome)
    requires store.Valid()
    modifies store
    ensures store.Valid()
    ensures Reply(store.Snapshot(), outcome) == Delete(old(store.Snapshot()), id, now)
    ensures outcome == (if id in old(store.jobs) then Ok else NotFound)
    ensures outcome != Ok ==> store.Snapshot() == old(store.Snapshot())
    ensures outcome == Ok ==> store.jobs == old(store.jobs)[id := old(store.jobs)[id].(status := JobDeleted)]
    ensures outcome == Ok ==>
              forall e :: e in old(store.executions) ==>
                && e in store.executions
                && var row := old(store.executions)[e];
                   store.executions[e]
                   == if row.jobId == id && (row.status == Pending || row.status == Queued
                                             || row.status == RetryScheduled || row.status == Stalled)
                      then row.(status := Canceled, nextAttemptAt := None, lockedByWorkerId := None,
                                lastHeartbeatAt := None, finishedAt := Some(now))
                      else row
  {
    if id !in store.jobs {
      return NotFound;
    }
    store.jobs := store.jobs[id := store.jobs[id].(status := JobDeleted)];
    store.executions := SweepRows(store.executions, RunnableOf(store.executions, id), now);
    return Ok;
  }
}
