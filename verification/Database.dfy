/** The shared database as the services see it: one object whose tables they update. */
module Database {
  import opened Schema

  class Store {
    var jobs: map<JobId, Job>
    var queues: map<QueueId, Queue>
    var schedules: map<JobId, Schedule>
    var executions: map<ExecutionId, Execution>
    var deadLetters: map<DeadLetterId, DeadLetter>
    var nextExecutionId: nat
    var nextDeadLetterId: nat

    ghost function Snapshot(): Db
      reads this
    {
      Db(jobs, queues, schedules, executions, deadLetters, nextExecutionId, nextDeadLetterId)
    }

    ghost predicate Valid()
      reads this
    {
      Snapshot().WellFormed()
    }

    method InsertExecution(jobId: JobId, at: Time) returns (id: ExecutionId)
      requires Valid() && jobId in jobs
      modifies this
      ensures Valid() && id == old(nextExecutionId)
      ensures Snapshot() == CreateExecution(old(Snapshot()), jobId, at)
      ensures id in executions
      ensures executions[id] == Execution(jobId, Pending, 0, Some(at), None, None, at, None, None, [])
    {
      id := nextExecutionId;
      executions := executions[id := Execution(jobId, Pending, 0, Some(at), None, None, at, None, None, [])];
      nextExecutionId := nextExecutionId + 1;
    }

    method InsertDeadLetter(executionId: Option<ExecutionId>, attemptNumber: nat)
      requires Valid() && (executionId.Some? ==> executionId.value in executions)
      modifies this
      ensures Valid()
      ensures Snapshot() == CreateDeadLetter(old(Snapshot()), executionId, attemptNumber)
    {
      deadLetters := deadLetters[nextDeadLetterId := DeadLetter(executionId, attemptNumber, None, None)];
      nextDeadLetterId := nextDeadLetterId + 1;
    }

    method UpdateRow(id: ExecutionId, row: Execution)
      requires Valid() && id in executions && row.jobId == executions[id].jobId
      modifies this
      ensures Valid()
      ensures Snapshot() == old(Snapshot()).WithRow(id, row)
    {
      executions := executions[id := row];
    }
  }
}
