/** The tables the four services share, as values.
    A `Db` is one committed state of the database; `WellFormed` is what its keys enforce. */
module Schema {
  datatype Option<+T> = None | Some(value: T)

  type Time = int  // milliseconds since the epoch
  type JobId = nat
  type QueueId = nat
  type ExecutionId = nat
  type WorkerId = nat
  type DeadLetterId = nat

  datatype JobType = OneTime | Recurring
  datatype JobStatus = JobActive | JobPaused | JobDeleted
  datatype QueueStatus = QueueActive | QueuePaused
  datatype BackoffType = Fixed | Exponential | Linear
  datatype ExecutionStatus =
    | Pending | Queued | Running | Succeeded | Failed | RetryScheduled | Stalled | Canceled

  /** The statuses a manual retry reopens from, and those pause and resume set. */
  type Reopenable = status: ExecutionStatus | status == Failed || status == Canceled witness Failed
  type Settable = status: JobStatus | status != JobDeleted witness JobActive

  datatype AttemptStatus = AttemptRunning | AttemptSucceeded | AttemptFailed | AttemptTimedOut

  datatype Queue = Queue(priority: int, concurrencyLimit: nat, status: QueueStatus)

  datatype Job = Job(
    queueId: QueueId,
    jobType: JobType,
    status: JobStatus,
    maxAttempts: nat,
    backoffType: BackoffType,
    retryInitialDelayMs: nat,
    retryMaxDelayMs: nat,
    runAt: Option<Time>)
  {
    /** The job as it was when its status was read. */
    function Seen(status: JobStatus): Job {
      this.(status := status)
    }
  }

  datatype Schedule = Schedule(nextRunAt: Time, lastRunAt: Option<Time>)

  datatype Execution = Execution(
    jobId: JobId,
    status: ExecutionStatus,
    attemptCount: nat,
    nextAttemptAt: Option<Time>,
    lockedByWorkerId: Option<WorkerId>,
    lastHeartbeatAt: Option<Time>,
    scheduledFor: Time,
    startedAt: Option<Time>,
    finishedAt: Option<Time>,
    attempts: seq<Attempt>)  // the rows of the attempts table that belong to this execution, oldest first

  datatype Attempt = Attempt(
    attemptNumber: nat,
    workerId: Option<WorkerId>,
    status: AttemptStatus,
    finishedAt: Time)

  /** `attemptNumber` is the one stored in the message's payload; 0 for a malformed message. */
  datatype DeadLetter = DeadLetter(
    executionId: Option<ExecutionId>,
    attemptNumber: nat,
    requeuedAt: Option<Time>,
    discardedAt: Option<Time>)

  datatype Outcome = Ok | NotFound | Conflict

  predicate Terminal(status: ExecutionStatus) {
    status == Succeeded || status == Failed || status == Canceled
  }

  /** The statuses a bulk cancel of a deleted job's executions selects. */
  predicate Runnable(status: ExecutionStatus) {
    status == Pending || status == Queued || status == RetryScheduled || status == Stalled
  }

  /** The statuses the scheduler dispatches from, and marks QUEUED from. */
  predicate Dispatchable(status: ExecutionStatus) {
    status == Pending || status == RetryScheduled || status == Stalled
  }

  /** The statuses that use up one unit of a queue's concurrency. */
  predicate Active(status: ExecutionStatus) {
    status == Queued || status == Running
  }

  datatype Db = Db(
    jobs: map<JobId, Job>,
    queues: map<QueueId, Queue>,
    schedules: map<JobId, Schedule>,
    executions: map<ExecutionId, Execution>,
    deadLetters: map<DeadLetterId, DeadLetter>,
    nextExecutionId: nat,
    nextDeadLetterId: nat)
  {
    /** Foreign keys hold and generated ids are fresh. */
    ghost predicate WellFormed() {
      && (forall j :: j in jobs ==> jobs[j].queueId in queues)
      && schedules.Keys <= jobs.Keys
      && (forall e :: e in executions ==> executions[e].jobId in jobs && e < nextExecutionId)
      && (forall d :: d in deadLetters ==> d < nextDeadLetterId)
      && (forall d :: d in deadLetters && deadLetters[d].executionId.Some?
                      ==> deadLetters[d].executionId.value in executions)
    }

    function JobOf(e: ExecutionId): Job
      requires e in executions && executions[e].jobId in jobs
    {
      jobs[executions[e].jobId]
    }

    function WithRow(e: ExecutionId, row: Execution): Db {
      this.(executions := executions[e := row])
    }
  }

  function NewExecution(jobId: JobId, at: Time): Execution {
    Execution(jobId, Pending, 0, Some(at), None, None, at, None, None, [])
  }

  function CreateExecution(db: Db, jobId: JobId, at: Time): Db {
    db.(executions := db.executions[db.nextExecutionId := NewExecution(jobId, at)],
        nextExecutionId := db.nextExecutionId + 1)
  }

  function CreateDeadLetter(db: Db, executionId: Option<ExecutionId>, attemptNumber: nat): Db {
    db.(deadLetters := db.deadLetters[db.nextDeadLetterId := DeadLetter(executionId, attemptNumber, None, None)],
        nextDeadLetterId := db.nextDeadLetterId + 1)
  }

  // The column sets the guarded updates write.

  function QueuedRow(row: Execution): Execution {
    row.(status := Queued)
  }

  function ClaimedRow(row: Execution, worker: WorkerId, at: Time): Execution {
    row.(status := Running, lockedByWorkerId := Some(worker), startedAt := Some(at), lastHeartbeatAt := Some(at))
  }

  function CanceledRow(row: Execution, at: Time): Execution {
    row.(status := Canceled, nextAttemptAt := None, lockedByWorkerId := None, finishedAt := Some(at))
  }

  /** The bulk cancels also clear the heartbeat. */
  function SweptRow(row: Execution, at: Time): Execution {
    CanceledRow(row, at).(lastHeartbeatAt := None)
  }

  /** The bulk cancel: one update of every selected row. */
  function SweepRows(executions: map<ExecutionId, Execution>, selected: set<ExecutionId>, at: Time)
    : (swept: map<ExecutionId, Execution>)
    ensures swept.Keys == executions.Keys
  {
    map e | e in executions :: if e in selected then SweptRow(executions[e], at) else executions[e]
  }

  function ReopenedRow(row: Execution, at: Time): Execution {
    row.(status := Pending, nextAttemptAt := Some(at), lockedByWorkerId := None,
         lastHeartbeatAt := None, startedAt := None, finishedAt := None)
  }

  // Query results.

  datatype SortKey = SortKey(major: int, minor: int) {
    predicate AtMost(other: SortKey) {
      major < other.major || (major == other.major && minor <= other.minor)
    }
  }

  /** `picked` is one possible answer to a query that selects the rows `keys`, orders them by
      their key and takes the first `take`; rows with equal keys may come in any order. */
  ghost predicate IsPage(keys: map<nat, SortKey>, take: nat, picked: seq<nat>) {
    && (forall i :: 0 <= i < |picked| ==> picked[i] in keys)
    && (forall i, j :: 0 <= i < j < |picked| ==> picked[i] != picked[j])
    && |picked| == (if |keys| <= take then |keys| else take)
    && (forall i, j :: 0 <= i < j < |picked| ==> keys[picked[i]].AtMost(keys[picked[j]]))
    && (forall i, k :: 0 <= i < |picked| && k in keys && k !in picked ==> keys[picked[i]].AtMost(keys[k]))
  }

  function Min(x: nat, y: nat): nat {
    if x < y then x else y
  }

  function One(b: bool): nat {
    if b then 1 else 0
  }

  ghost function Elements(s: seq<nat>): set<nat> {
    set x | x in s
  }

  lemma InFront(s: seq<nat>, x: nat)
    requires |s| > 0
    ensures x in s <==> x in s[..|s| - 1] || x == s[|s| - 1]
  {
    assert s == s[..|s| - 1] + [s[|s| - 1]];
  }

  lemma SubsetBound(a: set<nat>, b: set<nat>)
    requires a <= b
    ensures |a| <= |b|
  {
    assert b == a + (b - a);
  }

  lemma {:induction false} DistinctCount(s: seq<nat>)
    requires forall i, j :: 0 <= i < j < |s| ==> s[i] != s[j]
    ensures |Elements(s)| == |s|
  {
    if |s| == 0 {
      assert Elements(s) == {};
    } else {
      var front := s[..|s| - 1];
      DistinctCount(front);
      assert Elements(s) == Elements(front) + {s[|s| - 1]};
    }
  }

  /** A page empties its query, or takes exactly `take` rows out of it. */
  lemma PageRemainder(keys: map<nat, SortKey>, take: nat, picked: seq<nat>)
    requires IsPage(keys, take, picked)
    ensures Elements(picked) <= keys.Keys
    ensures |keys.Keys - Elements(picked)| == (if |keys.Keys| <= take then 0 else |keys.Keys| - take)
  {
    DistinctCount(picked);
    assert |keys.Keys| == |keys|;
  }

  lemma WindowIsFull(keys: map<nat, SortKey>, take: nat, picked: seq<nat>, left: nat)
    requires IsPage(keys, take, picked) && left in keys && left !in picked
    ensures |picked| == take
  {
    PageRemainder(keys, take, picked);
    assert left in keys.Keys - Elements(picked);
    assert |keys| == |keys.Keys|;
  }

  lemma {:induction false} LeastKey(keys: map<nat, SortKey>) returns (least: nat)
    requires |keys| > 0
    ensures least in keys && forall k :: k in keys ==> keys[least].AtMost(keys[k])
    decreases |keys|
  {
    least :| least in keys;
    var rest := keys - {least};
    if rest != map[] {
      assert rest.Keys == keys.Keys - {least};
      assert |rest| == |rest.Keys| < |keys.Keys| == |keys|;
      var other := LeastKey(rest);
      assert forall k :: k in keys ==> k == least || k in rest;
      if keys[other].AtMost(keys[least]) {
        least := other;
      }
    } else {
      assert forall k :: k in keys ==> k == least || k in rest;
    }
  }

  /** A page grows by a least row among those it leaves out. */
  lemma PageExtends(keys: map<nat, SortKey>, take: nat, picked: seq<nat>, next: nat)
    requires IsPage(keys, take, picked) && take < |keys|
    requires next in keys && next !in picked
    requires forall k :: k in keys && k !in picked ==> keys[next].AtMost(keys[k])
    ensures IsPage(keys, take + 1, picked + [next])
  {
    var longer := picked + [next];
    forall i | 0 <= i < |longer| ensures longer[i] in keys {
    }
    forall i, j | 0 <= i < j < |longer| ensures longer[i] != longer[j] && keys[longer[i]].AtMost(keys[longer[j]]) {
    }
    forall k | k in keys && k !in longer ensures k !in picked && k != next {
      assert longer[|picked|] == next;
      assert forall i :: 0 <= i < |picked| ==> longer[i] == picked[i];
    }
  }

  /** Every query has an answer. */
  lemma {:induction false} PageExists(keys: map<nat, SortKey>, take: nat) returns (picked: seq<nat>)
    ensures IsPage(keys, take, picked)
    decreases take
  {
    if take == 0 {
      picked := [];
    } else {
      picked := PageExists(keys, take - 1);
      if take <= |keys| {
        var next := LeftOver(keys, take - 1, picked);
        PageExtends(keys, take - 1, picked, next);
        picked := picked + [next];
      }
    }
  }

  lemma LeftOver(keys: map<nat, SortKey>, take: nat, picked: seq<nat>) returns (next: nat)
    requires IsPage(keys, take, picked) && take < |keys|
    ensures next in keys && next !in picked
    ensures forall k :: k in keys && k !in picked ==> keys[next].AtMost(keys[k])
  {
    PageRemainder(keys, take, picked);
    assert |keys| == |keys.Keys|;
    var rest := keys - Elements(picked);
    assert rest.Keys == keys.Keys - Elements(picked);
    assert |rest| == |rest.Keys|;
    next := LeastKey(rest);
    assert forall k :: k in keys && k !in picked ==> k in rest;
  }

  lemma {:induction false} ScaleStrictly(x: int, y: int, c: nat)
    requires x < y
    ensures x * c + c <= y * c
  {
    assert y * c == x * c + c + (y - x - 1) * c;
    assert 0 <= (y - x - 1) * c;
  }

  /** k batches cover n rows exactly when k is at least the ceiling of n / batchSize. */
  lemma CeilingFits(n: nat, batchSize: nat, k: nat)
    requires batchSize > 0
    ensures n <= k * batchSize <==> (n + batchSize - 1) / batchSize <= k
  {
    var q := (n + batchSize - 1) / batchSize;
    assert q * batchSize + (n + batchSize - 1) % batchSize == n + batchSize - 1;
    if q < k {
      ScaleStrictly(q, k, batchSize);
    } else if k < q {
      ScaleStrictly(k, q, batchSize);
    }
  }

  /** What is left of n rows after k batches. */
  function Remaining(n: nat, k: nat, batchSize: nat): nat {
    if k == 0 then n
    else
      var before := Remaining(n, k - 1, batchSize);
      if before <= batchSize then 0 else before - batchSize
  }

  lemma RemainingOne(n: nat, batchSize: nat)
    ensures Remaining(n, 1, batchSize) == if n <= batchSize then 0 else n - batchSize
  {
    assert Remaining(n, 0, batchSize) == n;
  }

  lemma RemainingStep(n: nat, k: nat, batchSize: nat)
    requires k > 0
    ensures Remaining(n, k, batchSize) == Remaining(Remaining(n, k - 1, batchSize), 1, batchSize)
  {
    assert Remaining(Remaining(n, k - 1, batchSize), 0, batchSize) == Remaining(n, k - 1, batchSize);
  }

  lemma {:induction false} RemainingClosed(n: nat, k: nat, batchSize: nat)
    ensures Remaining(n, k, batchSize) == if n <= k * batchSize then 0 else n - k * batchSize
  {
    if k > 0 {
      RemainingClosed(n, k - 1, batchSize);
      assert k * batchSize == (k - 1) * batchSize + batchSize;
    }
  }

  lemma RemainingIsZero(n: nat, k: nat, batchSize: nat)
    requires batchSize > 0
    ensures Remaining(n, k, batchSize) == 0 <==> (n + batchSize - 1) / batchSize <= k
  {
    RemainingClosed(n, k, batchSize);
    CeilingFits(n, batchSize, k);
  }
}
