/** backend/scheduler-service/src/scheduler.ts: the planning transaction and the guarded mark. */
module Scheduler {
  import opened Schema
  import opened Database
  import opened Dispatch

  predicate HasExecution(db: Db, j: JobId) {
    exists e :: e in db.executions && db.executions[e].jobId == j
  }

  /** What the one-time query selects. */
  predicate OneTimeDue(db: Db, j: JobId, now: Time) {
    && j in db.jobs && db.jobs[j].jobType == OneTime && db.jobs[j].status == JobActive
    && db.jobs[j].runAt.Some? && db.jobs[j].runAt.value <= now
    && !HasExecution(db, j)
  }

  function OneTimeIds(db: Db, now: Time): set<JobId> {
    set j | j in db.jobs && OneTimeDue(db, j, now)
  }

  function OneTimeKeys(db: Db, now: Time): map<JobId, SortKey> {
    map j | j in db.jobs && OneTimeDue(db, j, now) :: SortKey(db.jobs[j].runAt.value, 0)
  }

  function FirstRunAt(job: Job, now: Time): Time {
    if job.runAt.Some? then job.runAt.value else now
  }

  function ScheduleOneTime(db: Db, jobs: seq<JobId>, now: Time): (after: Db)
    requires forall i :: 0 <= i < |jobs| ==> jobs[i] in db.jobs
    ensures after.jobs == db.jobs
    decreases |jobs|
  {
    if |jobs| == 0 then db
    else
      var last := jobs[|jobs| - 1];
      CreateExecution(ScheduleOneTime(db, jobs[..|jobs| - 1], now), last, FirstRunAt(db.jobs[last], now))
  }

  /** What the recurring query selects. */
  predicate RecurringDue(db: Db, j: JobId, now: Time) {
    && j in db.schedules && db.schedules[j].nextRunAt <= now
    && j in db.jobs && db.jobs[j].status == JobActive && db.jobs[j].jobType == Recurring
  }

  function RecurringKeys(db: Db, now: Time): map<JobId, SortKey> {
    map j | j in db.schedules && RecurringDue(db, j, now) :: SortKey(db.schedules[j].nextRunAt, 0)
  }

  /** One turn of the recurring loop; `next` is the cron expression's next run after `now`. */
  function FireSchedule(db: Db, j: JobId, next: Time, now: Time): Db {
    if j !in db.schedules || db.schedules[j].nextRunAt > now then db
    else
      CreateExecution(db, j, db.schedules[j].nextRunAt)
        .(schedules := db.schedules[j := Schedule(next, Some(db.schedules[j].nextRunAt))])
  }

  function ScheduleRecurring(db: Db, jobs: seq<JobId>, next: map<JobId, Time>, now: Time): (after: Db)
    requires forall i :: 0 <= i < |jobs| ==> jobs[i] in next
    ensures after.jobs == db.jobs
    decreases |jobs|
  {
    if |jobs| == 0 then db
    else
      var last := jobs[|jobs| - 1];
      FireSchedule(ScheduleRecurring(db, jobs[..|jobs| - 1], next, now), last, next[last], now)
  }

  // The dispatch queries.

  function QueueLimits(db: Db): map<QueueId, nat> {
    map q | q in db.queues && db.queues[q].status == QueueActive :: db.queues[q].concurrencyLimit
  }

  predicate Occupies(db: Db, e: ExecutionId, q: QueueId)
    requires db.WellFormed() && e in db.executions
  {
    Active(db.executions[e].status) && db.JobOf(e).queueId == q
  }

  function ActiveIn(db: Db, q: QueueId): set<ExecutionId>
    requires db.WellFormed()
  {
    set e | e in db.executions && Occupies(db, e, q)
  }

  function ActiveCounts(db: Db): map<QueueId, nat>
    requires db.WellFormed()
  {
    map q | q in db.queues :: |ActiveIn(db, q)|
  }

  predicate CandidateDue(db: Db, e: ExecutionId, now: Time)
    requires db.WellFormed()
  {
    && e in db.executions && Dispatchable(db.executions[e].status)
    && db.executions[e].nextAttemptAt.Some? && db.executions[e].nextAttemptAt.value <= now
    && db.JobOf(e).status == JobActive
    && db.queues[db.JobOf(e).queueId].status == QueueActive
  }

  /** Highest queue priority first, then the earliest next attempt. */
  function CandidateKeys(db: Db, now: Time): map<ExecutionId, SortKey>
    requires db.WellFormed()
  {
    map e | e in db.executions && CandidateDue(db, e, now) ::
      SortKey(-db.queues[db.JobOf(e).queueId].priority, db.executions[e].nextAttemptAt.value)
  }

  ghost predicate IsCandidatePage(db: Db, now: Time, take: nat, cs: seq<Candidate>)
    requires db.WellFormed()
  {
    && IsPage(CandidateKeys(db, now), take, seq(|cs|, i requires 0 <= i < |cs| => cs[i].id))
    && forall i :: 0 <= i < |cs| ==>
         && cs[i].id in db.executions
         && cs[i].queueId == db.JobOf(cs[i].id).queueId
         && cs[i].status == db.executions[cs[i].id].status
  }

  /** The answers of a planning transaction's queries. */
  datatype Answers = Answers(
    oneTime: seq<JobId>,
    recurring: seq<JobId>,
    next: map<JobId, Time>,
    candidates: seq<Candidate>)

  /** The database once the due executions exist. */
  function Planned(db: Db, a: Answers, now: Time): Db
    requires forall i :: 0 <= i < |a.oneTime| ==> a.oneTime[i] in db.jobs
    requires forall i :: 0 <= i < |a.recurring| ==> a.recurring[i] in a.next
  {
    ScheduleRecurring(ScheduleOneTime(db, a.oneTime, now), a.recurring, a.next, now)
  }

  /** The answers of the two scheduling queries; a next run lies after `now`. */
  ghost predicate AnsweredDue(db: Db, a: Answers, now: Time, batchSize: nat)
    requires db.WellFormed()
  {
    && IsPage(OneTimeKeys(db, now), batchSize, a.oneTime)
    && (forall i :: 0 <= i < |a.oneTime| ==> a.oneTime[i] in db.jobs)
    && IsPage(RecurringKeys(ScheduleOneTime(db, a.oneTime, now), now), batchSize, a.recurring)
    && (forall i :: 0 <= i < |a.recurring| ==> a.recurring[i] in a.next)
    && (forall j :: j in a.next ==> now < a.next[j])
  }

  /** Those and the candidates (`PlannedOnlyAdds` shows the planned state is always well formed). */
  ghost predicate Answered(db: Db, a: Answers, now: Time, batchSize: nat)
    requires db.WellFormed()
  {
    && AnsweredDue(db, a, now, batchSize)
    && Planned(db, a, now).WellFormed()
    && IsCandidatePage(Planned(db, a, now), now, 5 * batchSize, a.candidates)
  }

  ghost function Chosen(db: Db, cs: seq<Candidate>, batchSize: nat): seq<ExecutionId>
    requires db.WellFormed()
  {
    Ids(cs, Greedy(cs, QueueLimits(db), ActiveCounts(db), batchSize, |cs|), |cs|)
  }

  /** How many of the chosen are retries. */
  ghost function ChosenRetries(db: Db, cs: seq<Candidate>, batchSize: nat): nat
    requires db.WellFormed()
  {
    Retries(cs, Greedy(cs, QueueLimits(db), ActiveCounts(db), batchSize, |cs|), |cs|)
  }

  function MarkQueued(db: Db, id: ExecutionId): Db {
    if id in db.executions && Dispatchable(db.executions[id].status)
    then db.WithRow(id, QueuedRow(db.executions[id])) else db
  }

  /** The execution of a one-time job: pending, and due when the job is to run. */
  function OneTimeRow(db: Db, j: JobId, now: Time): Execution
    requires j in db.jobs
  {
    var at := if db.jobs[j].runAt == None then now else db.jobs[j].runAt.value;
    Execution(j, Pending, 0, Some(at), None, None, at, None, None, [])
  }

  lemma {:induction false} OneTimeRows(db: Db, jobs: seq<JobId>, now: Time, i: nat)
    requires i < |jobs| && forall k :: 0 <= k < |jobs| ==> jobs[k] in db.jobs
    ensures var after := ScheduleOneTime(db, jobs, now);
            && after.nextExecutionId == db.nextExecutionId + |jobs|
            && HasRow(after, db.nextExecutionId + i, OneTimeRow(db, jobs[i], now))
    decreases |jobs|
  {
    var front := jobs[..|jobs| - 1];
    OneTimeCountsUp(db, front, now);
    if i < |front| {
      OneTimeRows(db, front, now, i);
    }
  }

  predicate HasRow(db: Db, e: ExecutionId, row: Execution) {
    e in db.executions && db.executions[e] == row
  }

  /** The loop gives every job of its list one such execution, in order. */
  lemma OneTimeAllRows(db: Db, jobs: seq<JobId>, now: Time)
    requires forall k :: 0 <= k < |jobs| ==> jobs[k] in db.jobs
    ensures forall i :: 0 <= i < |jobs| ==>
              HasRow(ScheduleOneTime(db, jobs, now), db.nextExecutionId + i, OneTimeRow(db, jobs[i], now))
  {
    hide OneTimeRow, ScheduleOneTime;
    forall i | 0 <= i < |jobs|
      ensures HasRow(ScheduleOneTime(db, jobs, now), db.nextExecutionId + i, OneTimeRow(db, jobs[i], now))
    {
      OneTimeRows(db, jobs, now, i);
    }
  }

  lemma {:induction false} OneTimeCountsUp(db: Db, jobs: seq<JobId>, now: Time)
    requires forall k :: 0 <= k < |jobs| ==> jobs[k] in db.jobs
    ensures ScheduleOneTime(db, jobs, now).nextExecutionId == db.nextExecutionId + |jobs|
    decreases |jobs|
  {
    if |jobs| > 0 {
      OneTimeCountsUp(db, jobs[..|jobs| - 1], now);
    }
  }

  // What planning does to the tables.

  /** `after` is `before` with some fresh pending executions of active jobs. */
  ghost predicate OnlyAdds(before: Db, after: Db) {
    && after.jobs == before.jobs && after.queues == before.queues
    && after.deadLetters == before.deadLetters && after.nextDeadLetterId == before.nextDeadLetterId
    && before.nextExecutionId <= after.nextExecutionId
    && (forall e :: e in before.executions ==> e in after.executions && after.executions[e] == before.executions[e])
    && (forall e :: e in after.executions && e !in before.executions ==>
          && before.nextExecutionId <= e
          && IsNew(after.executions[e]) && after.executions[e].jobId in after.jobs
          && after.jobs[after.executions[e].jobId].status == JobActive)
  }

  predicate IsNew(row: Execution) {
    row == NewExecution(row.jobId, row.scheduledFor)
  }

  lemma CreateOnlyAdds(before: Db, mid: Db, j: JobId, at: Time)
    requires before.WellFormed() && mid.WellFormed() && OnlyAdds(before, mid)
    requires j in mid.jobs && mid.jobs[j].status == JobActive
    ensures CreateExecution(mid, j, at).WellFormed() && OnlyAdds(before, CreateExecution(mid, j, at))
  {
    assert mid.nextExecutionId !in mid.executions;
    assert IsNew(NewExecution(j, at));
  }

  lemma {:induction false} OneTimeOnlyAdds(db: Db, jobs: seq<JobId>, now: Time)
    requires db.WellFormed()
    requires forall i :: 0 <= i < |jobs| ==> jobs[i] in db.jobs && db.jobs[jobs[i]].status == JobActive
    ensures var after := ScheduleOneTime(db, jobs, now);
            && after.WellFormed() && OnlyAdds(db, after) && after.schedules == db.schedules
            && after.nextExecutionId == db.nextExecutionId + |jobs|
    decreases |jobs|
  {
    if |jobs| > 0 {
      var front, last := jobs[..|jobs| - 1], jobs[|jobs| - 1];
      OneTimeOnlyAdds(db, front, now);
      CreateOnlyAdds(db, ScheduleOneTime(db, front, now), last, FirstRunAt(db.jobs[last], now));
    }
  }

  lemma FireOnlyAdds(before: Db, mid: Db, j: JobId, next: Time, now: Time)
    requires before.WellFormed() && mid.WellFormed() && OnlyAdds(before, mid)
    requires j in mid.jobs && mid.jobs[j].status == JobActive
    ensures var after := FireSchedule(mid, j, next, now);
            after.WellFormed() && OnlyAdds(before, after) && after.schedules.Keys == mid.schedules.Keys
  {
    if j in mid.schedules && mid.schedules[j].nextRunAt <= now {
      CreateOnlyAdds(before, mid, j, mid.schedules[j].nextRunAt);
    }
  }

  lemma {:induction false} RecurringOnlyAdds(db: Db, jobs: seq<JobId>, next: map<JobId, Time>, now: Time)
    requires db.WellFormed()
    requires forall i :: 0 <= i < |jobs| ==>
               jobs[i] in next && jobs[i] in db.jobs && db.jobs[jobs[i]].status == JobActive
    ensures var after := ScheduleRecurring(db, jobs, next, now);
            after.WellFormed() && OnlyAdds(db, after) && after.schedules.Keys == db.schedules.Keys
    decreases |jobs|
  {
    hide Db.WellFormed, FireSchedule, IsNew;
    if |jobs| > 0 {
      var front, last := jobs[..|jobs| - 1], jobs[|jobs| - 1];
      RecurringOnlyAdds(db, front, next, now);
      FireOnlyAdds(db, ScheduleRecurring(db, front, next, now), last, next[last], now);
    }
  }

  lemma OneTimePageIsDue(db: Db, now: Time, take: nat, jobs: seq<JobId>)
    requires IsPage(OneTimeKeys(db, now), take, jobs)
    ensures forall i :: 0 <= i < |jobs| ==> jobs[i] in db.jobs && OneTimeDue(db, jobs[i], now)
  {
    forall i | 0 <= i < |jobs| ensures jobs[i] in db.jobs && OneTimeDue(db, jobs[i], now) {
      assert jobs[i] in OneTimeKeys(db, now);
    }
  }

  lemma RecurringPageIsDue(db: Db, now: Time, take: nat, jobs: seq<JobId>)
    requires IsPage(RecurringKeys(db, now), take, jobs)
    ensures forall i :: 0 <= i < |jobs| ==> RecurringDue(db, jobs[i], now)
  {
    forall i | 0 <= i < |jobs| ensures RecurringDue(db, jobs[i], now) {
      assert jobs[i] in RecurringKeys(db, now);
    }
  }

  lemma PlannedOnlyAdds(db: Db, a: Answers, now: Time, batchSize: nat)
    requires db.WellFormed() && AnsweredDue(db, a, now, batchSize)
    ensures Planned(db, a, now).WellFormed() && OnlyAdds(db, Planned(db, a, now))
    ensures Planned(db, a, now).schedules.Keys == db.schedules.Keys
  {
    var mid := ScheduleOneTime(db, a.oneTime, now);
    OneTimePageIsDue(db, now, batchSize, a.oneTime);
    OneTimeOnlyAdds(db, a.oneTime, now);
    RecurringPageIsDue(mid, now, batchSize, a.recurring);
    RecurringOnlyAdds(mid, a.recurring, a.next, now);
  }

  /** What makes an execution dispatchable at `now`. */
  predicate Ready(db: Db, e: ExecutionId, now: Time)
    requires db.WellFormed()
  {
    && e in db.executions
    && var row, job := db.executions[e], db.JobOf(e);
       && (row.status == Pending || row.status == RetryScheduled || row.status == Stalled)
       && row.nextAttemptAt.Some? && row.nextAttemptAt.value <= now
       && job.status == JobActive && db.queues[job.queueId].status == QueueActive
  }

  /** `x` comes no later than `y`: its queue has the higher priority, or the same and `x` is due no
      later. */
  predicate Precedes(db: Db, x: ExecutionId, y: ExecutionId)
    requires db.WellFormed()
  {
    && x in db.executions && y in db.executions
    && db.executions[x].nextAttemptAt.Some? && db.executions[y].nextAttemptAt.Some?
    && var mine, theirs := db.queues[db.JobOf(x).queueId].priority, db.queues[db.JobOf(y).queueId].priority;
       || mine > theirs
       || (mine == theirs && db.executions[x].nextAttemptAt.value <= db.executions[y].nextAttemptAt.value)
  }

  /** The window holds exactly ready executions, in that order, and precedes all it leaves out. */
  lemma WindowInOrder(db: Db, now: Time, take: nat, cs: seq<Candidate>)
    requires db.WellFormed() && IsCandidatePage(db, now, take, cs)
    ensures forall i :: 0 <= i < |cs| ==> Ready(db, cs[i].id, now)
    ensures forall i, j :: 0 <= i < j < |cs| ==> Precedes(db, cs[i].id, cs[j].id)
    ensures forall e: ExecutionId :: Ready(db, e, now) && (forall i :: 0 <= i < |cs| ==> cs[i].id != e) ==>
              |cs| == take && forall i :: 0 <= i < |cs| ==> Precedes(db, cs[i].id, e)
  {
    var ids := seq(|cs|, i requires 0 <= i < |cs| => cs[i].id);
    var keys := CandidateKeys(db, now);
    assert forall i :: 0 <= i < |cs| ==> ids[i] == cs[i].id && ids[i] in keys;
    forall i, j | 0 <= i < j < |cs|
      ensures Precedes(db, cs[i].id, cs[j].id)
    {
      assert keys[ids[i]].AtMost(keys[ids[j]]);
    }
    forall e: ExecutionId | Ready(db, e, now) && (forall i :: 0 <= i < |cs| ==> cs[i].id != e)
      ensures |cs| == take && forall i :: 0 <= i < |cs| ==> Precedes(db, cs[i].id, e)
    {
      assert e in keys && e !in ids;
      WindowIsFull(keys, take, ids, e);
      forall i | 0 <= i < |cs|
        ensures Precedes(db, cs[i].id, e)
      {
        assert keys[ids[i]].AtMost(keys[e]);
      }
    }
  }

  /** Only ready executions are dispatched. */
  lemma ChosenAreReady(db: Db, now: Time, batchSize: nat, cs: seq<Candidate>, e: ExecutionId)
    requires db.WellFormed() && IsCandidatePage(db, now, 5 * batchSize, cs) && e in Chosen(db, cs, batchSize)
    ensures Ready(db, e, now)
  {
    hide QueueLimits, ActiveCounts, Greedy, Ready, Precedes, IsCandidatePage;
    WindowInOrder(db, now, 5 * batchSize, cs);
    var sel := Greedy(cs, QueueLimits(db), ActiveCounts(db), batchSize, |cs|);
    var i :| 0 <= i < |cs| && i in sel && cs[i].id == e;
  }

  /** What is chosen is ready, in the order of the window. */
  lemma {:induction false} ChosenInOrder(db: Db, now: Time, take: nat, cs: seq<Candidate>, sel: set<nat>, p: nat)
    requires db.WellFormed() && IsCandidatePage(db, now, take, cs) && p <= |cs|
    ensures forall i :: 0 <= i < |Ids(cs, sel, p)| ==> Ready(db, Ids(cs, sel, p)[i], now)
    ensures forall i, j :: 0 <= i < j < |Ids(cs, sel, p)| ==> Precedes(db, Ids(cs, sel, p)[i], Ids(cs, sel, p)[j])
    decreases p
  {
    hide Db.WellFormed, Ready, Precedes, IsCandidatePage;
    if p > 0 {
      ChosenInOrder(db, now, take, cs, sel, p - 1);
      WindowInOrder(db, now, take, cs);
      var ids := Ids(cs, sel, p - 1);
      if p - 1 in sel {
        forall i | 0 <= i < |ids|
          ensures Precedes(db, ids[i], cs[p - 1].id)
        {
          assert ids[i] in ids;
          var x :| 0 <= x < p - 1 && x in sel && cs[x].id == ids[i];
        }
      }
    }
  }

  lemma ChosenAllInOrder(db: Db, now: Time, batchSize: nat, cs: seq<Candidate>)
    requires db.WellFormed() && IsCandidatePage(db, now, 5 * batchSize, cs)
    ensures var ids := Chosen(db, cs, batchSize);
            && (forall i :: 0 <= i < |ids| ==> Ready(db, ids[i], now))
            && (forall i, j :: 0 <= i < j < |ids| ==> Precedes(db, ids[i], ids[j]))
  {
    ChosenInOrder(db, now, 5 * batchSize, cs, Greedy(cs, QueueLimits(db), ActiveCounts(db), batchSize, |cs|), |cs|);
  }

  /** The queue of `e` ends the run with as many queued, running and chosen executions as it admits. */
  ghost predicate Saturated(db: Db, cs: seq<Candidate>, batchSize: nat, e: ExecutionId)
    requires db.WellFormed() && e in db.executions
  {
    var sel := Greedy(cs, QueueLimits(db), ActiveCounts(db), batchSize, |cs|);
    var q := db.JobOf(e).queueId;
    var active := set x | x in db.executions && db.JobOf(x).queueId == q
                          && (db.executions[x].status == Queued || db.executions[x].status == Running);
    |active| + TakenIn(cs, sel, q, |cs|) >= db.queues[q].concurrencyLimit
  }

  /** `e` lies behind a full window of candidates that come before it. */
  ghost predicate BehindWindow(db: Db, cs: seq<Candidate>, batchSize: nat, e: ExecutionId)
    requires db.WellFormed()
  {
    && |cs| == 5 * batchSize
    && forall i :: 0 <= i < |cs| ==> Precedes(db, cs[i].id, e)
  }

  /** A ready execution is left waiting only if the batch is full, its queue is saturated, or it is
      behind the window. */
  lemma LeftWaitingForAReason(db: Db, now: Time, batchSize: nat, cs: seq<Candidate>, e: ExecutionId)
    requires db.WellFormed() && IsCandidatePage(db, now, 5 * batchSize, cs) && Ready(db, e, now)
    requires e !in Chosen(db, cs, batchSize)
    ensures |Chosen(db, cs, batchSize)| == batchSize || Saturated(db, cs, batchSize, e)
            || BehindWindow(db, cs, batchSize, e)
  {
    hide QueueLimits, ActiveCounts, Greedy, Precedes;
    var sel := Greedy(cs, QueueLimits(db), ActiveCounts(db), batchSize, |cs|);
    if i :| 0 <= i < |cs| && cs[i].id == e {
      assert cs[i].queueId == db.JobOf(cs[i].id).queueId;
      assert i !in sel;
      SkippedForAReason(cs, QueueLimits(db), ActiveCounts(db), batchSize, i);
      CapacityMeans(db, db.JobOf(e).queueId);
    } else {
      WindowInOrder(db, now, 5 * batchSize, cs);
    }
  }

  /** What an active queue may still take. */
  lemma CapacityMeans(db: Db, q: QueueId)
    requires db.WellFormed() && q in db.queues && db.queues[q].status == QueueActive
    ensures var active := set x | x in db.executions && db.JobOf(x).queueId == q
                                  && (db.executions[x].status == Queued || db.executions[x].status == Running);
            var capacity := Capacity(QueueLimits(db), ActiveCounts(db), q);
            |active| + capacity >= db.queues[q].concurrencyLimit
            && (capacity > 0 ==> |active| + capacity == db.queues[q].concurrencyLimit)
  {
    assert ActiveIn(db, q) == set x | x in db.executions && db.JobOf(x).queueId == q
                                      && (db.executions[x].status == Queued || db.executions[x].status == Running);
  }

  /** A paused queue takes nothing. */
  lemma PausedTakesNothing(db: Db, q: QueueId)
    requires db.WellFormed() && (q in db.queues ==> db.queues[q].status == QueuePaused)
    ensures Capacity(QueueLimits(db), ActiveCounts(db), q) == 0
  {
  }

  // What the two scheduling queries pick.

  /** An active one-time job whose time has come and which has no execution. */
  predicate Unscheduled(db: Db, j: JobId, now: Time) {
    && j in db.jobs && db.jobs[j].jobType == OneTime && db.jobs[j].status == JobActive
    && db.jobs[j].runAt.Some? && db.jobs[j].runAt.value <= now
    && forall e :: e in db.executions ==> db.executions[e].jobId != j
  }

  /** The one-time page holds such jobs only, the earliest first, and leaves one out only when full. */
  lemma OneTimePageMeans(db: Db, now: Time, take: nat, jobs: seq<JobId>)
    requires IsPage(OneTimeKeys(db, now), take, jobs)
    ensures forall i :: 0 <= i < |jobs| ==> Unscheduled(db, jobs[i], now)
    ensures forall i, k :: 0 <= i < k < |jobs| ==> db.jobs[jobs[i]].runAt.value <= db.jobs[jobs[k]].runAt.value
    ensures forall j :: Unscheduled(db, j, now) && j !in jobs ==>
              |jobs| == take && forall i :: 0 <= i < |jobs| ==> db.jobs[jobs[i]].runAt.value <= db.jobs[j].runAt.value
  {
    var keys := OneTimeKeys(db, now);
    assert forall i :: 0 <= i < |jobs| ==> jobs[i] in keys;
    forall i, k | 0 <= i < k < |jobs|
      ensures db.jobs[jobs[i]].runAt.value <= db.jobs[jobs[k]].runAt.value
    {
      assert keys[jobs[i]].AtMost(keys[jobs[k]]);
    }
    forall j | Unscheduled(db, j, now) && j !in jobs
      ensures |jobs| == take && forall i :: 0 <= i < |jobs| ==> db.jobs[jobs[i]].runAt.value <= db.jobs[j].runAt.value
    {
      assert j in keys;
      WindowIsFull(keys, take, jobs, j);
      assert forall i :: 0 <= i < |jobs| ==> keys[jobs[i]].AtMost(keys[j]);
    }
  }

  /** A schedule of an active recurring job whose next run has come. */
  predicate Unfired(db: Db, j: JobId, now: Time) {
    && j in db.schedules && db.schedules[j].nextRunAt <= now
    && j in db.jobs && db.jobs[j].status == JobActive && db.jobs[j].jobType == Recurring
  }

  /** Likewise the recurring page. */
  lemma RecurringPageMeans(db: Db, now: Time, take: nat, jobs: seq<JobId>)
    requires IsPage(RecurringKeys(db, now), take, jobs)
    ensures forall i :: 0 <= i < |jobs| ==> Unfired(db, jobs[i], now)
    ensures forall i, k :: 0 <= i < k < |jobs| ==> db.schedules[jobs[i]].nextRunAt <= db.schedules[jobs[k]].nextRunAt
    ensures forall j :: Unfired(db, j, now) && j !in jobs ==>
              && |jobs| == take
              && forall i :: 0 <= i < |jobs| ==> db.schedules[jobs[i]].nextRunAt <= db.schedules[j].nextRunAt
  {
    var keys := RecurringKeys(db, now);
    assert forall i :: 0 <= i < |jobs| ==> jobs[i] in keys;
    forall i, k | 0 <= i < k < |jobs|
      ensures db.schedules[jobs[i]].nextRunAt <= db.schedules[jobs[k]].nextRunAt
    {
      assert keys[jobs[i]].AtMost(keys[jobs[k]]);
    }
    forall j | Unfired(db, j, now) && j !in jobs
      ensures |jobs| == take
      ensures forall i :: 0 <= i < |jobs| ==> db.schedules[jobs[i]].nextRunAt <= db.schedules[j].nextRunAt
    {
      assert j in keys;
      WindowIsFull(keys, take, jobs, j);
      assert forall i :: 0 <= i < |jobs| ==> keys[jobs[i]].AtMost(keys[j]);
    }
  }

  lemma DueAnswersExist(db: Db, now: Time, batchSize: nat) returns (a: Answers)
    requires db.WellFormed()
    ensures AnsweredDue(db, a, now, batchSize)
  {
    hide Db.WellFormed, IsPage, OneTimeKeys, RecurringKeys;
    var oneTime := PageExists(OneTimeKeys(db, now), batchSize);
    OneTimePageIsDue(db, now, batchSize, oneTime);
    var mid := ScheduleOneTime(db, oneTime, now);
    var recurring := PageExists(RecurringKeys(mid, now), batchSize);
    var next := map j | j in Elements(recurring) :: now + 1;
    a := Answers(oneTime, recurring, next, []);
  }

  /** A planning transaction can run in every state: its queries have answers. */
  lemma AnswersExist(db: Db, now: Time, batchSize: nat) returns (a: Answers)
    requires db.WellFormed()
    ensures Answered(db, a, now, batchSize)
  {
    hide Db.WellFormed, IsPage, IsCandidatePage, OneTimeKeys, RecurringKeys;
    a := DueAnswersExist(db, now, batchSize);
    PlannedOnlyAdds(db, a, now, batchSize);
    var planned := Planned(db, a, now);
    var ids := PageExists(CandidateKeys(planned, now), 5 * batchSize);
    var candidates := CandidatesOf(planned, now, 5 * batchSize, ids);
    a := a.(candidates := candidates);
    assert Planned(db, a, now) == planned;
  }

  lemma CandidatesOf(db: Db, now: Time, take: nat, ids: seq<ExecutionId>) returns (cs: seq<Candidate>)
    requires db.WellFormed() && IsPage(CandidateKeys(db, now), take, ids)
    ensures IsCandidatePage(db, now, take, cs)
  {
    assert forall i :: 0 <= i < |ids| ==> ids[i] in CandidateKeys(db, now);
    cs := seq(|ids|, i requires 0 <= i < |ids| =>
                Candidate(ids[i], db.JobOf(ids[i]).queueId, db.executions[ids[i]].status));
    assert seq(|cs|, i requires 0 <= i < |cs| => cs[i].id) == ids;
  }

  // The methods.

  datatype Stats = Stats(
    lockAcquired: bool,
    skipped: bool,
    oneTimeQueued: nat,
    recurringQueued: nat,
    retriesQueued: nat,
    pendingQueued: nat)

  method ScheduleDueOneTimeJobs(store: Store, now: Time, jobs: seq<JobId>) returns (executionIds: seq<ExecutionId>)
    requires store.Valid()
    requires forall i :: 0 <= i < |jobs| ==> jobs[i] in store.jobs && store.jobs[jobs[i]].status == JobActive
    modifies store
    ensures store.Valid() && store.Snapshot() == ScheduleOneTime(old(store.Snapshot()), jobs, now)
    ensures |executionIds| == |jobs|
    ensures forall i :: 0 <= i < |jobs| ==> executionIds[i] == old(store.nextExecutionId) + i
  {
    ghost var start := store.Snapshot();
    executionIds := [];
    for i := 0 to |jobs|
      invariant store.Valid() && |executionIds| == i
      invariant store.Snapshot() == ScheduleOneTime(start, jobs[..i], now)
      invariant store.nextExecutionId == old(store.nextExecutionId) + i
      invariant forall k :: 0 <= k < i ==> executionIds[k] == old(store.nextExecutionId) + k
    {
      assert jobs[..i + 1][..i] == jobs[..i];
      var job := store.jobs[jobs[i]];
      var id := store.InsertExecution(jobs[i], if job.runAt.Some? then job.runAt.value else now);
      executionIds := executionIds + [id];
    }
    assert jobs[..|jobs|] == jobs;
  }

  method ScheduleDueRecurringJobs(store: Store, now: Time, jobs: seq<JobId>, next: map<JobId, Time>)
    returns (executionIds: seq<ExecutionId>)
    requires store.Valid()
    requires forall i :: 0 <= i < |jobs| ==> jobs[i] in next && jobs[i] in store.jobs
    modifies store
    ensures store.Valid() && store.Snapshot() == ScheduleRecurring(old(store.Snapshot()), jobs, next, now)
    ensures |executionIds| == store.nextExecutionId - old(store.nextExecutionId) <= |jobs|
  {
    ghost var start := store.Snapshot();
    executionIds := [];
    for i := 0 to |jobs|
      invariant store.Valid() && store.jobs == start.jobs
      invariant store.Snapshot() == ScheduleRecurring(start, jobs[..i], next, now)
      invariant |executionIds| == store.nextExecutionId - start.nextExecutionId <= i
    {
      assert jobs[..i + 1][..i] == jobs[..i];
      var j := jobs[i];
      if j !in store.schedules || store.schedules[j].nextRunAt > now {
        continue;
      }
      var id := Fire(store, j, next[j], now);
      executionIds := executionIds + [id];
    }
    assert jobs[..|jobs|] == jobs;
  }

  /** The turn of a schedule that is still due when it is read again. */
  method Fire(store: Store, j: JobId, next: Time, now: Time) returns (id: ExecutionId)
    requires store.Valid() && j in store.jobs && j in store.schedules && store.schedules[j].nextRunAt <= now
    modifies store
    ensures store.Valid() && store.Snapshot() == FireSchedule(old(store.Snapshot()), j, next, now)
    ensures id == old(store.nextExecutionId) && store.nextExecutionId == id + 1
  {
    var lockedSchedule := store.schedules[j];
    id := store.InsertExecution(j, lockedSchedule.nextRunAt);
    store.schedules := store.schedules[j := Schedule(next, Some(lockedSchedule.nextRunAt))];
  }

  /** The transaction of `runSchedulerOnce`. */
  method PlanOnce(store: Store, now: Time, batchSize: nat, lockAcquired: bool, a: Answers)
    returns (stats: Stats, executionIds: seq<ExecutionId>)
    requires store.Valid() && Answered(store.Snapshot(), a, now, batchSize)
    modifies store
    ensures store.Valid()
    ensures !lockAcquired ==> store.Snapshot() == old(store.Snapshot()) && executionIds == [] && stats.skipped
    ensures lockAcquired ==>
              && store.Snapshot() == Planned(old(store.Snapshot()), a, now)
              && executionIds == Chosen(store.Snapshot(), a.candidates, batchSize)
              && stats.retriesQueued + stats.pendingQueued == |executionIds|
              && stats.retriesQueued == ChosenRetries(store.Snapshot(), a.candidates, batchSize)
              && stats.oneTimeQueued == |a.oneTime|
              && stats.oneTimeQueued + stats.recurringQueued == store.nextExecutionId - old(store.nextExecutionId)
              && (forall i :: 0 <= i < |executionIds| ==> Ready(store.Snapshot(), executionIds[i], now))
              && (forall i, j :: 0 <= i < j < |executionIds| ==>
                    Precedes(store.Snapshot(), executionIds[i], executionIds[j]))
  {
    if !lockAcquired {
      return Stats(false, true, 0, 0, 0, 0), [];
    }
    ghost var start := store.Snapshot();
    OneTimePageIsDue(start, now, batchSize, a.oneTime);
    OneTimeOnlyAdds(start, a.oneTime, now);
    var oneTimeIds := ScheduleDueOneTimeJobs(store, now, a.oneTime);
    RecurringPageIsDue(store.Snapshot(), now, batchSize, a.recurring);
    var recurringIds := ScheduleDueRecurringJobs(store, now, a.recurring, a.next);
    var retries, pending;
    executionIds, retries, pending := DispatchDue(store, a.candidates, batchSize);
    ChosenAllInOrder(store.Snapshot(), now, batchSize, a.candidates);
    return Stats(true, false, |oneTimeIds|, |recurringIds|, retries, pending), executionIds;
  }

  /** The limits, the counts and the loop. */
  method DispatchDue(store: Store, candidates: seq<Candidate>, limit: nat)
    returns (executionIds: seq<ExecutionId>, retries: nat, pending: nat)
    requires store.Valid()
    ensures executionIds == Chosen(store.Snapshot(), candidates, limit)
    ensures retries + pending == |executionIds|
    ensures retries == ChosenRetries(store.Snapshot(), candidates, limit)
  {
    var limits := map q | q in store.queues && store.queues[q].status == QueueActive ::
      store.queues[q].concurrencyLimit;
    assert limits == QueueLimits(store.Snapshot());
    var counts := CountActive(store);
    executionIds, retries, pending := GetDispatchableExecutions(limits, counts, candidates, limit);
  }

  /** The grouped count of queued and running executions. */
  method CountActive(store: Store) returns (counts: map<QueueId, nat>)
    requires store.Valid()
    ensures counts == ActiveCounts(store.Snapshot())
  {
    counts := map q | q in store.queues ::
      |set e | e in store.executions && Active(store.executions[e].status)
               && store.jobs[store.executions[e].jobId].queueId == q|;
    forall q | q in store.queues
      ensures counts[q] == |ActiveIn(store.Snapshot(), q)|
    {
      assert (set e | e in store.executions && Active(store.executions[e].status)
                      && store.jobs[store.executions[e].jobId].queueId == q) == ActiveIn(store.Snapshot(), q);
    }
  }

  /** The update that follows a publish. */
  method Mark(store: Store, id: ExecutionId)
    requires store.Valid()
    modifies store
    ensures store.Valid() && store.Snapshot() == MarkQueued(old(store.Snapshot()), id)
    ensures id in old(store.executions) ==>
              && id in store.executions
              && var row := old(store.executions)[id];
                 store.executions[id]
                 == if row.status == Pending || row.status == RetryScheduled || row.status == Stalled
                    then row.(status := Queued) else row
  {
    if id in store.executions && Dispatchable(store.executions[id].status) {
      store.UpdateRow(id, store.executions[id].(status := Queued));
    }
  }
}
