/** backend/execution-service/src/index.ts: the stalled-execution recovery pass. */
module Recovery {
  import opened Schema
  import opened RecoveryPlan
  import opened Attempts
  import opened Database
  import Worker

  /** The runnable executions whose job is deleted. */
  function OfDeletedJobs(executions: map<ExecutionId, Execution>, jobs: map<JobId, Job>): set<ExecutionId>
    requires forall e :: e in executions ==> executions[e].jobId in jobs
  {
    set e | e in executions && Runnable(executions[e].status) && jobs[executions[e].jobId].status == JobDeleted
  }

  /** `cancelDeletedJobRunnableExecutions`. */
  function SweepDeleted(db: Db, now: Time): (swept: Db)
    requires db.WellFormed()
    ensures swept.WellFormed() && swept.executions.Keys == db.executions.Keys && swept.jobs == db.jobs
  {
    db.(executions := SweepRows(db.executions, OfDeletedJobs(db.executions, db.jobs), now))
  }

  predicate Stale(db: Db, id: ExecutionId, staleBefore: Time) {
    id in db.executions && db.executions[id].status == Running && IsExecutionStale(db.executions[id], staleBefore)
  }

  /** What the recovery query selects, with the key it orders by. */
  function StaleKeys(db: Db, staleBefore: Time): map<ExecutionId, SortKey> {
    map e | e in db.executions && Stale(db, e, staleBefore) :: SortKey(db.executions[e].lastHeartbeatAt.value, 0)
  }

  function StaleIds(db: Db, staleBefore: Time): set<ExecutionId> {
    set e | e in db.executions && Stale(db, e, staleBefore)
  }

  datatype Disposition = Skipped | DeletedCanceled | Rescheduled | GaveUp

  function PatchFor(row: Execution, job: Job, now: Time): Patch {
    RecoveryPatch(row.attemptCount, LatestNumber(row.attempts), job, now)
  }

  function DispositionOf(db: Db, id: ExecutionId, now: Time, staleBefore: Time): Disposition
    requires db.WellFormed()
  {
    if !Stale(db, id, staleBefore) then Skipped
    else if db.JobOf(id).status == JobDeleted then DeletedCanceled
    else if PatchFor(db.executions[id], db.JobOf(id), now).status == RetryScheduled then Rescheduled
    else GaveUp
  }

  /** What recovery writes over an execution it read as held by `holder`. */
  function RecoveredFrom(row: Execution, job: Job, holder: Option<WorkerId>, now: Time): Execution {
    if job.status == JobDeleted then CanceledRow(row, now)
    else Ended(row, PatchFor(row, job, now), holder, AttemptFailed, now)
  }

  /** What recovery makes of a stale execution. */
  function RecoveredRow(row: Execution, job: Job, now: Time): Execution {
    RecoveredFrom(row, job, row.lockedByWorkerId, now)
  }

  /** The update of one row's transaction, which read the row held by `holder` and the job with the
      status `seen`. It looks the row up by id only. */
  function RecoverCommit(db: Db, id: ExecutionId, seen: JobStatus, holder: Option<WorkerId>, now: Time): (recovered: Db)
    requires db.WellFormed()
    ensures recovered.WellFormed() && recovered.executions.Keys == db.executions.Keys && recovered.jobs == db.jobs
  {
    if id in db.executions
    then db.WithRow(id, RecoveredFrom(db.executions[id], db.JobOf(id).Seen(seen), holder, now)) else db
  }

  function RecoverOne(db: Db, id: ExecutionId, now: Time, staleBefore: Time): (recovered: Db)
    requires db.WellFormed()
    ensures recovered.WellFormed() && recovered.executions.Keys == db.executions.Keys && recovered.jobs == db.jobs
  {
    if Stale(db, id, staleBefore)
    then RecoverCommit(db, id, db.JobOf(id).status, db.executions[id].lockedByWorkerId, now) else db
  }

  /** The transactions of one pass, in order. */
  function RecoverAll(db: Db, ids: seq<ExecutionId>, now: Time, staleBefore: Time): (recovered: Db)
    requires db.WellFormed()
    ensures recovered.WellFormed() && recovered.executions.Keys == db.executions.Keys && recovered.jobs == db.jobs
    decreases |ids|
  {
    if |ids| == 0 then db
    else RecoverOne(RecoverAll(db, ids[..|ids| - 1], now, staleBefore), ids[|ids| - 1], now, staleBefore)
  }

  /** How many of the rows of a pass were handled in a given way. */
  function Tally(db: Db, ids: seq<ExecutionId>, now: Time, staleBefore: Time, how: Disposition): nat
    requires db.WellFormed()
    decreases |ids|
  {
    if |ids| == 0 then 0
    else
      Tally(db, ids[..|ids| - 1], now, staleBefore, how)
      + if DispositionOf(db, ids[|ids| - 1], now, staleBefore) == how then 1 else 0
  }

  datatype Stats = Stats(
    scanned: nat,
    retryScheduled: nat,
    failed: nat,
    deletedJobCanceled: nat,
    deletedJobRunningCanceled: nat)

  method RecoverTransaction(store: Store, id: ExecutionId, now: Time, staleBefore: Time)
    returns (how: Disposition)
    requires store.Valid()
    modifies store
    ensures store.Valid()
    ensures how == DispositionOf(old(store.Snapshot()), id, now, staleBefore)
    ensures store.Snapshot() == RecoverOne(old(store.Snapshot()), id, now, staleBefore)
    ensures how != Skipped <==>
              && id in old(store.executions) && old(store.executions)[id].status == Running
              && old(store.executions)[id].lastHeartbeatAt.Some?
              && old(store.executions)[id].lastHeartbeatAt.value < staleBefore
    ensures how == Skipped ==> store.Snapshot() == old(store.Snapshot())
    ensures how != Skipped ==>
              var row := old(store.executions)[id];
              var job := old(store.jobs)[row.jobId];
              var next := store.executions[id];
              && (how == DeletedCanceled <==> job.status == JobDeleted)
              && (how == DeletedCanceled ==>
                    next == row.(status := Canceled, nextAttemptAt := None, lockedByWorkerId := None,
                                 finishedAt := Some(now)))
              && (how != DeletedCanceled ==>
                    && AttemptEnds(row, next, job.Seen(JobActive), row.lockedByWorkerId, AttemptFailed, now)
                    && (how == Rescheduled <==> next.status == RetryScheduled))
              && store.deadLetters == old(store.deadLetters)
  {
    if id !in store.executions {
      return Skipped;
    }
    var current := store.executions[id];
    if current.status != Running || !IsExecutionStale(current, staleBefore) {
      return Skipped;
    }
    if store.jobs[current.jobId].status == JobDeleted {
      store.UpdateRow(id, current.(status := Canceled, nextAttemptAt := None, lockedByWorkerId := None,
                                   finishedAt := Some(now)));
      return DeletedCanceled;
    }
    RecoveryEndsAttempt(current, store.jobs[current.jobId], current.lockedByWorkerId, now);
    var recovery := PlanStalledExecutionRecovery(Max(current.attemptCount, LatestNumber(current.attempts)),
                                                 store.jobs[current.jobId], now);
    var log := current.attempts + [Attempt(recovery.attemptNumber, current.lockedByWorkerId, AttemptFailed, now)];
    store.UpdateRow(id, current.(attemptCount := recovery.attemptNumber, status := recovery.status,
                                 nextAttemptAt := recovery.nextAttemptAt, lockedByWorkerId := None,
                                 finishedAt := recovery.finishedAt, attempts := log));
    return if recovery.retryable then Rescheduled else GaveUp;
  }

  /** An uninterrupted pass; `picked` is the answer of its query. */
  method RecoverStalledExecutions(store: Store, now: Time, stalledAfterMs: int, batchSize: nat,
                                  picked: seq<ExecutionId>)
    returns (stats: Stats)
    requires store.Valid()
    requires IsPage(StaleKeys(store.Snapshot(), CalculateStaleBefore(now, stalledAfterMs)), batchSize, picked)
    modifies store
    ensures store.Valid()
    ensures store.Snapshot()
         == RecoverAll(SweepDeleted(old(store.Snapshot()), now), picked, now, CalculateStaleBefore(now, stalledAfterMs))
    ensures stats.scanned == |picked| == stats.retryScheduled + stats.failed + stats.deletedJobRunningCanceled
    ensures StatsMatch(SweepDeleted(old(store.Snapshot()), now), picked, now,
                       CalculateStaleBefore(now, stalledAfterMs), stats)
    ensures stats.deletedJobCanceled == |OfDeletedJobs(old(store.executions), old(store.jobs))|
    ensures forall e :: e in old(store.executions) ==>
              && e in store.executions
              && var row := old(store.executions)[e];
                 && (e in picked ==> Overdue(row, now, stalledAfterMs) && store.executions[e].status != Running)
                 && (row.status == Running && e !in picked ==> store.executions[e] == row)
  {
    ghost var start := store.Snapshot();
    ghost var recovered :=
      RecoverAll(SweepDeleted(start, now), picked, now, CalculateStaleBefore(now, stalledAfterMs));
    forall e | e in start.executions
      ensures var row, next := start.executions[e], recovered.executions[e];
              && (e in picked ==> Overdue(row, now, stalledAfterMs) && next.status != Running)
              && (row.status == Running && e !in picked ==> next == row)
    {
      PassRecoversOverdue(start, now, stalledAfterMs, batchSize, picked, e);
    }
    var deletedJobCanceled := CancelDeletedJobRunnableExecutions(store, now);
    var staleBefore := CalculateStaleBefore(now, stalledAfterMs);
    PageIsStale(old(store.Snapshot()), now, staleBefore, batchSize, picked);
    stats := RecoverBatch(store, now, staleBefore, picked, deletedJobCanceled);
  }

  method CancelDeletedJobRunnableExecutions(store: Store, now: Time) returns (count: nat)
    requires store.Valid()
    modifies store
    ensures store.Valid() && store.Snapshot() == SweepDeleted(old(store.Snapshot()), now)
    ensures count == |OfDeletedJobs(old(store.executions), old(store.jobs))|
    ensures forall e :: e in old(store.executions) ==>
              && e in store.executions
              && var row := old(store.executions)[e];
                 store.executions[e]
                 == if old(store.jobs)[row.jobId].status == JobDeleted
                       && (row.status == Pending || row.status == Queued || row.status == RetryScheduled
                           || row.status == Stalled)
                    then row.(status := Canceled, nextAttemptAt := None, lockedByWorkerId := None,
                              lastHeartbeatAt := None, finishedAt := Some(now))
                    else row
    ensures count == |set e | e in old(store.executions) && store.executions[e] != old(store.executions)[e]|
  {
    var selected := OfDeletedJobs(store.executions, store.jobs);
    store.executions := SweepRows(store.executions, selected, now);
    assert selected == set e | e in old(store.executions) && store.executions[e] != old(store.executions)[e];
    return |selected|;
  }

  /** The counters of a pass say how many of its rows went which way. */
  ghost predicate StatsMatch(db: Db, ids: seq<ExecutionId>, now: Time, staleBefore: Time, stats: Stats)
    requires db.WellFormed()
  {
    && stats.scanned == |ids|
    && stats.retryScheduled == Tally(db, ids, now, staleBefore, Rescheduled)
    && stats.failed == Tally(db, ids, now, staleBefore, GaveUp)
    && stats.deletedJobRunningCanceled == Tally(db, ids, now, staleBefore, DeletedCanceled)
  }

  method RecoverBatch(store: Store, now: Time, staleBefore: Time, picked: seq<ExecutionId>, deletedJobCanceled: nat)
    returns (stats: Stats)
    requires store.Valid() && DistinctStale(store.Snapshot(), picked, staleBefore)
    modifies store
    ensures store.Valid()
    ensures store.Snapshot() == RecoverAll(old(store.Snapshot()), picked, now, staleBefore)
    ensures stats.scanned == stats.retryScheduled + stats.failed + stats.deletedJobRunningCanceled
    ensures StatsMatch(old(store.Snapshot()), picked, now, staleBefore, stats)
    ensures stats.deletedJobCanceled == deletedJobCanceled
  {
    hide AttemptEnds;
    ghost var start := store.Snapshot();
    var retryScheduled, failed, deletedJobRunningCanceled := 0, 0, 0;
    for i := 0 to |picked|
      invariant store.Valid()
      invariant store.Snapshot() == RecoverAll(start, picked[..i], now, staleBefore)
      invariant StatsMatch(start, picked[..i], now, staleBefore,
                           Stats(i, retryScheduled, failed, deletedJobCanceled, deletedJobRunningCanceled))
      invariant retryScheduled + failed + deletedJobRunningCanceled == i
    {
      PassExtends(start, picked, i, now, staleBefore);
      var how := RecoverTransaction(store, picked[i], now, staleBefore);
      if how == Rescheduled {
        retryScheduled := retryScheduled + 1;
      } else if how == GaveUp {
        failed := failed + 1;
      } else if how == DeletedCanceled {
        deletedJobRunningCanceled := deletedJobRunningCanceled + 1;
      }
    }
    assert picked[..|picked|] == picked;
    return Stats(|picked|, retryScheduled, failed, deletedJobCanceled, deletedJobRunningCanceled);
  }

  lemma PassExtends(db: Db, ids: seq<ExecutionId>, i: nat, now: Time, staleBefore: Time)
    requires db.WellFormed() && i < |ids| && DistinctStale(db, ids, staleBefore)
    ensures var turn := RecoverAll(db, ids[..i], now, staleBefore);
            && RecoverAll(db, ids[..i + 1], now, staleBefore) == RecoverOne(turn, ids[i], now, staleBefore)
            && DispositionOf(turn, ids[i], now, staleBefore) == DispositionOf(db, ids[i], now, staleBefore) != Skipped
    ensures forall how :: Tally(db, ids[..i + 1], now, staleBefore, how)
                          == Tally(db, ids[..i], now, staleBefore, how)
                             + if DispositionOf(db, ids[i], now, staleBefore) == how then 1 else 0
  {
    var next := ids[..i + 1];
    assert next[..|next| - 1] == ids[..i] && next[|next| - 1] == ids[i];
    var turn := RecoverAll(db, ids[..i], now, staleBefore);
    assert DispositionOf(turn, ids[i], now, staleBefore) == DispositionOf(db, ids[i], now, staleBefore) != Skipped by {
      DispositionInPass(db, ids, i, now, staleBefore);
    }
  }

  lemma SweepKeepsStale(db: Db, now: Time, staleBefore: Time)
    requires db.WellFormed()
    ensures StaleKeys(SweepDeleted(db, now), staleBefore) == StaleKeys(db, staleBefore)
    ensures forall e :: e in db.executions && db.executions[e].status == Running
                        ==> SweepDeleted(db, now).executions[e] == db.executions[e]
  {
  }

  lemma RecoverOneEffect(db: Db, id: ExecutionId, now: Time, staleBefore: Time, e: ExecutionId)
    requires db.WellFormed() && e in db.executions
    ensures RecoverOne(db, id, now, staleBefore).executions[e]
         == if e == id && Stale(db, id, staleBefore) then RecoveredRow(db.executions[e], db.JobOf(e), now)
            else db.executions[e]
  {
  }

  ghost predicate DistinctStale(db: Db, ids: seq<ExecutionId>, staleBefore: Time) {
    && (forall i, j :: 0 <= i < j < |ids| ==> ids[i] != ids[j])
    && (forall i :: 0 <= i < |ids| ==> Stale(db, ids[i], staleBefore))
  }

  /** A pass handles each of its rows as if it were alone, and touches no other row. */
  lemma {:induction false} PassEffect(db: Db, ids: seq<ExecutionId>, now: Time, staleBefore: Time, e: ExecutionId)
    requires db.WellFormed() && e in db.executions && DistinctStale(db, ids, staleBefore)
    ensures RecoverAll(db, ids, now, staleBefore).executions[e]
         == if e in ids then RecoveredRow(db.executions[e], db.JobOf(e), now) else db.executions[e]
    decreases |ids|
  {
    hide RecoveredRow, Db.WellFormed;
    if |ids| > 0 {
      var front, last := ids[..|ids| - 1], ids[|ids| - 1];
      var turn := RecoverAll(db, front, now, staleBefore);
      PassEffect(db, front, now, staleBefore, e);
      RecoverOneEffect(turn, last, now, staleBefore, e);
      assert last !in front;
      InFront(ids, e);
    }
  }

  /** The turn of a stale row of a pass finds it as it was when the pass started. */
  lemma DispositionInPass(db: Db, ids: seq<ExecutionId>, i: nat, now: Time, staleBefore: Time)
    requires db.WellFormed() && i < |ids| && DistinctStale(db, ids, staleBefore)
    ensures DispositionOf(RecoverAll(db, ids[..i], now, staleBefore), ids[i], now, staleBefore)
         == DispositionOf(db, ids[i], now, staleBefore) != Skipped
  {
    PassEffect(db, ids[..i], now, staleBefore, ids[i]);
    assert Stale(db, ids[i], staleBefore);
    assert RecoverAll(db, ids[..i], now, staleBefore).executions[ids[i]] == db.executions[ids[i]];
  }

  lemma PageIsStale(db: Db, now: Time, staleBefore: Time, batchSize: nat, picked: seq<ExecutionId>)
    requires db.WellFormed() && IsPage(StaleKeys(db, staleBefore), batchSize, picked)
    ensures DistinctStale(SweepDeleted(db, now), picked, staleBefore)
  {
    SweepKeepsStale(db, now, staleBefore);
    forall i | 0 <= i < |picked| ensures Stale(SweepDeleted(db, now), picked[i], staleBefore) {
      assert picked[i] in StaleKeys(SweepDeleted(db, now), staleBefore);
    }
  }

  /** An uninterrupted pass takes exactly its page of stale rows out of RUNNING. */
  lemma PassClearsItsPage(db: Db, now: Time, staleBefore: Time, batchSize: nat, picked: seq<ExecutionId>)
    requires db.WellFormed() && IsPage(StaleKeys(db, staleBefore), batchSize, picked)
    ensures StaleIds(RecoverAll(SweepDeleted(db, now), picked, now, staleBefore), staleBefore)
         == StaleIds(db, staleBefore) - Elements(picked)
    ensures forall e :: e in db.executions && e in picked ==>
              RecoverAll(SweepDeleted(db, now), picked, now, staleBefore).executions[e].status != Running
  {
    SweepKeepsStaleIds(db, now, staleBefore);
    PageIsStale(db, now, staleBefore, batchSize, picked);
    RecoverAllClears(SweepDeleted(db, now), picked, now, staleBefore);
  }

  /** An execution is not stale when it was claimed at or after the threshold. */
  lemma FreshClaimIsNotStale(db: Db, id: ExecutionId, worker: WorkerId, at: Time, staleBefore: Time)
    requires id in db.executions && Worker.Claimable(db.executions[id])
    ensures var claimed := Worker.Claim(db, id, worker, at);
            && claimed.executions[id].lockedByWorkerId == Some(worker) && claimed.executions[id].startedAt == Some(at)
            && (Stale(claimed, id, staleBefore) <==> at < staleBefore)
  {
  }

  /** A running execution that gave no sign of life for longer than the threshold. */
  predicate Overdue(row: Execution, now: Time, stalledAfterMs: int) {
    row.status == Running && row.lastHeartbeatAt.Some? && stalledAfterMs < now - row.lastHeartbeatAt.value
  }

  /** What a pass means for one execution, by its age: only overdue ones are recovered, a running one
      that is not stays as it was, and one that is overdue is left only for a full batch of others
      that are at least as old. */
  lemma PassRecoversOverdue(db: Db, now: Time, stalledAfterMs: int, batchSize: nat, picked: seq<ExecutionId>,
                            e: ExecutionId)
    requires db.WellFormed() && e in db.executions
    requires IsPage(StaleKeys(db, CalculateStaleBefore(now, stalledAfterMs)), batchSize, picked)
    ensures var row := db.executions[e];
            var after := RecoverAll(SweepDeleted(db, now), picked, now, CalculateStaleBefore(now, stalledAfterMs));
            && (e in picked ==> Overdue(row, now, stalledAfterMs) && after.executions[e].status != Running)
            && (row.status == Running && e !in picked ==> after.executions[e] == row)
            && (Overdue(row, now, stalledAfterMs) && e !in picked ==>
                  && |picked| == batchSize
                  && forall i :: 0 <= i < |picked| ==>
                       && picked[i] in db.executions && db.executions[picked[i]].lastHeartbeatAt.Some?
                       && db.executions[picked[i]].lastHeartbeatAt.value <= row.lastHeartbeatAt.value)
  {
    hide RecoverAll, SweepDeleted, Db.WellFormed;
    var staleBefore := CalculateStaleBefore(now, stalledAfterMs);
    PassClearsItsPage(db, now, staleBefore, batchSize, picked);
    if e !in picked {
      PassTouchesOnlyItsPage(db, now, staleBefore, batchSize, picked, e);
      if Overdue(db.executions[e], now, stalledAfterMs) {
        assert e in StaleKeys(db, staleBefore);
        WindowIsFull(StaleKeys(db, staleBefore), batchSize, picked, e);
      }
    }
  }

  /** So a pass whose batch has room for all overdue executions recovers all of them. */
  lemma AllOverdueRecovered(db: Db, now: Time, stalledAfterMs: int, batchSize: nat, picked: seq<ExecutionId>)
    requires db.WellFormed() && IsPage(StaleKeys(db, CalculateStaleBefore(now, stalledAfterMs)), batchSize, picked)
    requires |set e | e in db.executions && Overdue(db.executions[e], now, stalledAfterMs)| <= batchSize
    ensures forall e :: e in db.executions && Overdue(db.executions[e], now, stalledAfterMs) ==> e in picked
  {
    var keys := StaleKeys(db, CalculateStaleBefore(now, stalledAfterMs));
    var overdue := set e | e in db.executions && Overdue(db.executions[e], now, stalledAfterMs);
    assert keys.Keys == overdue;
    PageRemainder(keys, batchSize, picked);
    forall e | e in overdue
      ensures e in picked
    {
      assert e !in keys.Keys - Elements(picked);
    }
  }

  lemma RecoverAllClears(db: Db, ids: seq<ExecutionId>, now: Time, staleBefore: Time)
    requires db.WellFormed() && DistinctStale(db, ids, staleBefore)
    ensures StaleIds(RecoverAll(db, ids, now, staleBefore), staleBefore) == StaleIds(db, staleBefore) - Elements(ids)
    ensures forall e :: e in db.executions && e in ids ==>
              RecoverAll(db, ids, now, staleBefore).executions[e].status != Running
  {
    forall e | e in db.executions
      ensures Stale(RecoverAll(db, ids, now, staleBefore), e, staleBefore) <==> Stale(db, e, staleBefore) && e !in ids
      ensures e in ids ==> RecoverAll(db, ids, now, staleBefore).executions[e].status != Running
    {
      RowAfterPass(db, ids, now, staleBefore, e);
    }
  }

  lemma SweepKeepsStaleIds(db: Db, now: Time, staleBefore: Time)
    requires db.WellFormed()
    ensures StaleIds(SweepDeleted(db, now), staleBefore) == StaleIds(db, staleBefore)
  {
    SweepKeepsStale(db, now, staleBefore);
    assert StaleKeys(db, staleBefore).Keys == StaleIds(db, staleBefore);
    assert StaleKeys(SweepDeleted(db, now), staleBefore).Keys == StaleIds(SweepDeleted(db, now), staleBefore);
  }

  /** It changes no row outside its page, except for the cancels of the sweep before it. */
  lemma PassTouchesOnlyItsPage(db: Db, now: Time, staleBefore: Time, batchSize: nat, picked: seq<ExecutionId>,
                               e: ExecutionId)
    requires db.WellFormed() && IsPage(StaleKeys(db, staleBefore), batchSize, picked)
    requires e in db.executions && e !in picked
    ensures RecoverAll(SweepDeleted(db, now), picked, now, staleBefore).executions[e]
         == if Runnable(db.executions[e].status) && db.JobOf(e).status == JobDeleted
            then SweptRow(db.executions[e], now) else db.executions[e]
  {
    PageIsStale(db, now, staleBefore, batchSize, picked);
    PassEffect(SweepDeleted(db, now), picked, now, staleBefore, e);
  }

  lemma RowAfterPass(db: Db, ids: seq<ExecutionId>, now: Time, staleBefore: Time, e: ExecutionId)
    requires db.WellFormed() && e in db.executions && DistinctStale(db, ids, staleBefore)
    ensures var after := RecoverAll(db, ids, now, staleBefore);
            && (Stale(after, e, staleBefore) <==> Stale(db, e, staleBefore) && e !in ids)
            && if e in ids then after.executions[e].status != Running else after.executions[e] == db.executions[e]
  {
    hide RecoverAll, RecoveredRow;
    PassEffect(db, ids, now, staleBefore, e);
    RecoveredStops(db.executions[e], db.JobOf(e), now);
  }

  lemma RecoveredStops(row: Execution, job: Job, now: Time)
    ensures RecoveredRow(row, job, now).status != Running
  {
  }

  /** A history of uninterrupted passes with the same clock: the state before and after each, and
      the page each one's query answered. */
  ghost predicate PassHistory(states: seq<Db>, pages: seq<seq<ExecutionId>>, now: Time, staleBefore: Time,
                              batchSize: nat)
  {
    && |states| == |pages| + 1
    && (forall i :: 0 <= i < |states| ==> states[i].WellFormed())
    && forall i :: 0 <= i < |pages| ==> IsPass(states[i], pages[i], states[i + 1], now, staleBefore, batchSize)
  }

  ghost predicate IsPass(before: Db, page: seq<ExecutionId>, after: Db, now: Time, staleBefore: Time, batchSize: nat) {
    && before.WellFormed()
    && IsPage(StaleKeys(before, staleBefore), batchSize, page)
    && after == RecoverAll(SweepDeleted(before, now), page, now, staleBefore)
  }

  lemma PassShrinks(before: Db, page: seq<ExecutionId>, after: Db, now: Time, staleBefore: Time, batchSize: nat)
    requires IsPass(before, page, after, now, staleBefore, batchSize)
    ensures |StaleIds(after, staleBefore)| == Remaining(|StaleIds(before, staleBefore)|, 1, batchSize)
  {
    assert StaleIds(after, staleBefore) == StaleIds(before, staleBefore) - Elements(page) by {
      PassClearsItsPage(before, now, staleBefore, batchSize, page);
    }
    assert StaleKeys(before, staleBefore).Keys == StaleIds(before, staleBefore);
    assert |StaleIds(before, staleBefore) - Elements(page)|
        == Remaining(|StaleIds(before, staleBefore)|, 1, batchSize) by {
      PageRemainder(StaleKeys(before, staleBefore), batchSize, page);
      RemainingOne(|StaleIds(before, staleBefore)|, batchSize);
    }
  }

  lemma {:induction false} StaleAfterPasses(states: seq<Db>, pages: seq<seq<ExecutionId>>, now: Time,
                                            staleBefore: Time, batchSize: nat, k: nat)
    requires PassHistory(states, pages, now, staleBefore, batchSize) && k <= |pages|
    ensures |StaleIds(states[k], staleBefore)| == Remaining(|StaleIds(states[0], staleBefore)|, k, batchSize)
    decreases k
  {
    if k > 0 {
      var n := |StaleIds(states[0], staleBefore)|;
      assert |StaleIds(states[k - 1], staleBefore)| == Remaining(n, k - 1, batchSize) by {
        StaleAfterPasses(states, pages, now, staleBefore, batchSize, k - 1);
      }
      assert IsPass(states[k - 1], pages[k - 1], states[k - 1 + 1], now, staleBefore, batchSize);
      PassShrinks(states[k - 1], pages[k - 1], states[k], now, staleBefore, batchSize);
      RemainingStep(n, k, batchSize);
    }
  }

  /** Repeated passes at a fixed `now` clear n stale rows in exactly ceil(n / batchSize) passes. */
  lemma PassesToClear(states: seq<Db>, pages: seq<seq<ExecutionId>>, now: Time, staleBefore: Time, batchSize: nat,
                      k: nat)
    requires PassHistory(states, pages, now, staleBefore, batchSize) && k <= |pages| && batchSize > 0
    ensures StaleIds(states[k], staleBefore) == {}
            <==> (|StaleIds(states[0], staleBefore)| + batchSize - 1) / batchSize <= k
  {
    StaleAfterPasses(states, pages, now, staleBefore, batchSize, k);
    RemainingIsZero(|StaleIds(states[0], staleBefore)|, k, batchSize);
  }

  /** Recovering a stale execution leaves the executions and their attempts as if the worker holding
      it had reported a failure at `now`, exactly when the job is active, or paused with no attempt
      left. Recovery writes no dead letter; the report writes one exactly when the execution fails
      for good. */
  lemma RecoveryEqualsReportedFailure(db: Db, id: ExecutionId, worker: WorkerId, now: Time, staleBefore: Time)
    requires db.WellFormed() && Stale(db, id, staleBefore) && db.executions[id].lockedByWorkerId == Some(worker)
    ensures var recovered := RecoverOne(db, id, now, staleBefore);
            var reported := Worker.RecordAttempt(db, id, worker, AttemptFailed, now);
            var row := db.executions[id];
            var job := db.JobOf(id);
            && (recovered.executions == reported.executions
                <==> job.status == JobActive
                     || (job.status == JobPaused
                         && job.maxAttempts <= Max(row.attemptCount, LatestNumber(row.attempts)) + 1))
            && recovered.deadLetters == db.deadLetters
            && (reported.deadLetters == db.deadLetters <==> reported.executions[id].status != Failed)
  {
    var recovered := RecoverOne(db, id, now, staleBefore);
    var reported := Worker.RecordAttempt(db, id, worker, AttemptFailed, now);
    var row := db.executions[id];
    RecoverySimulatesFailedAttempt(row, LatestNumber(row.attempts), db.JobOf(id), AttemptFailed, now);
    assert recovered.executions == db.executions[id := recovered.executions[id]];
    assert reported.executions == db.executions[id := reported.executions[id]];
    assert db.nextDeadLetterId !in db.deadLetters;
  }
}
