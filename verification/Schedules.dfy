/** One-time jobs are scheduled once; recurring schedules only move forward. */
module Schedules {
  import opened Schema
  import opened Scheduler
  import opened World

  // One-time jobs.

  lemma {:induction false} OneTimeCreates(db: Db, jobs: seq<JobId>, now: Time, j: JobId)
    requires db.WellFormed()
    requires forall i :: 0 <= i < |jobs| ==> jobs[i] in db.jobs && db.jobs[jobs[i]].status == JobActive
    ensures HasExecution(ScheduleOneTime(db, jobs, now), j) <==> HasExecution(db, j) || j in jobs
    decreases |jobs|
  {
    if |jobs| > 0 {
      var front, last := jobs[..|jobs| - 1], jobs[|jobs| - 1];
      OneTimeCreates(db, front, now, j);
      OneTimeOnlyAdds(db, front, now);
      InFront(jobs, j);
      CreateGives(ScheduleOneTime(db, front, now), last, FirstRunAt(db.jobs[last], now), j);
    }
  }

  lemma CreateGives(db: Db, made: JobId, at: Time, j: JobId)
    requires db.WellFormed()
    ensures HasExecution(CreateExecution(db, made, at), j) <==> HasExecution(db, j) || j == made
  {
    var after := CreateExecution(db, made, at);
    assert db.nextExecutionId !in db.executions;
    assert after.executions[db.nextExecutionId].jobId == made;
    if HasExecution(db, j) {
      var e :| e in db.executions && db.executions[e].jobId == j;
      assert after.executions[e].jobId == j;
    }
  }

  lemma {:induction false} RecurringCreatesOnlyForItsJobs(db: Db, jobs: seq<JobId>, next: map<JobId, Time>, now: Time,
                                                          j: JobId)
    requires db.WellFormed()
    requires forall i :: 0 <= i < |jobs| ==>
               jobs[i] in next && jobs[i] in db.jobs && db.jobs[jobs[i]].status == JobActive
    ensures HasExecution(db, j) ==> HasExecution(ScheduleRecurring(db, jobs, next, now), j)
    ensures HasExecution(ScheduleRecurring(db, jobs, next, now), j) ==> HasExecution(db, j) || j in jobs
    decreases |jobs|
  {
    if |jobs| > 0 {
      var front, last := jobs[..|jobs| - 1], jobs[|jobs| - 1];
      var mid := ScheduleRecurring(db, front, next, now);
      RecurringCreatesOnlyForItsJobs(db, front, next, now, j);
      RecurringOnlyAdds(db, front, next, now);
      InFront(jobs, j);
      if last in mid.schedules && mid.schedules[last].nextRunAt <= now {
        CreateGives(mid, last, mid.schedules[last].nextRunAt, j);
      }
    }
  }

  /** A planning transaction schedules exactly its page of due one-time jobs. */
  lemma PlanningTakesItsPage(db: Db, a: Answers, now: Time, batchSize: nat)
    requires db.WellFormed() && AnsweredDue(db, a, now, batchSize)
    ensures OneTimeIds(Planned(db, a, now), now) == OneTimeIds(db, now) - Elements(a.oneTime)
    ensures forall j :: j in a.oneTime ==> HasExecution(Planned(db, a, now), j)
  {
    var after := Planned(db, a, now);
    forall j
      ensures j in OneTimeIds(after, now) <==> j in OneTimeIds(db, now) && j !in a.oneTime
      ensures j in a.oneTime ==> HasExecution(after, j)
    {
      PlanningTakes(db, a, now, batchSize, j);
    }
  }

  lemma PlanningTakes(db: Db, a: Answers, now: Time, batchSize: nat, j: JobId)
    requires db.WellFormed() && AnsweredDue(db, a, now, batchSize)
    ensures var after := Planned(db, a, now);
            && (OneTimeDue(after, j, now) <==> OneTimeDue(db, j, now) && j !in a.oneTime)
            && (j in a.oneTime ==> OneTimeDue(db, j, now) && HasExecution(after, j))
            && (HasExecution(db, j) ==> HasExecution(after, j))
  {
    hide Db.WellFormed, IsPage, IsCandidatePage;
    var mid := ScheduleOneTime(db, a.oneTime, now);
    OneTimePageIsDue(db, now, batchSize, a.oneTime);
    OneTimeOnlyAdds(db, a.oneTime, now);
    OneTimeCreates(db, a.oneTime, now, j);
    RecurringPageIsDue(mid, now, batchSize, a.recurring);
    RecurringCreatesOnlyForItsJobs(mid, a.recurring, a.next, now, j);
    if j in a.recurring {
      assert RecurringDue(mid, j, now);
    }
  }

  /** A history of locked planning transactions with the same clock and nothing in between. */
  ghost predicate PlanHistory(states: seq<Db>, answers: seq<Answers>, now: Time, batchSize: nat) {
    && |states| == |answers| + 1
    && (forall i :: 0 <= i < |states| ==> states[i].WellFormed())
    && forall i :: 0 <= i < |answers| ==> IsPlan(states[i], answers[i], states[i + 1], now, batchSize)
  }

  ghost predicate IsPlan(before: Db, a: Answers, after: Db, now: Time, batchSize: nat) {
    before.WellFormed() && AnsweredDue(before, a, now, batchSize) && after == Planned(before, a, now)
  }

  lemma PlanShrinks(before: Db, a: Answers, after: Db, now: Time, batchSize: nat)
    requires IsPlan(before, a, after, now, batchSize)
    ensures |OneTimeIds(after, now)| == Remaining(|OneTimeIds(before, now)|, 1, batchSize)
    ensures OneTimeIds(before, now) == {} ==> a.oneTime == []
  {
    assert OneTimeKeys(before, now).Keys == OneTimeIds(before, now);
    assert OneTimeIds(after, now) == OneTimeIds(before, now) - Elements(a.oneTime) by {
      PlanningTakesItsPage(before, a, now, batchSize);
    }
    assert |OneTimeIds(before, now) - Elements(a.oneTime)| == Remaining(|OneTimeIds(before, now)|, 1, batchSize) by {
      PageRemainder(OneTimeKeys(before, now), batchSize, a.oneTime);
      RemainingOne(|OneTimeIds(before, now)|, batchSize);
    }
    assert |OneTimeKeys(before, now)| == |OneTimeKeys(before, now).Keys|;
  }

  lemma {:induction false} DueAfterPlans(states: seq<Db>, answers: seq<Answers>, now: Time, batchSize: nat, k: nat)
    requires PlanHistory(states, answers, now, batchSize) && k <= |answers|
    ensures |OneTimeIds(states[k], now)| == Remaining(|OneTimeIds(states[0], now)|, k, batchSize)
    decreases k
  {
    if k > 0 {
      var n := |OneTimeIds(states[0], now)|;
      assert |OneTimeIds(states[k - 1], now)| == Remaining(n, k - 1, batchSize) by {
        DueAfterPlans(states, answers, now, batchSize, k - 1);
      }
      assert IsPlan(states[k - 1], answers[k - 1], states[k - 1 + 1], now, batchSize);
      PlanShrinks(states[k - 1], answers[k - 1], states[k], now, batchSize);
      RemainingStep(n, k, batchSize);
    }
  }

  /** n due one-time jobs are drained by exactly ceil(n / batchSize) locked runs ... */
  lemma PlansToDrain(states: seq<Db>, answers: seq<Answers>, now: Time, batchSize: nat, k: nat)
    requires PlanHistory(states, answers, now, batchSize) && k <= |answers| && batchSize > 0
    ensures OneTimeIds(states[k], now) == {} <==> (|OneTimeIds(states[0], now)| + batchSize - 1) / batchSize <= k
  {
    var n := |OneTimeIds(states[0], now)|;
    assert |OneTimeIds(states[k], now)| == Remaining(n, k, batchSize) by {
      DueAfterPlans(states, answers, now, batchSize, k);
    }
    RemainingIsZero(n, k, batchSize);
  }

  /** ... and a run after that creates none. */
  lemma NothingLeftToSchedule(states: seq<Db>, answers: seq<Answers>, now: Time, batchSize: nat, k: nat)
    requires PlanHistory(states, answers, now, batchSize) && k < |answers| && batchSize > 0
    requires (|OneTimeIds(states[0], now)| + batchSize - 1) / batchSize <= k
    ensures answers[k].oneTime == []
  {
    PlansToDrain(states, answers, now, batchSize, k);
    assert IsPlan(states[k], answers[k], states[k + 1], now, batchSize);
    PlanShrinks(states[k], answers[k], states[k + 1], now, batchSize);
  }

  function Occurrences(s: seq<JobId>, j: JobId): nat {
    if |s| == 0 then 0 else Occurrences(s[..|s| - 1], j) + if s[|s| - 1] == j then 1 else 0
  }

  lemma {:induction false} DistinctOccursOnce(s: seq<JobId>, j: JobId)
    requires forall i, k :: 0 <= i < k < |s| ==> s[i] != s[k]
    ensures Occurrences(s, j) == if j in s then 1 else 0
  {
    if |s| > 0 {
      DistinctOccursOnce(s[..|s| - 1], j);
      InFront(s, j);
    }
  }

  /** The executions the one-time loop created for a job along a run. */
  ghost function TimesScheduled(t: Trace, j: JobId): nat
    requires IsRun(t)
  {
    match t
    case Start(_) => 0
    case Then(before, event) =>
      TimesScheduled(before, j) + if event.PlanRun? then Occurrences(event.answers.oneTime, j) else 0
  }

  lemma ExecutionsStay(t: Trace, j: JobId)
    requires IsRun(t) && t.Then? && HasExecution(Now(t.before).db, j)
    ensures HasExecution(Now(t).db, j)
  {
    hide ActionOn, NextDb, Allowed, Perform, Possible;
    var w := Now(t.before);
    var e :| e in w.db.executions && w.db.executions[e].jobId == j;
    RowStays(w, t.event, e);
    assert Now(t).db.executions[e].jobId == j;
  }

  /** No event changes whose execution a row is, or the time it was scheduled for. */
  lemma RowStays(w: World, ev: Event, e: ExecutionId)
    requires w.db.WellFormed() && Allowed(w, ev) && e in w.db.executions
    ensures e in NextDb(w, ev).executions
    ensures NextDb(w, ev).executions[e].jobId == w.db.executions[e].jobId
    ensures NextDb(w, ev).executions[e].scheduledFor == w.db.executions[e].scheduledFor
  {
    hide ActionOn, NextDb, Allowed, Perform, Possible;
    StepActs(w, ev, e);
    PerformStays(w.db.executions[e], w.db.JobOf(e), ActionOn(w, ev, e));
  }

  lemma PerformStays(row: Execution, job: Job, action: Action)
    ensures Perform(row, job, action).jobId == row.jobId
    ensures Perform(row, job, action).scheduledFor == row.scheduledFor
  {
  }

  /** The scheduler schedules a one-time job at most once, whatever else happens to it. */
  lemma {:induction false} ScheduledAtMostOnce(t: Trace, j: JobId)
    requires IsRun(t)
    ensures TimesScheduled(t, j) <= 1
    ensures TimesScheduled(t, j) == 1 ==> HasExecution(Now(t).db, j)
  {
    match t
    case Start(_) =>
    case Then(before, event) =>
      ScheduledAtMostOnce(before, j);
      if HasExecution(Now(before).db, j) {
        ExecutionsStay(t, j);
      }
      if event.PlanRun? {
        PlanRunSchedules(Now(before), event, j);
      }
  }

  lemma PlanRunSchedules(w: World, ev: Event, j: JobId)
    requires w.db.WellFormed() && Allowed(w, ev) && ev.PlanRun?
    ensures Occurrences(ev.answers.oneTime, j) == (if j in ev.answers.oneTime then 1 else 0)
    ensures j in ev.answers.oneTime ==> !HasExecution(w.db, j) && HasExecution(NextDb(w, ev), j)
  {
    hide Db.WellFormed, JobServiceDb, ExecutionServiceDb, WorkerDb, RecoveryDb;
    DistinctOccursOnce(ev.answers.oneTime, j);
    PlanningTakes(w.db, ev.answers, ev.now, ev.batchSize, j);
  }

  // Recurring schedules.

  ghost function ExecutionsOf(db: Db, j: JobId): set<ExecutionId> {
    set e | e in db.executions && db.executions[e].jobId == j
  }

  /** One turn of the loop, seen from one job. */
  lemma FireEffect(db: Db, fired: JobId, next: Time, now: Time, j: JobId)
    requires db.WellFormed() && j in db.schedules
    ensures var after := FireSchedule(db, fired, next, now);
            && j in after.schedules
            && if fired == j && db.schedules[j].nextRunAt <= now then
                 && after.schedules[j] == Schedule(next, Some(db.schedules[j].nextRunAt))
                 && ExecutionsOf(after, j) == ExecutionsOf(db, j) + {db.nextExecutionId}
                 && db.nextExecutionId !in ExecutionsOf(db, j)
                 && after.executions[db.nextExecutionId] == NewExecution(j, db.schedules[j].nextRunAt)
               else
                 after.schedules[j] == db.schedules[j] && ExecutionsOf(after, j) == ExecutionsOf(db, j)
  {
    assert db.nextExecutionId !in db.executions;
  }

  /** The executions of a job are those it had and `e`, a new one for the time `at`. */
  ghost predicate AddsOne(db: Db, after: Db, j: JobId, e: ExecutionId, at: Time) {
    && e !in ExecutionsOf(db, j) && ExecutionsOf(after, j) == ExecutionsOf(db, j) + {e}
    && e in after.executions && after.executions[e] == NewExecution(j, at)
  }

  /** What the whole loop does to one job's schedule: if it was due and listed, however often and
      however many ticks were missed, exactly one execution is created, for the run that was due,
      and the next run lies after `now`; otherwise nothing happens. */
  ghost predicate FiredOnce(db: Db, after: Db, j: JobId, next: Time, now: Time, listed: bool)
    requires j in db.schedules && j in after.schedules
  {
    if listed && db.schedules[j].nextRunAt <= now then
      && after.schedules[j] == Schedule(next, Some(db.schedules[j].nextRunAt))
      && exists e :: AddsOne(db, after, j, e, db.schedules[j].nextRunAt)
    else
      after.schedules[j] == db.schedules[j] && ExecutionsOf(after, j) == ExecutionsOf(db, j)
  }

  lemma FireTwice(db: Db, mid: Db, fired: JobId, j: JobId, next: Time, now: Time, listed: bool)
    requires db.WellFormed() && mid.WellFormed() && j in db.schedules && j in mid.schedules && now < next
    requires OnlyAdds(db, mid)
    requires FiredOnce(db, mid, j, next, now, listed)
    ensures var after := FireSchedule(mid, fired, next, now);
            fired == j ==> j in after.schedules && FiredOnce(db, after, j, next, now, true)
  {
    FireEffect(mid, fired, next, now, j);
    var after := FireSchedule(mid, fired, next, now);
    if fired == j && !listed && db.schedules[j].nextRunAt <= now {
      assert AddsOne(db, after, j, mid.nextExecutionId, db.schedules[j].nextRunAt);
    }
  }

  lemma FireOther(db: Db, mid: Db, fired: JobId, firedNext: Time, j: JobId, next: Time, now: Time, listed: bool)
    requires db.WellFormed() && mid.WellFormed() && j in db.schedules && j in mid.schedules && fired != j
    requires FiredOnce(db, mid, j, next, now, listed)
    ensures var after := FireSchedule(mid, fired, firedNext, now);
            j in after.schedules && FiredOnce(db, after, j, next, now, listed)
  {
    var after := FireSchedule(mid, fired, firedNext, now);
    FireEffect(mid, fired, firedNext, now, j);
    assert forall e :: e in mid.executions ==> e in after.executions && after.executions[e] == mid.executions[e];
    assert ExecutionsOf(after, j) == ExecutionsOf(mid, j);
    if listed && db.schedules[j].nextRunAt <= now {
      var e :| AddsOne(db, mid, j, e, db.schedules[j].nextRunAt);
      assert AddsOne(db, after, j, e, db.schedules[j].nextRunAt);
    }
  }

  /** The loop needs no help from the query for this: the re-read of the schedule makes it hold for
      any list, even one with repetitions. */
  lemma {:induction false} EachScheduleFiresOnce(db: Db, jobs: seq<JobId>, next: map<JobId, Time>, now: Time, j: JobId)
    requires db.WellFormed() && j in db.schedules && j in next && now < next[j]
    requires forall i :: 0 <= i < |jobs| ==>
               jobs[i] in next && jobs[i] in db.jobs && db.jobs[jobs[i]].status == JobActive
    ensures var after := ScheduleRecurring(db, jobs, next, now);
            j in after.schedules && FiredOnce(db, after, j, next[j], now, j in jobs)
    decreases |jobs|
  {
    if |jobs| > 0 {
      var front, last := jobs[..|jobs| - 1], jobs[|jobs| - 1];
      var mid := ScheduleRecurring(db, front, next, now);
      EachScheduleFiresOnce(db, front, next, now, j);
      RecurringOnlyAdds(db, front, next, now);
      InFront(jobs, j);
      if last == j {
        FireTwice(db, mid, last, j, next[j], now, j in front);
      } else {
        FireOther(db, mid, last, next[last], j, next[j], now, j in front);
      }
    }
  }

  lemma {:induction false} UnlistedKeepsSchedule(db: Db, jobs: seq<JobId>, next: map<JobId, Time>, now: Time, j: JobId)
    requires db.WellFormed() && j in db.schedules && j !in jobs
    requires forall i :: 0 <= i < |jobs| ==>
               jobs[i] in next && jobs[i] in db.jobs && db.jobs[jobs[i]].status == JobActive
    ensures var after := ScheduleRecurring(db, jobs, next, now);
            j in after.schedules && after.schedules[j] == db.schedules[j]
    decreases |jobs|
  {
    if |jobs| > 0 {
      var front, last := jobs[..|jobs| - 1], jobs[|jobs| - 1];
      UnlistedKeepsSchedule(db, front, next, now, j);
      RecurringOnlyAdds(db, front, next, now);
      FireEffect(ScheduleRecurring(db, front, next, now), last, next[last], now, j);
    }
  }

  /** A planning transaction leaves a schedule alone, or moves it past `now`. */
  ghost predicate Moved(before: Schedule, after: Schedule, now: Time, fires: bool) {
    if fires then before.nextRunAt <= now < after.nextRunAt && after.lastRunAt == Some(before.nextRunAt)
    else after == before
  }

  lemma PlannedMovesSchedule(db: Db, a: Answers, now: Time, batchSize: nat, j: JobId)
    requires db.WellFormed() && AnsweredDue(db, a, now, batchSize) && j in db.schedules
    ensures j in Planned(db, a, now).schedules
    ensures Moved(db.schedules[j], Planned(db, a, now).schedules[j], now, j in a.recurring)
  {
    var mid := ScheduleOneTime(db, a.oneTime, now);
    OneTimePageIsDue(db, now, batchSize, a.oneTime);
    OneTimeOnlyAdds(db, a.oneTime, now);
    RecurringPageIsDue(mid, now, batchSize, a.recurring);
    LoopMovesSchedule(mid, a.recurring, a.next, now, j);
  }

  lemma LoopMovesSchedule(db: Db, jobs: seq<JobId>, next: map<JobId, Time>, now: Time, j: JobId)
    requires db.WellFormed() && j in db.schedules && (forall k :: k in next ==> now < next[k])
    requires forall i :: 0 <= i < |jobs| ==> jobs[i] in next && RecurringDue(db, jobs[i], now)
    ensures j in ScheduleRecurring(db, jobs, next, now).schedules
    ensures Moved(db.schedules[j], ScheduleRecurring(db, jobs, next, now).schedules[j], now, j in jobs)
  {
    if j in jobs {
      assert RecurringDue(db, j, now);
      EachScheduleFiresOnce(db, jobs, next, now, j);
    } else {
      UnlistedKeepsSchedule(db, jobs, next, now, j);
    }
  }

  lemma StepMovesSchedule(w: World, ev: Event, j: JobId)
    requires w.db.WellFormed() && Allowed(w, ev) && j in w.db.schedules
    ensures j in NextDb(w, ev).schedules
    ensures Moved(w.db.schedules[j], NextDb(w, ev).schedules[j], if ev.PlanRun? then ev.now else 0, Fires(w, ev, j))
  {
    hide JobServiceDb, ExecutionServiceDb, WorkerDb, RecoveryDb, Planned, IsCandidatePage, AnsweredDue;
    if ev.PlanRun? {
      PlannedMovesSchedule(w.db, ev.answers, ev.now, ev.batchSize, j);
    } else {
      assert NextDb(w, ev).schedules[j] == w.db.schedules[j] by {
        OthersLeaveSchedules(w, ev, j);
      }
    }
  }

  /** The event is a planning run that processes the schedule of `j`. */
  predicate Fires(w: World, ev: Event, j: JobId) {
    ev.PlanRun? && j in ev.answers.recurring && j in w.db.schedules
  }

  /** Only planning runs change an existing schedule. */
  lemma OthersLeaveSchedules(w: World, ev: Event, j: JobId)
    requires w.db.WellFormed() && Allowed(w, ev) && !ev.PlanRun? && j in w.db.schedules
    ensures j in NextDb(w, ev).schedules && NextDb(w, ev).schedules[j] == w.db.schedules[j]
  {
    hide JobServiceDb, ExecutionServiceDb, WorkerDb, RecoveryDb;
    match By(ev)
    case JobService => JobServiceLeavesSchedules(w, ev, j);
    case ExecutionService => ExecutionServiceLeaves(w.db, ev);
    case WorkerService => WorkerLeaves(w, ev);
    case RecoveryLoop => RecoveryLeaves(w.db, ev);
    case SchedulerService =>
  }

  lemma JobServiceLeavesSchedules(w: World, ev: Event, j: JobId)
    requires w.db.WellFormed() && Allowed(w, ev) && j in w.db.schedules
    ensures j in JobServiceDb(w.db, ev).schedules && JobServiceDb(w.db, ev).schedules[j] == w.db.schedules[j]
  {
    hide IsPage, IsCandidatePage;
  }

  /** The scheduled times of the executions a schedule has produced along a run, in order. */
  ghost function Fired(t: Trace, j: JobId): seq<Time>
    requires IsRun(t)
  {
    match t
    case Start(_) => []
    case Then(before, event) =>
      Fired(before, j)
      + if Fires(Now(before), event, j) then [Now(before).db.schedules[j].nextRunAt] else []
  }

  /** The times a schedule has produced are strictly increasing and all before its next run; once
      it has run, its last run is the last of them. */
  ghost predicate Forward(times: seq<Time>, schedule: Schedule) {
    && (forall i, k :: 0 <= i < k < |times| ==> times[i] < times[k])
    && (forall i :: 0 <= i < |times| ==> times[i] < schedule.nextRunAt)
    && (|times| > 0 ==> schedule.lastRunAt == Some(times[|times| - 1]))
  }

  lemma ForwardExtends(times: seq<Time>, before: Schedule, after: Schedule, now: Time)
    requires Forward(times, before) && Moved(before, after, now, true)
    ensures Forward(times + [before.nextRunAt], after)
  {
  }

  /** Whatever the clocks of the planning runs say, a schedule never repeats a time and never goes
      back. */
  lemma {:induction false} SchedulesMoveForward(t: Trace, j: JobId)
    requires IsRun(t)
    ensures |Fired(t, j)| > 0 ==> j in Now(t).db.schedules
    ensures j in Now(t).db.schedules ==> Forward(Fired(t, j), Now(t).db.schedules[j])
  {
    hide ActionOn, NextDb, Allowed;
    match t
    case Start(_) =>
    case Then(before, event) =>
      var w := Now(before);
      SchedulesMoveForward(before, j);
      if j in w.db.schedules {
        StepMovesSchedule(w, event, j);
        if Fires(w, event, j) {
          ForwardExtends(Fired(before, j), w.db.schedules[j], Now(t).db.schedules[j], event.now);
        }
        assert Fired(before, j) + [] == Fired(before, j);
      }
  }

  // The executions behind those times.

  lemma {:induction false} OneTimeLeavesOthers(db: Db, jobs: seq<JobId>, now: Time, j: JobId)
    requires db.WellFormed() && j !in jobs
    requires forall i :: 0 <= i < |jobs| ==> jobs[i] in db.jobs && db.jobs[jobs[i]].status == JobActive
    ensures ExecutionsOf(ScheduleOneTime(db, jobs, now), j) == ExecutionsOf(db, j)
    decreases |jobs|
  {
    if |jobs| > 0 {
      var front, last := jobs[..|jobs| - 1], jobs[|jobs| - 1];
      OneTimeLeavesOthers(db, front, now, j);
      OneTimeOnlyAdds(db, front, now);
      CreateLeavesOthers(ScheduleOneTime(db, front, now), last, FirstRunAt(db.jobs[last], now), j);
    }
  }

  lemma {:induction false} RecurringLeavesOthers(db: Db, jobs: seq<JobId>, next: map<JobId, Time>, now: Time, j: JobId)
    requires db.WellFormed() && j !in jobs
    requires forall i :: 0 <= i < |jobs| ==>
               jobs[i] in next && jobs[i] in db.jobs && db.jobs[jobs[i]].status == JobActive
    ensures ExecutionsOf(ScheduleRecurring(db, jobs, next, now), j) == ExecutionsOf(db, j)
    decreases |jobs|
  {
    if |jobs| > 0 {
      var front, last := jobs[..|jobs| - 1], jobs[|jobs| - 1];
      var mid := ScheduleRecurring(db, front, next, now);
      RecurringLeavesOthers(db, front, next, now, j);
      RecurringOnlyAdds(db, front, next, now);
      if last in mid.schedules && mid.schedules[last].nextRunAt <= now {
        CreateLeavesOthers(mid, last, mid.schedules[last].nextRunAt, j);
      }
    }
  }

  lemma CreateLeavesOthers(db: Db, made: JobId, at: Time, j: JobId)
    requires db.WellFormed() && made != j
    ensures ExecutionsOf(CreateExecution(db, made, at), j) == ExecutionsOf(db, j)
  {
    assert db.nextExecutionId !in db.executions;
  }

  /** Planning adds one execution for each schedule that fires, at the time it was due, and none for
      any other recurring job. */
  lemma PlanningMakes(db: Db, a: Answers, now: Time, batchSize: nat, j: JobId)
    requires db.WellFormed() && AnsweredDue(db, a, now, batchSize) && j in db.jobs && db.jobs[j].jobType == Recurring
    ensures j in a.recurring ==>
              j in db.schedules && exists e :: AddsOne(db, Planned(db, a, now), j, e, db.schedules[j].nextRunAt)
    ensures j !in a.recurring ==> ExecutionsOf(Planned(db, a, now), j) == ExecutionsOf(db, j)
  {
    hide Db.WellFormed, IsPage, IsCandidatePage;
    var mid := ScheduleOneTime(db, a.oneTime, now);
    OneTimePageIsDue(db, now, batchSize, a.oneTime);
    OneTimeOnlyAdds(db, a.oneTime, now);
    OneTimeLeavesOthers(db, a.oneTime, now, j);
    RecurringPageIsDue(mid, now, batchSize, a.recurring);
    if j in a.recurring {
      assert RecurringDue(mid, j, now);
      EachScheduleFiresOnce(mid, a.recurring, a.next, now, j);
      var e :| AddsOne(mid, Planned(db, a, now), j, e, mid.schedules[j].nextRunAt);
      assert AddsOne(db, Planned(db, a, now), j, e, db.schedules[j].nextRunAt);
    } else {
      RecurringLeavesOthers(mid, a.recurring, a.next, now, j);
    }
  }

  /** Only recurring jobs fire. */
  lemma FiringIsRecurring(w: World, ev: Event, j: JobId)
    requires w.db.WellFormed() && Allowed(w, ev) && Fires(w, ev, j)
    ensures j in w.db.jobs && w.db.jobs[j].jobType == Recurring
  {
    hide IsPage, Planned;
    var mid := ScheduleOneTime(w.db, ev.answers.oneTime, ev.now);
    OneTimePageIsDue(w.db, ev.now, ev.batchSize, ev.answers.oneTime);
    RecurringPageIsDue(mid, ev.now, ev.batchSize, ev.answers.recurring);
    assert RecurringDue(mid, j, ev.now);
  }

  /** The executions of a job that planning runs created along a run. */
  ghost function Made(t: Trace, j: JobId): set<ExecutionId>
    requires IsRun(t)
  {
    match t
    case Start(_) => {}
    case Then(before, event) =>
      Made(before, j)
      + if event.PlanRun? then ExecutionsOf(Now(t).db, j) - ExecutionsOf(Now(before).db, j) else {}
  }

  /** `ids` lists these, each once, and each is scheduled for the time the schedule fired for. */
  ghost predicate Lists(db: Db, j: JobId, ids: seq<ExecutionId>, times: seq<Time>) {
    && |ids| == |times|
    && (forall i, k :: 0 <= i < k < |ids| ==> ids[i] != ids[k])
    && forall i :: 0 <= i < |ids| ==>
         ids[i] in db.executions && db.executions[ids[i]].jobId == j && db.executions[ids[i]].scheduledFor == times[i]
  }

  lemma ListsStay(t: Trace, j: JobId, ids: seq<ExecutionId>, times: seq<Time>)
    requires IsRun(t) && t.Then? && Lists(Now(t.before).db, j, ids, times)
    ensures Lists(Now(t).db, j, ids, times)
  {
    hide ActionOn, NextDb, Allowed, Perform, Possible;
    forall i | 0 <= i < |ids|
      ensures ids[i] in Now(t).db.executions && Now(t).db.executions[ids[i]].jobId == j
              && Now(t).db.executions[ids[i]].scheduledFor == times[i]
    {
      RowStays(Now(t.before), t.event, ids[i]);
    }
  }

  lemma ListsGrow(before: Db, after: Db, j: JobId, ids: seq<ExecutionId>, times: seq<Time>, e: ExecutionId, at: Time)
    requires Lists(before, j, ids, times) && Lists(after, j, ids, times) && AddsOne(before, after, j, e, at)
    ensures Lists(after, j, ids + [e], times + [at])
    ensures Elements(ids + [e]) == Elements(ids) + {e}
  {
    assert forall i :: 0 <= i < |ids| ==> ids[i] in ExecutionsOf(before, j);
    var longer := ids + [e];
    forall x ensures x in Elements(longer) <==> x in Elements(ids) || x == e {
      if x == e {
        assert longer[|ids|] == e;
      } else if x in ids {
        var i :| 0 <= i < |ids| && ids[i] == x;
        assert longer[i] == x;
      }
    }
  }

  lemma StepMakes(w: World, ev: Event, j: JobId)
    requires w.db.WellFormed() && Allowed(w, ev) && ev.PlanRun? && j in w.db.jobs && w.db.jobs[j].jobType == Recurring
    ensures Fires(w, ev, j) ==>
              j in w.db.schedules && exists e :: AddsOne(w.db, NextDb(w, ev), j, e, w.db.schedules[j].nextRunAt)
    ensures !Fires(w, ev, j) ==> ExecutionsOf(NextDb(w, ev), j) == ExecutionsOf(w.db, j)
  {
    hide Planned, IsPage, IsCandidatePage, AddsOne, JobServiceDb, ExecutionServiceDb, WorkerDb, RecoveryDb;
    assert NextDb(w, ev) == Planned(w.db, ev.answers, ev.now);
    PlanningMakes(w.db, ev.answers, ev.now, ev.batchSize, j);
  }

  lemma NoneListed(db: Db, j: JobId)
    ensures Lists(db, j, [], []) && Elements([]) == {}
  {
  }

  lemma NoPlanningNoFiring(w: World, ev: Event, j: JobId)
    requires !ev.PlanRun?
    ensures !Fires(w, ev, j)
  {
  }

  lemma NoJobNoExecutions(db: Db, j: JobId)
    requires db.WellFormed() && j !in db.jobs
    ensures ExecutionsOf(db, j) == {} && j !in db.schedules
  {
  }

  lemma {:induction false} NothingWithoutJob(t: Trace, j: JobId)
    requires IsRun(t) && j !in Now(t).db.jobs
    ensures Made(t, j) == {} && Fired(t, j) == []
  {
    hide ActionOn, NextDb, Allowed, ExecutionsOf;
    if t.Then? {
      StepJobs(Now(t.before), t.event);
      NothingWithoutJob(t.before, j);
      NoJobNoExecutions(Now(t).db, j);
      NoJobNoExecutions(Now(t.before).db, j);
    }
  }

  lemma NothingBeforeJob(t: Trace, j: JobId)
    requires IsRun(t) && t.Then? && j !in Now(t.before).db.jobs && j in Now(t).db.jobs
    ensures Made(t, j) == {} && Fired(t, j) == []
  {
    hide ActionOn, NextDb, Allowed, ExecutionsOf;
    NothingWithoutJob(t.before, j);
    NoJobNoExecutions(Now(t.before).db, j);
    if t.event.PlanRun? {
      OthersLeaveJobs(Now(t.before), t.event);
      assert false;
    }
  }

  lemma PlanningLists(t: Trace, j: JobId, ids: seq<ExecutionId>) returns (longer: seq<ExecutionId>)
    requires IsRun(t) && t.Then? && t.event.PlanRun?
    requires j in Now(t.before).db.jobs && Now(t.before).db.jobs[j].jobType == Recurring
    requires Lists(Now(t.before).db, j, ids, Fired(t.before, j)) && Lists(Now(t).db, j, ids, Fired(t.before, j))
    requires Elements(ids) == Made(t.before, j)
    ensures Lists(Now(t).db, j, longer, Fired(t, j)) && Elements(longer) == Made(t, j)
  {
    hide ActionOn, NextDb, Allowed, Perform, Possible, Lists, ExecutionsOf, Fires;
    var w := Now(t.before);
    StepMakes(w, t.event, j);
    if Fires(w, t.event, j) {
      var at := w.db.schedules[j].nextRunAt;
      var e :| AddsOne(w.db, Now(t).db, j, e, at);
      ListsGrow(w.db, Now(t).db, j, ids, Fired(t.before, j), e, at);
      assert ExecutionsOf(Now(t).db, j) - ExecutionsOf(w.db, j) == {e};
      longer := ids + [e];
    } else {
      assert Fired(t.before, j) + [] == Fired(t.before, j);
      longer := ids;
    }
  }

  /** Over any run, the executions planning created for a recurring job are one for each time its
      schedule fired, scheduled for that time. As the times strictly increase, no time has two; and
      only recurring jobs fire (`FiringIsRecurring`). */
  lemma {:induction false} EachTimeHasOneExecution(t: Trace, j: JobId) returns (ids: seq<ExecutionId>)
    requires IsRun(t) && j in Now(t).db.jobs && Now(t).db.jobs[j].jobType == Recurring
    ensures Lists(Now(t).db, j, ids, Fired(t, j)) && Elements(ids) == Made(t, j)
  {
    hide ActionOn, NextDb, Allowed, Perform, Possible, Lists, AddsOne, ExecutionsOf, Fires;
    ids := [];
    match t
    case Start(_) => NoneListed(Now(t).db, j);
    case Then(before, event) =>
      var w := Now(before);
      if j in w.db.jobs {
        StepJobs(w, event);
        ids := EachTimeHasOneExecution(before, j);
        ListsStay(t, j, ids, Fired(before, j));
        if event.PlanRun? {
          ids := PlanningLists(t, j, ids);
        } else {
          NoPlanningNoFiring(w, event, j);
          assert Fired(before, j) + [] == Fired(before, j);
        }
      } else {
        NothingBeforeJob(t, j);
        NoneListed(Now(t).db, j);
      }
  }

  lemma {:induction false} OneTimeMakesFew(db: Db, jobs: seq<JobId>, now: Time, j: JobId)
    requires db.WellFormed()
    requires forall i :: 0 <= i < |jobs| ==> jobs[i] in db.jobs && db.jobs[jobs[i]].status == JobActive
    ensures |ExecutionsOf(ScheduleOneTime(db, jobs, now), j)| == |ExecutionsOf(db, j)| + Occurrences(jobs, j)
    decreases |jobs|
  {
    if |jobs| > 0 {
      var front, last := jobs[..|jobs| - 1], jobs[|jobs| - 1];
      OneTimeMakesFew(db, front, now, j);
      OneTimeOnlyAdds(db, front, now);
      CreateCounts(ScheduleOneTime(db, front, now), last, FirstRunAt(db.jobs[last], now), j);
    }
  }

  lemma CreateCounts(db: Db, made: JobId, at: Time, j: JobId)
    requires db.WellFormed()
    ensures |ExecutionsOf(CreateExecution(db, made, at), j)| == |ExecutionsOf(db, j)| + One(made == j)
  {
    if made == j {
      assert ExecutionsOf(CreateExecution(db, made, at), j) == ExecutionsOf(db, j) + {db.nextExecutionId};
      assert db.nextExecutionId !in ExecutionsOf(db, j);
    } else {
      CreateLeavesOthers(db, made, at, j);
    }
  }

  /** Planning makes an execution for a one-time job only if it has none, and then at most one. */
  lemma PlanningMakesFew(db: Db, a: Answers, now: Time, batchSize: nat, j: JobId)
    requires db.WellFormed() && AnsweredDue(db, a, now, batchSize) && (j in db.jobs ==> db.jobs[j].jobType == OneTime)
    ensures HasExecution(db, j) ==> ExecutionsOf(Planned(db, a, now), j) == ExecutionsOf(db, j)
    ensures !HasExecution(db, j) ==> |ExecutionsOf(Planned(db, a, now), j)| <= 1
  {
    hide Db.WellFormed, IsPage, IsCandidatePage;
    var mid := ScheduleOneTime(db, a.oneTime, now);
    OneTimePageIsDue(db, now, batchSize, a.oneTime);
    OneTimeOnlyAdds(db, a.oneTime, now);
    RecurringPageIsDue(mid, now, batchSize, a.recurring);
    OnlyRecurringListed(mid, a, now, j);
    RecurringLeavesOthers(mid, a.recurring, a.next, now, j);
    if HasExecution(db, j) {
      NotListedAgain(db, a, now, j);
      OneTimeLeavesOthers(db, a.oneTime, now, j);
    } else {
      PageIsDistinct(db, a, now, batchSize, j);
      OneTimeMakesFew(db, a.oneTime, now, j);
      NoneWithout(db, j);
    }
  }

  lemma OnlyRecurringListed(db: Db, a: Answers, now: Time, j: JobId)
    requires forall i :: 0 <= i < |a.recurring| ==> RecurringDue(db, a.recurring[i], now)
    ensures j in a.recurring ==> j in db.jobs && db.jobs[j].jobType == Recurring
  {
  }

  lemma NotListedAgain(db: Db, a: Answers, now: Time, j: JobId)
    requires forall i :: 0 <= i < |a.oneTime| ==> OneTimeDue(db, a.oneTime[i], now)
    requires HasExecution(db, j)
    ensures j !in a.oneTime
  {
  }

  lemma PageIsDistinct(db: Db, a: Answers, now: Time, batchSize: nat, j: JobId)
    requires IsPage(OneTimeKeys(db, now), batchSize, a.oneTime)
    ensures Occurrences(a.oneTime, j) <= 1
  {
    DistinctOccursOnce(a.oneTime, j);
  }

  lemma NoneWithout(db: Db, j: JobId)
    ensures HasExecution(db, j) <==> ExecutionsOf(db, j) != {}
  {
    if HasExecution(db, j) {
      var e :| e in db.executions && db.executions[e].jobId == j;
      assert e in ExecutionsOf(db, j);
    }
  }

  /** Over any run, planning creates at most one execution for a one-time job, and none once it has
      one, manual or not. */
  lemma {:induction false} OneTimeMadeOnce(t: Trace, j: JobId)
    requires IsRun(t) && (j in Now(t).db.jobs ==> Now(t).db.jobs[j].jobType == OneTime)
    ensures |Made(t, j)| <= 1
    ensures Made(t, j) != {} ==> HasExecution(Now(t).db, j)
  {
    hide Db.WellFormed, ActionOn, NextDb, Allowed, HasExecution, ExecutionsOf;
    if t.Then? {
      StepJobs(Now(t.before), t.event);
      OneTimeMadeOnce(t.before, j);
      MadeStep(t, j);
    }
  }

  lemma MadeStep(t: Trace, j: JobId)
    requires IsRun(t) && t.Then?
    requires j in Now(t.before).db.jobs ==> Now(t.before).db.jobs[j].jobType == OneTime
    requires |Made(t.before, j)| <= 1 && (Made(t.before, j) != {} ==> HasExecution(Now(t.before).db, j))
    ensures |Made(t, j)| <= 1 && (Made(t, j) != {} ==> HasExecution(Now(t).db, j))
  {
    hide Db.WellFormed, ActionOn, NextDb, Allowed, HasExecution, ExecutionsOf;
    var w := Now(t.before);
    if HasExecution(w.db, j) {
      ExecutionsStay(t, j);
    }
    if t.event.PlanRun? {
      StepMakesFew(w, t.event, j);
      NoneWithout(w.db, j);
      NoneWithout(Now(t).db, j);
      assert Made(t, j) == Made(t.before, j) + (ExecutionsOf(Now(t).db, j) - ExecutionsOf(w.db, j));
      if HasExecution(w.db, j) {
        assert Made(t, j) == Made(t.before, j);
      } else {
        assert Made(t, j) == ExecutionsOf(Now(t).db, j);
      }
    } else {
      assert Made(t, j) == Made(t.before, j);
    }
  }

  lemma StepMakesFew(w: World, ev: Event, j: JobId)
    requires w.db.WellFormed() && Allowed(w, ev) && ev.PlanRun? && (j in w.db.jobs ==> w.db.jobs[j].jobType == OneTime)
    ensures HasExecution(w.db, j) ==> ExecutionsOf(NextDb(w, ev), j) == ExecutionsOf(w.db, j)
    ensures !HasExecution(w.db, j) ==> |ExecutionsOf(NextDb(w, ev), j)| <= 1
  {
    hide Db.WellFormed, Planned, IsPage, IsCandidatePage, HasExecution, ExecutionsOf, JobServiceDb, ExecutionServiceDb,
         WorkerDb, RecoveryDb;
    assert NextDb(w, ev) == Planned(w.db, ev.answers, ev.now);
    PlanningMakesFew(w.db, ev.answers, ev.now, ev.batchSize, j);
  }
}
