/** Nothing runs for a deleted job, although the claim never looks at the job: unless an update comes
    late, after a deletion its read did not see. */
module Deletion {
  import opened Schema
  import opened Attempts
  import opened Dispatch
  import opened Scheduler
  import opened World
  import opened Lifecycle

  /** `e` is chosen by a run that has not marked it yet. */
  ghost predicate InPlan(w: World, e: ExecutionId) {
    exists run :: run in w.plans && e in w.plans[run].remaining
  }

  /** An execution of a deleted job is not waiting to be claimed, and if it is pending (created by
      hand after the deletion) no run is about to queue it. */
  ghost predicate Quiet(w: World, e: ExecutionId)
    requires w.db.WellFormed() && e in w.db.executions
  {
    w.db.JobOf(e).status == JobDeleted ==>
      && w.db.executions[e].status != Queued && w.db.executions[e].status != RetryScheduled
      && (w.db.executions[e].status == Pending ==> !InPlan(w, e))
  }

  /** What a planning run chooses is due, hence belongs to an active job of an active queue. */
  lemma ChosenAreDue(db: Db, now: Time, batchSize: nat, cs: seq<Candidate>, e: ExecutionId)
    requires db.WellFormed() && IsCandidatePage(db, now, 5 * batchSize, cs)
    requires e in Chosen(db, cs, batchSize)
    ensures e in db.executions && CandidateDue(db, e, now)
  {
    var sel := Greedy(cs, QueueLimits(db), ActiveCounts(db), batchSize, |cs|);
    var i :| 0 <= i < |cs| && i in sel && cs[i].id == e;
    var ids := seq(|cs|, i requires 0 <= i < |cs| => cs[i].id);
    assert ids[i] in CandidateKeys(db, now);
  }

  /** A plan grows only by the choice of a planning run. */
  lemma PlansGrowByPlanning(w: World, ev: Event, e: ExecutionId)
    requires w.db.WellFormed() && Allowed(w, ev) && InPlan(Step(w, ev), e)
    ensures InPlan(w, e) || (ev.PlanRun? && e in Chosen(NextDb(w, ev), ev.answers.candidates, ev.batchSize))
  {
    hide WorkerPatch, CanceledRow, JobServiceDb, ExecutionServiceDb, WorkerDb, RecoveryDb;
    var run :| run in Step(w, ev).plans && e in Step(w, ev).plans[run].remaining;
    if !(ev.PlanRun? && run == ev.run) {
      assert run in w.plans && e in w.plans[run].remaining;
    }
  }

  lemma ChosenIsActive(w: World, ev: Event, e: ExecutionId)
    requires w.db.WellFormed() && Allowed(w, ev) && ev.PlanRun? && NextDb(w, ev).WellFormed()
    requires e in Chosen(NextDb(w, ev), ev.answers.candidates, ev.batchSize)
    ensures e in NextDb(w, ev).executions && NextDb(w, ev).JobOf(e).status == JobActive
  {
    hide IsCandidatePage, Chosen, AnsweredDue, Planned;
    ChosenAreDue(NextDb(w, ev), ev.now, ev.batchSize, ev.answers.candidates, e);
  }

  /** Planned executions exist. */
  lemma {:induction false} PlansExist(t: Trace, e: ExecutionId)
    requires IsRun(t) && InPlan(Now(t), e)
    ensures e in Now(t).db.executions
  {
    hide ActionOn, Perform, NextDb, Allowed, Chosen;
    match t
    case Start(_) =>
    case Then(before, event) =>
      var w := Now(before);
      PlansGrowByPlanning(w, event, e);
      if InPlan(w, e) {
        PlansExist(before, e);
        StepActs(w, event, e);
      } else {
        ChosenIsActive(w, event, e);
      }
  }

  predicate AttemptLeft(row: Execution, job: Job) {
    row.attemptCount + 1 < job.maxAttempts
  }

  /** An update that would leave an execution waiting to be claimed, whatever its job is by now: a
      retry or requeue of an execution some run is still about to mark, a failed attempt rescheduled
      on a status read earlier, or a recovery commit with an attempt left, whatever became of the
      execution since it was read. */
  predicate Revives(row: Execution, job: Job, action: Action, planned: bool) {
    match action
    case Reopened(_) => planned
    case Requeued(_) => planned
    case Reported(_, seen, result, _) => result != AttemptSucceeded && seen == JobActive && AttemptLeft(row, job)
    case Recovered(_, _) => AttemptLeft(row, job)
    case _ => false
  }

  /** The update comes after the job was deleted. */
  ghost predicate Late(w: World, ev: Event, e: ExecutionId)
    requires w.db.WellFormed()
  {
    && e in w.db.executions && w.db.JobOf(e).status == JobDeleted
    && Revives(w.db.executions[e], w.db.JobOf(e), ActionOn(w, ev, e), InPlan(w, e))
  }

  /** The row-level step, while the job stays deleted. */
  lemma ActionBreaksQuiet(row: Execution, job: Job, action: Action, planned: bool)
    requires Shape(row) && Possible(row, job, action)
    requires row.status != Queued && row.status != RetryScheduled && (row.status == Pending ==> !planned)
    requires action.MarkedQueued? ==> planned
    ensures var next := Perform(row, job, action).status;
            next == Queued || next == RetryScheduled || (next == Pending && planned)
            <==> Revives(row, job, action, planned)
  {
    LatestOfGapFree(row.attempts);
  }

  lemma DeletedByRemoval(w: World, ev: Event, j: JobId)
    requires w.db.WellFormed() && Allowed(w, ev) && j in w.db.jobs
    requires w.db.jobs[j].status != JobDeleted && j in NextDb(w, ev).jobs && NextDb(w, ev).jobs[j].status == JobDeleted
    ensures ev.RemoveJob? && ev.job == j
  {
    if By(ev) == JobService {
      JobServiceDeletes(w.db, ev, j);
    } else {
      OthersLeaveJobs(w, ev);
    }
  }

  lemma JobServiceDeletes(db: Db, ev: Event, j: JobId)
    requires db.WellFormed() && j in db.jobs && db.jobs[j].status != JobDeleted
    requires ev.CreateJob? ==> ev.job != j
    requires j in JobServiceDb(db, ev).jobs && JobServiceDb(db, ev).jobs[j].status == JobDeleted
    ensures ev.RemoveJob? && ev.job == j
  {
  }

  lemma RemovalQuiets(w: World, ev: Event, e: ExecutionId)
    requires w.db.WellFormed() && e in w.db.executions && Shape(w.db.executions[e])
    requires ev.RemoveJob? && ev.job == w.db.executions[e].jobId
    ensures var next := Perform(w.db.executions[e], w.db.JobOf(e), ActionOn(w, ev, e)).status;
            next != Pending && next != Queued && next != RetryScheduled
  {
  }

  /** A fresh execution of a deleted job is not planned. */
  lemma FreshIsQuiet(t: Trace, e: ExecutionId)
    requires IsRun(t) && t.Then? && e !in Now(t.before).db.executions && e in Now(t).db.executions
    ensures Quiet(Now(t), e)
  {
    hide ActionOn, Perform, NextDb, Allowed, Chosen;
    var w := Now(t.before);
    Birth(t, e);
    if InPlan(Now(t), e) && Now(t).db.JobOf(e).status == JobDeleted {
      PlansGrowByPlanning(w, t.event, e);
      if InPlan(w, e) {
        PlansExist(t.before, e);
      } else {
        ChosenIsActive(w, t.event, e);
      }
      assert false;
    }
  }

  /** As long as the job stays deleted, only the plan it is already in can hold an execution. */
  lemma PlannedStays(t: Trace, e: ExecutionId)
    requires Continues(t, e) && e in Now(t).db.executions && Now(t).db.JobOf(e).status == JobDeleted
    ensures InPlan(Now(t), e) ==> InPlan(Now(t.before), e)
  {
    hide ActionOn, Perform, NextDb, Allowed, Chosen;
    var w := Now(t.before);
    if InPlan(Now(t), e) && !InPlan(w, e) {
      PlansGrowByPlanning(w, t.event, e);
      ChosenIsActive(w, t.event, e);
      assert false;
    }
  }

  /** A plan loses an execution only by marking it or by ending; neither reopens or reports. */
  lemma RevivalsKeepPlans(w: World, ev: Event, e: ExecutionId)
    requires w.db.WellFormed() && Allowed(w, ev) && e in w.db.executions
    requires !ActionOn(w, ev, e).Untouched? && !ActionOn(w, ev, e).MarkedQueued?
    ensures Step(w, ev).plans == w.plans
    ensures !ActionOn(w, ev, e).Swept? ==> By(ev) != JobService
  {
    hide Db.WellFormed, Step, Allowed, ExecutionServiceAction, WorkerAction, RecoveryAction;
    PlansOnlyByScheduler(w, ev);
  }

  lemma MarkingIsPlanned(w: World, ev: Event, e: ExecutionId)
    requires w.db.WellFormed() && e in w.db.executions && ActionOn(w, ev, e).MarkedQueued?
    ensures InPlan(w, e)
  {
    hide Db.WellFormed;
    assert w.plans[ev.run].remaining[0] == e;
  }

  /** While its job is and stays deleted, an event makes an execution claimable exactly if it is
      late. */
  lemma StaysQuiet(t: Trace, e: ExecutionId)
    requires Continues(t, e) && Quiet(Now(t.before), e) && LastJob(t, e).status == JobDeleted
    requires e in Now(t).db.executions && Now(t).db.JobOf(e).status == JobDeleted
    ensures Quiet(Now(t), e) <==> !Late(Now(t.before), t.event, e)
  {
    hide ActionOn, Perform, NextDb, Allowed, Chosen, Step, InPlan, Revives;
    var w := Now(t.before);
    Advance(t, e);
    if LastAction(t, e).MarkedQueued? {
      MarkingIsPlanned(w, t.event, e);
    }
    ActionBreaksQuiet(LastRow(t, e), LastJob(t, e), LastAction(t, e), InPlan(w, e));
    PlannedStays(t, e);
    if Revives(LastRow(t, e), LastJob(t, e), LastAction(t, e), InPlan(w, e)) {
      RevivalsTouch(LastRow(t, e), LastJob(t, e), LastAction(t, e), InPlan(w, e));
      RevivalsKeepPlans(w, t.event, e);
      assert InPlan(Now(t), e) <==> InPlan(w, e) by {
        SamePlans(w, Now(t), e);
      }
    }
  }

  lemma SamePlans(w: World, next: World, e: ExecutionId)
    requires next.plans == w.plans
    ensures InPlan(next, e) <==> InPlan(w, e)
  {
  }

  lemma RevivalsTouch(row: Execution, job: Job, action: Action, planned: bool)
    requires Revives(row, job, action, planned)
    ensures action.Reopened? || action.Requeued? || action.Reported? || action.Recovered?
  {
  }

  /** A deletion sweeps the executions of its job. */
  lemma DeletionQuiets(t: Trace, e: ExecutionId)
    requires Continues(t, e) && LastJob(t, e).status != JobDeleted
    requires e in Now(t).db.executions && Now(t).db.JobOf(e).status == JobDeleted
    ensures Quiet(Now(t), e)
  {
    hide ActionOn, Perform, NextDb, Allowed, Chosen, InPlan;
    var w := Now(t.before);
    Advance(t, e);
    StepJobs(w, t.event);
    PerformKeepsJob(LastRow(t, e), LastJob(t, e), LastAction(t, e));
    DeletedByRemoval(w, t.event, w.db.executions[e].jobId);
    RemovalQuiets(w, t.event, e);
  }

  lemma LateKeepsDeleted(t: Trace, e: ExecutionId)
    requires Continues(t, e) && Late(Now(t.before), t.event, e)
    ensures e in Now(t).db.executions && Now(t).db.JobOf(e).status == JobDeleted
  {
    hide ActionOn, Perform, NextDb, Allowed, Chosen, InPlan;
    Advance(t, e);
    PerformKeepsJob(LastRow(t, e), LastJob(t, e), LastAction(t, e));
    LateLeavesJobs(Now(t.before), t.event, e);
  }

  /** Exactly the late updates leave an execution of a deleted job waiting to be claimed. */
  lemma QuietBrokenExactly(t: Trace, e: ExecutionId)
    requires Continues(t, e) && Quiet(Now(t.before), e)
    ensures e in Now(t).db.executions
    ensures !Quiet(Now(t), e) <==> Late(Now(t.before), t.event, e)
  {
    hide ActionOn, Perform, NextDb, Allowed, Chosen, Step, Late, InPlan;
    Advance(t, e);
    if Late(Now(t.before), t.event, e) {
      LateKeepsDeleted(t, e);
      LateMeansDeleted(Now(t.before), t.event, e);
      StaysQuiet(t, e);
    } else if Now(t).db.JobOf(e).status == JobDeleted {
      if LastJob(t, e).status == JobDeleted {
        StaysQuiet(t, e);
      } else {
        DeletionQuiets(t, e);
      }
    }
  }

  lemma LateMeansDeleted(w: World, ev: Event, e: ExecutionId)
    requires w.db.WellFormed() && Late(w, ev, e)
    ensures e in w.db.executions && w.db.JobOf(e).status == JobDeleted
  {
  }

  lemma LateLeavesJobs(w: World, ev: Event, e: ExecutionId)
    requires w.db.WellFormed() && Allowed(w, ev) && Late(w, ev, e)
    ensures NextDb(w, ev).jobs == w.db.jobs
  {
    hide ActionOn, Perform, NextDb, Allowed, Step;
    RevivalsTouch(w.db.executions[e], w.db.JobOf(e), ActionOn(w, ev, e), InPlan(w, e));
    RevivalsKeepPlans(w, ev, e);
    OthersLeaveJobs(w, ev);
  }

  /** The case of a retry whose job was deleted since it was read. */
  lemma LateRetryExactly(t: Trace, e: ExecutionId)
    requires Continues(t, e) && Quiet(Now(t.before), e) && t.event.CommitRetry? && t.event.id == e
    ensures e in Now(t).db.executions
    ensures !Quiet(Now(t), e)
            <==> LastRow(t, e).status == t.event.observed && LastJob(t, e).status == JobDeleted
                 && InPlan(Now(t.before), e)
  {
    hide Perform, NextDb, Allowed, Step;
    QuietBrokenExactly(t, e);
  }

  ghost function LateUpdates(t: Trace, e: ExecutionId): nat
    requires IsRun(t)
  {
    match t
    case Start(_) => 0
    case Then(before, event) => LateUpdates(before, e) + One(Late(Now(before), event, e))
  }

  /** In every state of a run without late updates of it, an execution of a deleted job is quiet. */
  lemma {:induction false} DeletedIsQuiet(t: Trace, e: ExecutionId)
    requires IsRun(t) && e in Now(t).db.executions && LateUpdates(t, e) == 0
    ensures Quiet(Now(t), e)
  {
    hide ActionOn, Perform, NextDb, Allowed, Chosen, Late;
    if Continues(t, e) {
      DeletedIsQuiet(t.before, e);
      QuietBrokenExactly(t, e);
    } else if t.Then? {
      FreshIsQuiet(t, e);
    }
  }

  /** And no claim of it ever succeeds once its job is deleted. */
  lemma NoClaimForDeletedJobs(t: Trace, e: ExecutionId)
    requires Continues(t, e) && LastAction(t, e).Claimed? && LateUpdates(t.before, e) == 0
    ensures LastJob(t, e).status != JobDeleted
  {
    hide ActionOn, Perform, NextDb;
    DeletedIsQuiet(t.before, e);
    Advance(t, e);
  }

  // Whether a job stays deleted.

  /** A job leaves DELETED exactly when a command commits that sets its status (a pause, a resume or an
      edit) and had read it before. */
  lemma UndeletedExactly(t: Trace, j: JobId)
    requires IsRun(t) && t.Then? && j in Now(t.before).db.jobs && Now(t.before).db.jobs[j].status == JobDeleted
    ensures j in Now(t).db.jobs
    ensures Now(t).db.jobs[j].status != JobDeleted <==> t.event.CommitStatus? && t.event.job == j
  {
    hide ActionOn, Perform;
    if By(t.event) == JobService {
      JobServiceUndeletes(Now(t.before), t.event, j);
    } else {
      OthersLeaveJobs(Now(t.before), t.event);
    }
  }

  lemma JobServiceUndeletes(w: World, ev: Event, j: JobId)
    requires w.db.WellFormed() && Allowed(w, ev) && j in w.db.jobs && w.db.jobs[j].status == JobDeleted
    ensures j in JobServiceDb(w.db, ev).jobs
    ensures JobServiceDb(w.db, ev).jobs[j].status != JobDeleted <==> ev.CommitStatus? && ev.job == j
  {
  }
}
