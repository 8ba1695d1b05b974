/** Queue concurrency over whole runs. */
module Concurrency {
  import opened Schema
  import opened Dispatch
  import opened Scheduler
  import opened World
  import opened Lifecycle
  import opened Deletion

  /** `e` uses one unit of its queue: it is queued, running, or planned and not marked yet. */
  ghost predicate Holds(w: World, e: ExecutionId, q: QueueId)
    requires w.db.WellFormed() && e in w.db.executions
  {
    w.db.JobOf(e).queueId == q && (Active(w.db.executions[e].status) || InPlan(w, e))
  }

  ghost function Holding(w: World, q: QueueId): set<ExecutionId>
    requires w.db.WellFormed()
  {
    set e | e in w.db.executions && Holds(w, e, q)
  }

  /** Planned by an earlier run, neither marked nor active. */
  ghost function Unmarked(w: World, q: QueueId): set<ExecutionId>
    requires w.db.WellFormed()
  {
    set e | e in w.db.executions && w.db.JobOf(e).queueId == q && InPlan(w, e) && !Active(w.db.executions[e].status)
  }

  /** A worker takes a RETRY_SCHEDULED execution of `q` that no run has planned: an old message was
      delivered late. */
  ghost predicate StaleClaim(w: World, ev: Event, e: ExecutionId, q: QueueId)
    requires w.db.WellFormed()
  {
    && e in w.db.executions && w.db.JobOf(e).queueId == q
    && ActionOn(w, ev, e).Claimed? && w.db.executions[e].status == RetryScheduled && !InPlan(w, e)
  }

  /** The execution a claim event is about. */
  function Target(w: World, ev: Event): ExecutionId {
    if ev.ClaimOrCancel? && ev.tag in w.handlers then w.handlers[ev.tag].id else 0
  }

  ghost function StaleClaims(t: Trace, q: QueueId): nat
    requires IsRun(t)
  {
    match t
    case Start(_) => 0
    case Then(before, event) =>
      StaleClaims(before, q) + One(StaleClaim(Now(before), event, Target(Now(before), event), q))
  }

  /** The unmarked executions later planning runs found, each counted once per such run. */
  ghost function Overlaps(t: Trace, q: QueueId): nat
    requires IsRun(t)
  {
    match t
    case Start(_) => 0
    case Then(before, event) => Overlaps(before, q) + if event.PlanRun? then |Unmarked(Now(before), q)| else 0
  }

  // A planning run.

  ghost function ChosenIn(cs: seq<Candidate>, sel: set<nat>, q: QueueId, p: nat): set<ExecutionId>
    requires p <= |cs|
  {
    set i | 0 <= i < p && i in sel && cs[i].queueId == q :: cs[i].id
  }

  lemma {:induction false} ChosenInCount(cs: seq<Candidate>, sel: set<nat>, q: QueueId, p: nat)
    requires p <= |cs|
    ensures |ChosenIn(cs, sel, q, p)| <= TakenIn(cs, sel, q, p)
    decreases p
  {
    if p > 0 {
      ChosenInCount(cs, sel, q, p - 1);
      var before := ChosenIn(cs, sel, q, p - 1);
      if p - 1 in sel && cs[p - 1].queueId == q {
        assert ChosenIn(cs, sel, q, p) == before + {cs[p - 1].id};
      } else {
        assert ChosenIn(cs, sel, q, p) == before;
      }
    }
  }

  /** A run never fills a queue past its limit, counting what is active when it plans. */
  lemma ChoiceFits(db: Db, cs: seq<Candidate>, batchSize: nat, q: QueueId)
    requires db.WellFormed() && q in db.queues
    ensures var sel := Greedy(cs, QueueLimits(db), ActiveCounts(db), batchSize, |cs|);
            var chosen := |ChosenIn(cs, sel, q, |cs|)|;
            chosen > 0 ==> |ActiveIn(db, q)| + chosen <= db.queues[q].concurrencyLimit
  {
    var limits, counts := QueueLimits(db), ActiveCounts(db);
    var sel := Greedy(cs, limits, counts, batchSize, |cs|);
    ChosenInCount(cs, sel, q, |cs|);
    GreedyIsFeasible(cs, limits, counts, batchSize, |cs|);
    assert TakenIn(cs, sel, q, |cs|) <= Capacity(limits, counts, q);
  }

  lemma ChosenIsIn(db: Db, now: Time, batchSize: nat, cs: seq<Candidate>, e: ExecutionId)
    requires db.WellFormed() && IsCandidatePage(db, now, 5 * batchSize, cs)
    requires e in Chosen(db, cs, batchSize)
    ensures e in db.executions
    ensures e in ChosenIn(cs, Greedy(cs, QueueLimits(db), ActiveCounts(db), batchSize, |cs|), db.JobOf(e).queueId, |cs|)
  {
    ChosenAreDue(db, now, batchSize, cs, e);
    var sel := Greedy(cs, QueueLimits(db), ActiveCounts(db), batchSize, |cs|);
    var i :| 0 <= i < |cs| && i in sel && cs[i].id == e;
    assert cs[i].queueId == db.JobOf(cs[i].id).queueId;
  }

  /** What a planning run chooses from a queue. */
  ghost function ChosenFor(w: World, ev: Event, q: QueueId): set<ExecutionId>
    requires w.db.WellFormed() && Allowed(w, ev) && ev.PlanRun? && NextDb(w, ev).WellFormed()
  {
    var db, cs := NextDb(w, ev), ev.answers.candidates;
    ChosenIn(cs, Greedy(cs, QueueLimits(db), ActiveCounts(db), ev.batchSize, |cs|), q, |cs|)
  }

  /** After planning, a queue is held by exactly what was active, what was chosen and what an earlier
      run had left unmarked. */
  lemma PlanningHolds(w: World, ev: Event, q: QueueId)
    requires w.db.WellFormed() && Allowed(w, ev) && ev.PlanRun? && NextDb(w, ev).WellFormed()
    requires forall e :: InPlan(w, e) ==> e in w.db.executions
    ensures Holding(Step(w, ev), q) == ActiveIn(w.db, q) + ChosenFor(w, ev, q) + Unmarked(w, q)
  {
    hide NextDb, Allowed, ChosenIn, Greedy;
    PlanningKeepsActive(w, ev, q);
    forall e
      ensures e in Holding(Step(w, ev), q)
              <==> e in ActiveIn(w.db, q) || e in ChosenFor(w, ev, q) || e in Unmarked(w, q)
    {
      if e in Holding(Step(w, ev), q) && e !in ActiveIn(NextDb(w, ev), q) {
        PlanningHoldsOne(w, ev, q, e);
      }
      if e in ChosenFor(w, ev, q) {
        ChosenAreHeld(w, ev, q, e);
      }
      if e in Unmarked(w, q) {
        UnmarkedAreHeld(w, ev, q, e);
      }
    }
  }

  lemma ChosenAreHeld(w: World, ev: Event, q: QueueId, e: ExecutionId)
    requires w.db.WellFormed() && Allowed(w, ev) && ev.PlanRun? && NextDb(w, ev).WellFormed()
    requires e in ChosenFor(w, ev, q)
    ensures e in NextDb(w, ev).executions && NextDb(w, ev).JobOf(e).queueId == q && InPlan(Step(w, ev), e)
  {
    hide JobServiceDb, ExecutionServiceDb, WorkerDb, RecoveryDb, AnsweredDue, Planned, IsCandidatePage, Chosen,
         ChosenIn, NextHandlers, NextCommands, NextReady;
    ChosenInIsChosen(NextDb(w, ev), ev.now, ev.batchSize, ev.answers.candidates, q, e);
    assert ev.run in Step(w, ev).plans && e in Step(w, ev).plans[ev.run].remaining;
  }

  lemma ChosenInIsChosen(db: Db, now: Time, batchSize: nat, cs: seq<Candidate>, q: QueueId, e: ExecutionId)
    requires db.WellFormed() && IsCandidatePage(db, now, 5 * batchSize, cs)
    requires e in ChosenIn(cs, Greedy(cs, QueueLimits(db), ActiveCounts(db), batchSize, |cs|), q, |cs|)
    ensures e in db.executions && db.JobOf(e).queueId == q && e in Chosen(db, cs, batchSize)
  {
    var sel := Greedy(cs, QueueLimits(db), ActiveCounts(db), batchSize, |cs|);
    var i :| 0 <= i < |cs| && i in sel && cs[i].queueId == q && cs[i].id == e;
    assert cs[i].id in db.executions && cs[i].queueId == db.JobOf(cs[i].id).queueId;
  }

  lemma UnmarkedAreHeld(w: World, ev: Event, q: QueueId, e: ExecutionId)
    requires w.db.WellFormed() && Allowed(w, ev) && ev.PlanRun? && NextDb(w, ev).WellFormed()
    requires e in Unmarked(w, q)
    ensures e in NextDb(w, ev).executions && NextDb(w, ev).JobOf(e).queueId == q && InPlan(Step(w, ev), e)
  {
    hide JobServiceDb, ExecutionServiceDb, SchedulerDb, WorkerDb, RecoveryDb, Answered, Planned, NextHandlers,
         NextCommands, NextReady;
    PlanningKeepsRow(w, ev, e);
    var run :| run in w.plans && e in w.plans[run].remaining;
    assert run in Step(w, ev).plans && e in Step(w, ev).plans[run].remaining;
  }

  lemma PlanningHoldsOne(w: World, ev: Event, q: QueueId, e: ExecutionId)
    requires w.db.WellFormed() && Allowed(w, ev) && ev.PlanRun?
    requires InPlan(w, e) ==> e in w.db.executions
    requires e in NextDb(w, ev).executions && NextDb(w, ev).WellFormed()
    requires InPlan(Step(w, ev), e)
    requires NextDb(w, ev).JobOf(e).queueId == q && !Active(NextDb(w, ev).executions[e].status)
    ensures e in ChosenFor(w, ev, q) || e in Unmarked(w, q)
  {
    hide ActionOn, Perform, JobServiceDb, ExecutionServiceDb, WorkerDb, RecoveryDb, IsCandidatePage, AnsweredDue,
         Planned, Chosen, InPlan, ChosenIn, Active;
    PlansGrowByPlanning(w, ev, e);
    if InPlan(w, e) {
      PlanningKeepsRow(w, ev, e);
    } else {
      ChosenIsIn(NextDb(w, ev), ev.now, ev.batchSize, ev.answers.candidates, e);
    }
  }

  lemma PlanningKeepsRow(w: World, ev: Event, e: ExecutionId)
    requires w.db.WellFormed() && Allowed(w, ev) && ev.PlanRun? && e in w.db.executions
    ensures NextDb(w, ev).WellFormed() && e in NextDb(w, ev).executions
    ensures NextDb(w, ev).executions[e] == w.db.executions[e] && NextDb(w, ev).JobOf(e) == w.db.JobOf(e)
  {
    hide Planned, AnsweredDue, IsCandidatePage, JobServiceDb, ExecutionServiceDb, WorkerDb, RecoveryDb, IsNew;
    PlannedOnlyAdds(w.db, ev.answers, ev.now, ev.batchSize);
  }

  lemma PlanningKeepsActive(w: World, ev: Event, q: QueueId)
    requires w.db.WellFormed() && Allowed(w, ev) && ev.PlanRun?
    ensures NextDb(w, ev).WellFormed()
    ensures ActiveIn(NextDb(w, ev), q) == ActiveIn(w.db, q) <= Holding(w, q)
    ensures NextDb(w, ev).queues == w.db.queues
  {
    hide ActionOn, Perform, Planned, AnsweredDue, IsCandidatePage, JobServiceDb, ExecutionServiceDb, WorkerDb,
         RecoveryDb;
    PlannedOnlyAdds(w.db, ev.answers, ev.now, ev.batchSize);
    AddingKeepsActive(w.db, NextDb(w, ev), q);
  }

  lemma AddingKeepsActive(db: Db, next: Db, q: QueueId)
    requires db.WellFormed() && next.WellFormed() && OnlyAdds(db, next)
    ensures ActiveIn(next, q) == ActiveIn(db, q)
  {
    forall e | e in next.executions
      ensures e in ActiveIn(next, q) <==> e in ActiveIn(db, q)
    {
      assert e !in db.executions ==> IsNew(next.executions[e]);
    }
  }

  lemma UnionBound(a: set<ExecutionId>, b: set<ExecutionId>, c: set<ExecutionId>, d: set<ExecutionId>)
    requires d <= a + b + c
    ensures |d| <= |a| + |b| + |c|
  {
    SubsetBound(d, a + b + c);
    assert |a + b + c| <= |a + b| + |c|;
    assert |a + b| <= |a| + |b|;
  }

  lemma PlanningBound(w: World, ev: Event, q: QueueId, bound: nat)
    requires w.db.WellFormed() && Allowed(w, ev) && ev.PlanRun? && q in w.db.queues
    requires forall e :: InPlan(w, e) ==> e in w.db.executions
    requires |Holding(w, q)| <= bound && w.db.queues[q].concurrencyLimit <= bound
    ensures |Holding(Step(w, ev), q)| <= bound + |Unmarked(w, q)|
  {
    hide ActionOn, Perform, NextDb;
    var db, cs := NextDb(w, ev), ev.answers.candidates;
    NextDbWellFormed(w, ev);
    PlanningKeepsActive(w, ev, q);
    SubsetBound(ActiveIn(db, q), Holding(w, q));
    ChoiceFits(db, cs, ev.batchSize, q);
    PlanningHolds(w, ev, q);
    UnionBound(ActiveIn(db, q), ChosenFor(w, ev, q), Unmarked(w, q), Holding(Step(w, ev), q));
  }

  // Any other event.

  /** An action makes an execution active only by marking it or by claiming it from
      RETRY_SCHEDULED. */
  lemma BecomesActive(row: Execution, job: Job, action: Action)
    requires Shape(row) && Possible(row, job, action)
    requires !Active(row.status) && Active(Perform(row, job, action).status)
    ensures action.MarkedQueued? || (action.Claimed? && row.status == RetryScheduled)
  {
  }

  lemma ClaimedIsTarget(w: World, ev: Event, e: ExecutionId)
    requires w.db.WellFormed() && e in w.db.executions && ActionOn(w, ev, e).Claimed?
    ensures Target(w, ev) == e
  {
  }

  /** Without planning, an execution starts holding its queue only by a stale claim. */
  lemma HoldsOnlyByStaleClaim(t: Trace, e: ExecutionId, q: QueueId)
    requires IsRun(t) && t.Then? && !t.event.PlanRun?
    requires e in Now(t).db.executions && Holds(Now(t), e, q)
    ensures e in Now(t.before).db.executions
    ensures Holds(Now(t.before), e, q) || StaleClaim(Now(t.before), t.event, e, q)
  {
    hide ActionOn, Perform, NextDb;
    var w := Now(t.before);
    if InPlan(Now(t), e) {
      PlansGrowByPlanning(w, t.event, e);
      PlansExist(t.before, e);
    }
    if e !in w.db.executions {
      Birth(t, e);
    }
    Advance(t, e);
    StepJobs(w, t.event);
    PerformKeepsJob(LastRow(t, e), LastJob(t, e), LastAction(t, e));
    if !Holds(w, e, q) {
      BecomesActive(LastRow(t, e), LastJob(t, e), LastAction(t, e));
      if LastAction(t, e).MarkedQueued? {
        MarkingIsPlanned(w, t.event, e);
      }
    }
  }

  lemma OtherBound(t: Trace, q: QueueId)
    requires IsRun(t) && t.Then? && !t.event.PlanRun?
    ensures |Holding(Now(t), q)| <= |Holding(Now(t.before), q)|
                                    + One(StaleClaim(Now(t.before), t.event, Target(Now(t.before), t.event), q))
  {
    hide ActionOn, Perform, NextDb;
    var w, target := Now(t.before), Target(Now(t.before), t.event);
    var extra := if StaleClaim(w, t.event, target, q) then {target} else {};
    forall e | e in Holding(Now(t), q)
      ensures e in Holding(w, q) + extra
    {
      HoldsOnlyByStaleClaim(t, e, q);
      if StaleClaim(w, t.event, e, q) {
        ClaimedIsTarget(w, t.event, e);
      }
    }
    UnionBound(Holding(w, q), extra, {}, Holding(Now(t), q));
  }

  /** Exactly: a successful claim adds one to its queue's holders if it is stale, and nothing
      otherwise. */
  lemma ClaimCost(t: Trace, q: QueueId)
    requires IsRun(t) && t.Then? && t.event.ClaimOrCancel?
    requires var e := Target(Now(t.before), t.event); Continues(t, e) && LastAction(t, e).Claimed?
    ensures |Holding(Now(t), q)| == |Holding(Now(t.before), q)|
                                    + One(StaleClaim(Now(t.before), t.event, Target(Now(t.before), t.event), q))
  {
    hide ActionOn, Perform, NextDb, Allowed, Step, Target;
    var w, target := Now(t.before), Target(Now(t.before), t.event);
    OtherBound(t, q);
    ClaimKeepsAll(t, q);
    if StaleClaim(w, t.event, target, q) {
      ClaimKeepsHolding(t, q, target);
      SubsetBound(Holding(w, q) + {target}, Holding(Now(t), q));
    } else {
      SubsetBound(Holding(w, q), Holding(Now(t), q));
    }
  }

  lemma ClaimKeepsAll(t: Trace, q: QueueId)
    requires IsRun(t) && t.Then? && t.event.ClaimOrCancel?
    requires var e := Target(Now(t.before), t.event); Continues(t, e) && LastAction(t, e).Claimed?
    ensures Holding(Now(t.before), q) <= Holding(Now(t), q)
  {
    hide ActionOn, Perform, NextDb, Allowed;
    forall e | e in Holding(Now(t.before), q)
      ensures e in Holding(Now(t), q)
    {
      ClaimKeepsHolding(t, q, e);
    }
  }

  lemma ClaimKeepsHolding(t: Trace, q: QueueId, e: ExecutionId)
    requires Continues(t, e) && t.event.ClaimOrCancel?
    requires var target := Target(Now(t.before), t.event); Continues(t, target) && LastAction(t, target).Claimed?
    requires Holds(Now(t.before), e, q) || StaleClaim(Now(t.before), t.event, e, q)
    ensures e in Now(t).db.executions && Holds(Now(t), e, q)
  {
    hide ActionOn, Perform, NextDb;
    var w := Now(t.before);
    Advance(t, e);
    StepJobs(w, t.event);
    PerformKeepsJob(LastRow(t, e), LastJob(t, e), LastAction(t, e));
    ClaimKeepsOthers(w, t.event, e);
    ClaimActivates(LastRow(t, e), LastJob(t, e), LastAction(t, e));
    ClaimKeepsPlans(w, t.event, e);
  }

  lemma ClaimKeepsPlans(w: World, ev: Event, e: ExecutionId)
    requires w.db.WellFormed() && Allowed(w, ev) && ev.ClaimOrCancel?
    ensures InPlan(Step(w, ev), e) <==> InPlan(w, e)
  {
    assert Step(w, ev).plans == w.plans;
  }

  lemma ClaimActivates(row: Execution, job: Job, action: Action)
    requires action.Claimed? || action.Untouched?
    ensures Active(Perform(row, job, action).status) <==> action.Claimed? || Active(row.status)
  {
  }

  lemma ClaimKeepsOthers(w: World, ev: Event, e: ExecutionId)
    requires w.db.WellFormed() && e in w.db.executions && ev.ClaimOrCancel?
    ensures ActionOn(w, ev, e).Untouched? || e == Target(w, ev)
  {
  }

  // Every run.

  lemma QueueKept(t: Trace, q: QueueId)
    requires IsRun(t) && t.Then? && q in Now(t).db.queues
    ensures q in Now(t.before).db.queues
    ensures Now(t).db.queues[q].concurrencyLimit == Now(t.before).db.queues[q].concurrencyLimit
  {
    hide ActionOn, Perform;
    if By(t.event) == JobService {
      JobServiceKeepsLimits(Now(t.before).db, t.event, q);
    } else {
      OthersLeaveJobs(Now(t.before), t.event);
    }
  }

  lemma JobServiceKeepsLimits(db: Db, ev: Event, q: QueueId)
    requires q in JobServiceDb(db, ev).queues
    ensures q in db.queues && JobServiceDb(db, ev).queues[q].concurrencyLimit == db.queues[q].concurrencyLimit
  {
  }

  /** In every reachable state, whatever the interleaving, the executions of a queue that are queued,
      running or planned exceed its limit by no more than the stale claims so far and the
      executions overlapping planning runs had left unmarked. */
  lemma {:induction false} QueueConcurrency(t: Trace, q: QueueId)
    requires IsRun(t) && q in Now(t).db.queues
    ensures |Holding(Now(t), q)|
         <= Now(t).db.queues[q].concurrencyLimit + StaleClaims(t, q) + Overlaps(t, q)
  {
    hide ActionOn, Perform, NextDb;
    match t
    case Start(w) =>
      assert Holding(w, q) == {};
    case Then(before, event) =>
      QueueKept(t, q);
      QueueConcurrency(before, q);
      if event.PlanRun? {
        forall e | InPlan(Now(before), e) ensures e in Now(before).db.executions {
          PlansExist(before, e);
        }
        PlanningBound(Now(before), event, q,
                      Now(t).db.queues[q].concurrencyLimit + StaleClaims(before, q) + Overlaps(before, q));
      } else {
        OtherBound(t, q);
      }
  }

  // The exact condition for the limit itself.

  ghost predicate Within(w: World, q: QueueId)
    requires w.db.WellFormed()
  {
    q in w.db.queues && |Holding(w, q)| <= w.db.queues[q].concurrencyLimit
  }

  /** A planning run that finds so much unmarked that its choice does not fit beside it, or a stale
      claim at a full queue. */
  ghost predicate Exceeds(w: World, ev: Event, q: QueueId)
    requires w.db.WellFormed() && Allowed(w, ev) && NextDb(w, ev).WellFormed() && q in w.db.queues
  {
    var limit := w.db.queues[q].concurrencyLimit;
    || (ev.PlanRun? && |ActiveIn(w.db, q) + ChosenFor(w, ev, q) + Unmarked(w, q)| > limit)
    || (StaleClaim(w, ev, Target(w, ev), q) && |Holding(w, q)| == limit)
  }

  lemma OnlyClaimsClaim(w: World, ev: Event, e: ExecutionId)
    requires w.db.WellFormed() && e in w.db.executions && ActionOn(w, ev, e).Claimed?
    ensures ev.ClaimOrCancel?
  {
  }

  lemma QueuesStay(w: World, ev: Event, q: QueueId)
    requires w.db.WellFormed() && Allowed(w, ev) && q in w.db.queues
    ensures q in Step(w, ev).db.queues
  {
    hide NextDb, Allowed;
    StepJobs(w, ev);
  }

  /** From a state within the limit, exactly these two kinds of event take a queue past it. */
  lemma LimitCrossedExactly(t: Trace, q: QueueId)
    requires IsRun(t) && t.Then? && Within(Now(t.before), q)
    ensures NextDb(Now(t.before), t.event).WellFormed()
    ensures !Within(Now(t), q) <==> Exceeds(Now(t.before), t.event, q)
  {
    hide ActionOn, Perform, NextDb, Allowed, StaleClaim, ChosenFor;
    var w, target := Now(t.before), Target(Now(t.before), t.event);
    NextDbWellFormed(w, t.event);
    QueuesStay(w, t.event, q);
    QueueKept(t, q);
    if t.event.PlanRun? {
      forall e | InPlan(w, e) ensures e in w.db.executions {
        PlansExist(t.before, e);
      }
      PlanningHolds(w, t.event, q);
      PlanningIsNoClaim(w, t.event, target, q);
    } else {
      OtherBound(t, q);
      if StaleClaim(w, t.event, target, q) {
        StaleClaimClaims(t, target, q);
        ClaimCost(t, q);
      }
    }
  }

  lemma PlanningIsNoClaim(w: World, ev: Event, e: ExecutionId, q: QueueId)
    requires w.db.WellFormed() && ev.PlanRun?
    ensures !StaleClaim(w, ev, e, q)
  {
  }

  lemma StaleClaimClaims(t: Trace, e: ExecutionId, q: QueueId)
    requires IsRun(t) && t.Then? && StaleClaim(Now(t.before), t.event, e, q)
    ensures Continues(t, e) && LastAction(t, e).Claimed? && t.event.ClaimOrCancel?
  {
    hide ActionOn, Perform, NextDb, Allowed;
    OnlyClaimsClaim(Now(t.before), t.event, e);
  }

  /** The queue is within its limit in every state from `from` to `t`. */
  ghost predicate StaysWithin(from: Trace, t: Trace, q: QueueId)
    requires IsRun(t)
  {
    Within(Now(t), q) && (t != from && t.Then? ==> StaysWithin(from, t.before, q))
  }

  /** No event from `from` to `t` exceeds it. */
  ghost predicate NothingExceeds(from: Trace, t: Trace, q: QueueId)
    requires IsRun(t)
  {
    t != from && t.Then? ==>
      && NothingExceeds(from, t.before, q)
      && q in Now(t.before).db.queues && NextDb(Now(t.before), t.event).WellFormed()
      && !Exceeds(Now(t.before), t.event, q)
  }

  /** From any state within the limit, it holds for as long as no planning run and no stale claim
      exceeds it, and no longer. */
  lemma {:induction false} ConcurrencyLimitHolds(from: Trace, t: Trace, q: QueueId)
    requires IsRun(from) && IsRun(t) && Extends(from, t) && Within(Now(from), q)
    ensures StaysWithin(from, t, q) <==> NothingExceeds(from, t, q)
    ensures StaysWithin(from, t, q) ==> |ActiveIn(Now(t).db, q)| <= Now(t).db.queues[q].concurrencyLimit
    decreases t
  {
    hide ActionOn, Perform, NextDb, Allowed, Exceeds, Step;
    SubsetBound(ActiveIn(Now(t).db, q), Holding(Now(t), q));
    if t != from {
      ConcurrencyLimitHolds(from, t.before, q);
      if Within(Now(t.before), q) {
        LimitCrossedExactly(t, q);
      } else {
        assert !StaysWithin(from, t.before, q);
      }
    }
  }

  /** Every run starts within it. */
  lemma StartsWithin(w: World, q: QueueId)
    requires Initial(w) && q in w.db.queues
    ensures Within(w, q)
  {
    assert Holding(w, q) == {};
  }
}
