/** What holds of every execution in every state any run can reach. */
module Lifecycle {
  import opened Schema
  import opened Attempts
  import opened World
  import Scheduler

  /** The columns that must agree with the status, and the gap-free attempt log. */
  ghost predicate Shape(row: Execution) {
    && (row.status == Running <==> row.lockedByWorkerId.Some?)
    && (row.status == Running ==> row.startedAt.Some? && row.lastHeartbeatAt.Some?)
    && (Terminal(row.status) <==> row.finishedAt.Some?)
    && (Terminal(row.status) <==> row.nextAttemptAt.None?)
    && row.status != Stalled
    && GapFree(row.attempts, row.attemptCount)
  }

  lemma ActionKeepsShape(row: Execution, job: Job, action: Action)
    requires Shape(row) && Possible(row, job, action)
    ensures Shape(Perform(row, job, action))
    ensures action.Reported? || action.Recovered? ==> Perform(row, job, action).attemptCount == row.attemptCount + 1
    ensures !action.Reported? && !action.Recovered? ==> Perform(row, job, action).attemptCount == row.attemptCount
  {
    LatestOfGapFree(row.attempts);
  }

  lemma NewRowHasShape(row: Execution)
    requires Scheduler.IsNew(row)
    ensures Shape(row)
  {
  }

  /** The lifecycle shape, in every reachable state. */
  lemma {:induction false} ShapeAlways(t: Trace, e: ExecutionId)
    requires IsRun(t) && e in Now(t).db.executions
    ensures Shape(Now(t).db.executions[e])
  {
    hide ActionOn, Perform, NextDb;
    match t
    case Start(_) =>
    case Then(before, event) =>
      var w := Now(before);
      if e in w.db.executions {
        ShapeAlways(before, e);
        StepActs(w, event, e);
        ActionKeepsShape(w.db.executions[e], w.db.JobOf(e), ActionOn(w, event, e));
      } else {
        StepCreates(w, event);
        NewRowHasShape(Now(t).db.executions[e]);
      }
  }

  /** What changes a terminal status: a manual retry, a requeue, or a recovery commit that reschedules,
      fails or cancels what ended since it was read. */
  predicate LeavesTerminal(row: Execution, job: Job, action: Action) {
    match action
    case Reopened(_) => row.status == Failed || row.status == Canceled
    case Requeued(_) => true
    case Recovered(_, _) => row.attemptCount + 1 < job.maxAttempts || row.status != Failed
    case Overruled(_) => row.status != Canceled
    case _ => false
  }

  lemma ActionLeavesTerminal(row: Execution, job: Job, action: Action)
    requires Shape(row) && Possible(row, job, action) && Terminal(row.status)
    ensures Perform(row, job, action).status != row.status <==> LeavesTerminal(row, job, action)
  {
    LatestOfGapFree(row.attempts);
  }

  // Counting what happened to one execution along a run.

  /** Orphans are recovery commits that add an attempt to an execution that is not running any more;
      overrulings are those that cancel one. */
  datatype Kind =
    | Claims | Endings | Abandonments | Reopenings | Requeues | Orphans | Overrulings | Steps | FinalFailures

  predicate Is(kind: Kind, row: Execution, job: Job, action: Action) {
    match kind
    case Claims => action.Claimed?
    case Endings => action.Reported? || action.Recovered?
    case Abandonments =>
      row.status == Running && (action.Dropped? || action.Swept? || action.Requeued? || action.Overruled?)
    case Reopenings => action.Reopened? || action.Requeued?
    case Requeues => action.Requeued?
    case Orphans => action.Recovered? && row.status != Running
    case Overrulings => action.Overruled? && row.status != Running
    case Steps => action.MarkedQueued? || action.Claimed? || action.Reported? || action.Recovered?
                  || action.Dropped? || action.Swept? || action.Overruled?
    case FinalFailures => action.Reported? && ReportPatch(row, job, action.seen, action.result, action.at).deadLettered
  }

  ghost predicate Happens(w: World, ev: Event, e: ExecutionId, kind: Kind)
    requires w.db.WellFormed()
  {
    e in w.db.executions && Is(kind, w.db.executions[e], w.db.JobOf(e), ActionOn(w, ev, e))
  }

  ghost function Count(t: Trace, e: ExecutionId, kind: Kind): nat
    requires IsRun(t)
  {
    match t
    case Start(_) => 0
    case Then(before, event) => Count(before, e, kind) + if Happens(Now(before), event, e, kind) then 1 else 0
  }

  lemma {:induction false} NothingBeforeCreation(t: Trace, e: ExecutionId, kind: Kind)
    requires IsRun(t) && e !in Now(t).db.executions
    ensures Count(t, e, kind) == 0
  {
    hide ActionOn, Perform, NextDb;
    match t
    case Start(_) =>
    case Then(before, event) =>
      if e in Now(before).db.executions {
        StepActs(Now(before), event, e);
      }
      NothingBeforeCreation(before, e, kind);
  }

  // The last event of a run, as an action on one execution.

  ghost predicate Continues(t: Trace, e: ExecutionId) {
    IsRun(t) && t.Then? && e in Now(t.before).db.executions
  }

  ghost function LastRow(t: Trace, e: ExecutionId): Execution
    requires Continues(t, e)
  {
    Now(t.before).db.executions[e]
  }

  ghost function LastJob(t: Trace, e: ExecutionId): Job
    requires Continues(t, e)
  {
    Now(t.before).db.JobOf(e)
  }

  ghost function LastAction(t: Trace, e: ExecutionId): Action
    requires Continues(t, e)
  {
    ActionOn(Now(t.before), t.event, e)
  }

  lemma Advance(t: Trace, e: ExecutionId)
    requires Continues(t, e)
    ensures Shape(LastRow(t, e)) && Possible(LastRow(t, e), LastJob(t, e), LastAction(t, e))
    ensures e in Now(t).db.executions
    ensures Now(t).db.executions[e] == Perform(LastRow(t, e), LastJob(t, e), LastAction(t, e))
    ensures forall kind :: Count(t, e, kind)
                           == Count(t.before, e, kind) + One(Is(kind, LastRow(t, e), LastJob(t, e), LastAction(t, e)))
  {
    hide ActionOn, Perform, NextDb;
    ShapeAlways(t.before, e);
    StepActs(Now(t.before), t.event, e);
  }

  /** A terminal status is left exactly by a manual retry of a failed or canceled execution, by a
      dead-letter requeue, or by a recovery commit late enough to find what it recovers ended. */
  lemma TerminalLeftExactly(t: Trace, e: ExecutionId)
    requires Continues(t, e) && Terminal(LastRow(t, e).status)
    ensures e in Now(t).db.executions
    ensures Now(t).db.executions[e].status != LastRow(t, e).status
            <==> LeavesTerminal(LastRow(t, e), LastJob(t, e), LastAction(t, e))
  {
    hide ActionOn, Perform, NextDb, LeavesTerminal;
    Advance(t, e);
    ActionLeavesTerminal(LastRow(t, e), LastJob(t, e), LastAction(t, e));
  }

  lemma Birth(t: Trace, e: ExecutionId)
    requires IsRun(t) && t.Then? && e !in Now(t.before).db.executions && e in Now(t).db.executions
    ensures Scheduler.IsNew(Now(t).db.executions[e])
    ensures forall kind :: Count(t, e, kind) == 0
  {
    hide ActionOn, Perform, NextDb;
    StepCreates(Now(t.before), t.event);
    forall kind ensures Count(t, e, kind) == 0 {
      NothingBeforeCreation(t.before, e, kind);
    }
  }

  lemma ActionConserves(row: Execution, job: Job, action: Action)
    requires Shape(row) && Possible(row, job, action)
    ensures One(row.status == Running) + One(Is(Claims, row, job, action)) + One(Is(Orphans, row, job, action))
         == One(Perform(row, job, action).status == Running)
            + One(Is(Endings, row, job, action)) + One(Is(Abandonments, row, job, action))
  {
  }

  /** Every successful claim ended in exactly one recorded attempt, or was abandoned, or is still
      running; the orphans are the attempts no claim stands for. */
  lemma {:induction false} ClaimConservation(t: Trace, e: ExecutionId)
    requires IsRun(t) && e in Now(t).db.executions
    ensures Count(t, e, Claims) + Count(t, e, Orphans)
         == Count(t, e, Endings) + Count(t, e, Abandonments) + One(Now(t).db.executions[e].status == Running)
  {
    hide ActionOn, Perform, NextDb;
    if Continues(t, e) {
      ClaimConservation(t.before, e);
      Advance(t, e);
      ActionConserves(LastRow(t, e), LastJob(t, e), LastAction(t, e));
    } else if t.Then? {
      Birth(t, e);
    }
  }

  /** The log holds exactly the recorded attempts, numbered 1, 2, ... up to the attempt count. */
  lemma {:induction false} LogHoldsEveryEnding(t: Trace, e: ExecutionId)
    requires IsRun(t) && e in Now(t).db.executions
    ensures var row := Now(t).db.executions[e];
            Count(t, e, Endings) == row.attemptCount && GapFree(row.attempts, row.attemptCount)
  {
    hide ActionOn, Perform, NextDb;
    ShapeAlways(t, e);
    if Continues(t, e) {
      LogHoldsEveryEnding(t.before, e);
      Advance(t, e);
      ActionKeepsShape(LastRow(t, e), LastJob(t, e), LastAction(t, e));
    } else if t.Then? {
      Birth(t, e);
    }
  }

  /** The retry limit of an execution's job; it does not change during a run. */
  ghost function Limit(t: Trace, e: ExecutionId): nat
    requires IsRun(t) && e in Now(t).db.executions
  {
    Now(t).db.JobOf(e).maxAttempts
  }

  lemma {:induction false} LimitsPositive(t: Trace)
    requires IsRun(t)
    ensures forall j :: j in Now(t).db.jobs ==> 1 <= Now(t).db.jobs[j].maxAttempts
  {
    hide ActionOn, Perform, NextDb;
    match t
    case Start(_) =>
    case Then(before, event) =>
      LimitsPositive(before);
      StepJobs(Now(before), event);
  }

  lemma LimitFixed(t: Trace, e: ExecutionId)
    requires Continues(t, e)
    ensures e in Now(t).db.executions && Limit(t, e) == Limit(t.before, e) == LastJob(t, e).maxAttempts >= 1
  {
    hide ActionOn, Perform, NextDb;
    Advance(t, e);
    StepJobs(Now(t.before), t.event);
    LimitsPositive(t.before);
    PerformKeepsJob(LastRow(t, e), LastJob(t, e), LastAction(t, e));
  }

  lemma PerformKeepsJob(row: Execution, job: Job, action: Action)
    ensures Perform(row, job, action).jobId == row.jobId
  {
  }

  /** One action against a budget of `limit` attempts plus the reopenings and orphans so far. */
  lemma ActionKeepsBudget(row: Execution, job: Job, action: Action, k: nat)
    requires Shape(row) && Possible(row, job, action)
    requires row.attemptCount + One(!Terminal(row.status)) <= job.maxAttempts + k
    ensures var next := Perform(row, job, action);
            next.attemptCount + One(!Terminal(next.status))
            <= job.maxAttempts + k + One(Is(Reopenings, row, job, action)) + One(Is(Orphans, row, job, action))
  {
    LatestOfGapFree(row.attempts);
  }

  /** Attempts never exceed the job's limit plus the manual reopenings and the orphans, and stay
      strictly below while the execution is not terminal. */
  lemma {:induction false} AttemptBudget(t: Trace, e: ExecutionId)
    requires IsRun(t) && e in Now(t).db.executions
    ensures var row := Now(t).db.executions[e];
            row.attemptCount + One(!Terminal(row.status))
            <= Limit(t, e) + Count(t, e, Reopenings) + Count(t, e, Orphans)
  {
    hide ActionOn, Perform, NextDb;
    if Continues(t, e) {
      AttemptBudget(t.before, e);
      Advance(t, e);
      LimitFixed(t, e);
      ActionKeepsBudget(LastRow(t, e), LastJob(t, e), LastAction(t, e),
                        Count(t.before, e, Reopenings) + Count(t.before, e, Orphans));
    } else if t.Then? {
      Birth(t, e);
      LimitsPositive(t);
    }
  }

  /** How many more steps an execution can take without being reopened: three for every attempt it
      has left (at least one), less those of the current round already taken. */
  function Potential(row: Execution, limit: nat): nat
    requires 1 <= limit
  {
    if Terminal(row.status) then 0
    else
      3 * (if row.attemptCount < limit then limit - row.attemptCount else 1)
      - (if row.status == Queued then 1 else if row.status == Running then 2 else 0)
  }

  /** What can give an execution another round: a reopening, or a recovery commit that comes late. */
  predicate Renews(row: Execution, job: Job, action: Action) {
    Is(Reopenings, row, job, action) || Is(Orphans, row, job, action) || Is(Overrulings, row, job, action)
  }

  /** Every mark, claim, recorded attempt, recovery or cancel lowers the potential; only what renews it
      raises it, by at most one round of three steps per attempt. */
  lemma StepsLowerPotential(row: Execution, job: Job, action: Action)
    requires Shape(row) && Possible(row, job, action) && 1 <= job.maxAttempts
    ensures var before, after := Potential(row, job.maxAttempts), Potential(Perform(row, job, action), job.maxAttempts);
            && (!Renews(row, job, action) ==>
                  if Is(Steps, row, job, action) then after < before else after == before)
            && after + One(Is(Steps, row, job, action)) <= 3 * job.maxAttempts
  {
    LatestOfGapFree(row.attempts);
  }

  /** How often an execution was renewed. */
  ghost function Renewals(t: Trace, e: ExecutionId): nat
    requires IsRun(t)
  {
    Count(t, e, Reopenings) + Count(t, e, Orphans) + Count(t, e, Overrulings)
  }

  /** `limit` steps three times over, once more for every renewal. */
  function Allowance(limit: nat, renewals: nat): nat {
    if renewals == 0 then 3 * limit else Allowance(limit, renewals - 1) + 3 * limit
  }

  lemma {:induction false} StepsWithinAllowance(t: Trace, e: ExecutionId)
    requires IsRun(t) && e in Now(t).db.executions
    ensures 1 <= Limit(t, e)
    ensures Count(t, e, Steps) + Potential(Now(t).db.executions[e], Limit(t, e))
         <= Allowance(Limit(t, e), Renewals(t, e))
  {
    hide ActionOn, Perform, NextDb;
    LimitsPositive(t);
    if Continues(t, e) {
      StepsWithinAllowance(t.before, e);
      AdvancePotential(t, e);
      Accumulate(Limit(t, e), Count(t.before, e, Steps), Potential(LastRow(t, e), Limit(t, e)),
                 Renewals(t.before, e), Count(t, e, Steps),
                 Potential(Now(t).db.executions[e], Limit(t, e)), Renewals(t, e));
    } else if t.Then? {
      Birth(t, e);
    }
  }

  /** One event against the potential: a step pays for itself, a renewal adds at most one round. */
  lemma AdvancePotential(t: Trace, e: ExecutionId)
    requires Continues(t, e)
    ensures e in Now(t).db.executions && 1 <= Limit(t, e) == Limit(t.before, e)
    ensures var steps := Count(t, e, Steps) - Count(t.before, e, Steps);
            var renewed := Renewals(t, e) - Renewals(t.before, e);
            && 0 <= renewed <= 1
            && steps + Potential(Now(t).db.executions[e], Limit(t, e))
               <= Potential(LastRow(t, e), Limit(t, e)) + if 0 < renewed then 3 * Limit(t, e) else 0
  {
    hide ActionOn, Perform, NextDb, Potential, Db.WellFormed, Step, Allowed;
    Advance(t, e);
    LimitFixed(t, e);
    StepsLowerPotential(LastRow(t, e), LastJob(t, e), LastAction(t, e));
  }

  lemma Accumulate(limit: nat, steps: nat, potential: nat, k: nat, steps': nat, potential': nat, k': nat)
    requires steps + potential <= Allowance(limit, k) && k <= k' <= k + 1
    requires steps' - steps + potential' <= potential + if k < k' then 3 * limit else 0
    ensures steps' + potential' <= Allowance(limit, k')
  {
  }

  lemma {:induction false} AllowanceClosed(limit: nat, k: nat)
    ensures Allowance(limit, k) == 3 * limit * (1 + k)
  {
    if k > 0 {
      AllowanceClosed(limit, k - 1);
      assert 3 * limit * (1 + k) == 3 * limit * k + 3 * limit;
    }
  }

  /** Without reopenings and late recovery commits an execution takes at most three marks, claims,
      recordings, recoveries or cancels per allowed attempt; each of those buys at most as many
      again. */
  lemma LifecycleTerminates(t: Trace, e: ExecutionId)
    requires IsRun(t) && e in Now(t).db.executions
    ensures Count(t, e, Steps)
         <= 3 * Limit(t, e) * (1 + Count(t, e, Reopenings) + Count(t, e, Orphans) + Count(t, e, Overrulings))
  {
    hide ActionOn, Perform, NextDb, Db.WellFormed, Step, Allowed;
    var steps, limit, k := Count(t, e, Steps), Limit(t, e), Renewals(t, e);
    assert steps <= Allowance(limit, k) by {
      StepsWithinAllowance(t, e);
    }
    AllowanceClosed(limit, k);
  }

  // Signs of life.

  function SignAfter(sign: Option<Time>, action: Action): Option<Time> {
    match action
    case Claimed(_, at) => Some(at)
    case Beaten(at) => Some(at)
    case _ => sign
  }

  /** When the execution was last claimed, or its heartbeat last refreshed. */
  ghost function LastSign(t: Trace, e: ExecutionId): Option<Time>
    requires IsRun(t)
  {
    match t
    case Start(_) => None
    case Then(before, event) =>
      if e in Now(before).db.executions then SignAfter(LastSign(before, e), ActionOn(Now(before), event, e)) else None
  }

  lemma ActionKeepsSign(row: Execution, job: Job, action: Action, sign: Option<Time>)
    requires Shape(row) && Possible(row, job, action)
    requires row.status == Running ==> row.lastHeartbeatAt == sign
    ensures var next := Perform(row, job, action);
            next.status == Running ==> next.lastHeartbeatAt == SignAfter(sign, action) && SignAfter(sign, action).Some?
  {
    LatestOfGapFree(row.attempts);
  }

  /** The heartbeat of a running execution is the last sign of life since it was claimed. */
  lemma {:induction false} HeartbeatIsLastSign(t: Trace, e: ExecutionId)
    requires IsRun(t) && e in Now(t).db.executions && Now(t).db.executions[e].status == Running
    ensures Now(t).db.executions[e].lastHeartbeatAt == LastSign(t, e) && LastSign(t, e).Some?
  {
    hide Db.WellFormed, ActionOn, Perform, NextDb, Shape, Possible;
    if Continues(t, e) {
      Advance(t, e);
      if LastRow(t, e).status == Running {
        HeartbeatIsLastSign(t.before, e);
      }
      ActionKeepsSign(LastRow(t, e), LastJob(t, e), LastAction(t, e), LastSign(t.before, e));
    } else if t.Then? {
      Birth(t, e);
    }
  }

  /** Recovery takes an execution on exactly if it is running and was neither claimed nor refreshed at
      or after the threshold. */
  lemma RecoveryReadsOnlyTheSilent(t: Trace, tag: Tag, e: ExecutionId, staleBefore: Time)
    requires IsRun(t) && t.Then? && t.event == ReadStale(tag, e, staleBefore)
    ensures tag in Now(t).commands
            <==> && e in Now(t.before).db.executions && Now(t.before).db.executions[e].status == Running
                 && LastSign(t.before, e).Some? && LastSign(t.before, e).value < staleBefore
  {
    hide Db.WellFormed, ActionOn, Perform, NextDb;
    if e in Now(t.before).db.executions && Now(t.before).db.executions[e].status == Running {
      HeartbeatIsLastSign(t.before, e);
    }
  }
}
