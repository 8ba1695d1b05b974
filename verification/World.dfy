/** The whole system as a state machine: the database, the broker's ready queue, the deliveries the
    workers are handling, the commands between their read and their update, and the dispatch runs
    still publishing. One event is one read, one committed update or one broker action. */
module World {
  import opened Schema
  import opened Attempts
  import opened ExecutionCommands
  import opened JobCommands
  import opened Worker
  import opened Recovery
  import opened RecoveryPlan
  import opened Scheduler

  type Tag = nat
  type RunId = nat

  /** A delivery: handed over, past the worker's first read, past its claim, or in the recording
      transaction that read the job with the status `seen`. */
  datatype Handler =
    | Delivered(worker: WorkerId, id: ExecutionId)
    | Observed(worker: WorkerId, id: ExecutionId, jobDeleted: bool)
    | Executing(worker: WorkerId, id: ExecutionId)
    | Reporting(worker: WorkerId, id: ExecutionId, seen: JobStatus)

  /** A command that has read what it decides on and has not updated yet. */
  datatype Command =
    | Switching(job: JobId, status: Settable)
    | Retrying(id: ExecutionId, observed: Reopenable, retryAt: Time)
    | Requeuing(message: DeadLetterId, id: ExecutionId)
    | Discarding(message: DeadLetterId)
    | Recovering(id: ExecutionId, seen: JobStatus, holder: Option<WorkerId>)

  /** A run's chosen ids that are not marked yet; `published` tells whether the first was sent. */
  datatype Publication = Publication(remaining: seq<ExecutionId>, published: bool)

  datatype World = World(
    db: Db,
    ready: multiset<ExecutionId>,
    handlers: map<Tag, Handler>,
    commands: map<Tag, Command>,
    plans: map<RunId, Publication>)

  datatype Event =
    // operators
    | CreateJob(job: JobId, row: Job, nextRunAt: Option<Time>)
    | PostExecution(job: JobId, at: Time)
    | RunJob(job: JobId, at: Time)
    | ReadStatus(tag: Tag, job: JobId, status: Settable)
    | CommitStatus(tag: Tag, job: JobId, status: Settable)
    | RemoveJob(job: JobId, at: Time)
    | SetQueueStatus(queue: QueueId, queueStatus: QueueStatus)
    | CancelExecution(id: ExecutionId, at: Time)
    | ReadRetry(tag: Tag, id: ExecutionId, retryAt: Time)
    | CommitRetry(tag: Tag, id: ExecutionId, observed: Reopenable, retryAt: Time)
    | ReadRequeue(tag: Tag, message: DeadLetterId)
    | CommitRequeue(tag: Tag, message: DeadLetterId, id: ExecutionId, at: Time)
    | ReadDiscard(tag: Tag, message: DeadLetterId)
    | CommitDiscard(tag: Tag, message: DeadLetterId, at: Time)
    // scheduler
    | PlanRun(run: RunId, now: Time, batchSize: nat, answers: Answers)
    | Publish(run: RunId)
    | Mark(run: RunId)
    | EndRun(run: RunId)
    // broker and workers
    | Deliver(tag: Tag, worker: WorkerId, id: ExecutionId)
    | ReadRow(tag: Tag)
    | ClaimOrCancel(tag: Tag, at: Time)
    | ReadReport(tag: Tag)
    | Report(tag: Tag, result: AttemptStatus, at: Time)
    | Settle(tag: Tag, putBack: bool)
    | MalformedMessage
    | Beat(id: ExecutionId, worker: WorkerId, at: Time)
    // recovery
    | SweepDeletedJobs(at: Time)
    | ReadStale(tag: Tag, id: ExecutionId, staleBefore: Time)
    | CommitRecovery(tag: Tag, id: ExecutionId, seen: JobStatus, holder: Option<WorkerId>, at: Time)

  datatype Service = JobService | ExecutionService | SchedulerService | WorkerService | RecoveryLoop

  function By(ev: Event): Service {
    if ev.CreateJob? || ev.RunJob? || ev.ReadStatus? || ev.CommitStatus? || ev.RemoveJob? || ev.SetQueueStatus?
    then JobService
    else if ev.PostExecution? || ev.CancelExecution? || ev.ReadRetry? || ev.CommitRetry? || ev.ReadRequeue?
            || ev.CommitRequeue? || ev.ReadDiscard? || ev.CommitDiscard? || ev.Beat? then ExecutionService
    else if ev.PlanRun? || ev.Publish? || ev.Mark? || ev.EndRun? then SchedulerService
    else if ev.SweepDeletedJobs? || ev.ReadStale? || ev.CommitRecovery? then RecoveryLoop
    else WorkerService
  }

  predicate HasRead(w: World, tag: Tag, command: Command) {
    tag in w.commands && w.commands[tag] == command
  }

  /** The constraints events obey: validated requests, fresh names, true query answers, and no update
      without the read that decided on it. */
  ghost predicate Allowed(w: World, ev: Event)
    requires w.db.WellFormed()
  {
    match ev
    case CreateJob(j, row, _) =>
      j !in w.db.jobs && row.queueId in w.db.queues && row.status == JobActive && 1 <= row.maxAttempts
    case ReadStatus(tag, _, _) => tag !in w.commands
    case CommitStatus(tag, j, status) => HasRead(w, tag, Switching(j, status))
    case ReadRetry(tag, _, _) => tag !in w.commands
    case CommitRetry(tag, id, observed, retryAt) => HasRead(w, tag, Retrying(id, observed, retryAt))
    case ReadRequeue(tag, _) => tag !in w.commands
    case CommitRequeue(tag, d, id, _) => HasRead(w, tag, Requeuing(d, id))
    case ReadDiscard(tag, _) => tag !in w.commands
    case CommitDiscard(tag, d, _) => HasRead(w, tag, Discarding(d))
    case ReadStale(tag, _, _) => tag !in w.commands
    case CommitRecovery(tag, id, seen, holder, _) => HasRead(w, tag, Recovering(id, seen, holder))
    case PlanRun(run, now, batchSize, answers) => run !in w.plans && Answered(w.db, answers, now, batchSize)
    case Deliver(tag, _, id) => tag !in w.handlers && id in w.ready
    case Report(_, result, _) => result != AttemptRunning
    case _ => true
  }

  /** The id a run marks next, once it was published. */
  function MarkTarget(w: World, run: RunId): Option<ExecutionId> {
    if run in w.plans && w.plans[run].published && |w.plans[run].remaining| > 0
    then Some(w.plans[run].remaining[0]) else None
  }

  function JobServiceDb(db: Db, ev: Event): Db {
    match ev
    case CreateJob(j, row, nextRunAt) =>
      db.(jobs := db.jobs[j := row],
          schedules := if nextRunAt.Some? then db.schedules[j := Schedule(nextRunAt.value, None)] else db.schedules)
    case RunJob(j, at) => Run(db, j, at).db
    case CommitStatus(_, j, status) => if j in db.jobs then StatusCommit(db, j, status) else db
    case RemoveJob(j, at) => Delete(db, j, at).db
    case SetQueueStatus(q, status) =>
      if q in db.queues then db.(queues := db.queues[q := db.queues[q].(status := status)]) else db
    case _ => db
  }

  function ExecutionServiceDb(db: Db, ev: Event): Db
    requires db.WellFormed()
  {
    match ev
    case PostExecution(j, at) => if j in db.jobs then CreateExecution(db, j, at) else db
    case CancelExecution(id, at) => Cancel(db, id, at).db
    case CommitRetry(_, id, observed, retryAt) => RetryCommit(db, id, observed, retryAt).db
    case CommitRequeue(_, d, id, at) => RequeueCommit(db, d, id, at).db
    case CommitDiscard(_, d, at) => if d in db.deadLetters then DiscardCommit(db, d, at) else db
    case Beat(id, worker, at) => Heartbeat(db, id, worker, at).db
    case _ => db
  }

  function SchedulerDb(w: World, ev: Event): Db
    requires w.db.WellFormed() && Allowed(w, ev)
  {
    match ev
    case PlanRun(_, now, _, answers) => Planned(w.db, answers, now)
    case Mark(run) => if MarkTarget(w, run).Some? then MarkQueued(w.db, MarkTarget(w, run).value) else w.db
    case _ => w.db
  }

  function WorkerDb(w: World, ev: Event): Db
    requires w.db.WellFormed()
  {
    match ev
    case ClaimOrCancel(tag, at) =>
      if tag in w.handlers && w.handlers[tag].Observed? then
        var h := w.handlers[tag];
        if h.jobDeleted then CancelRunnable(w.db, h.id, at) else Claim(w.db, h.id, h.worker, at)
      else w.db
    case Report(tag, result, at) =>
      if tag in w.handlers && w.handlers[tag].Reporting? then
        var h := w.handlers[tag];
        RecordSeen(w.db, h.id, h.worker, h.seen, result, at)
      else w.db
    case MalformedMessage => CreateDeadLetter(w.db, None, 0)
    case _ => w.db
  }

  function RecoveryDb(db: Db, ev: Event): Db
    requires db.WellFormed()
  {
    match ev
    case SweepDeletedJobs(at) => SweepDeleted(db, at)
    case CommitRecovery(_, id, seen, holder, at) => RecoverCommit(db, id, seen, holder, at)
    case _ => db
  }

  function NextDb(w: World, ev: Event): Db
    requires w.db.WellFormed() && Allowed(w, ev)
  {
    match By(ev)
    case JobService => JobServiceDb(w.db, ev)
    case ExecutionService => ExecutionServiceDb(w.db, ev)
    case SchedulerService => SchedulerDb(w, ev)
    case WorkerService => WorkerDb(w, ev)
    case RecoveryLoop => RecoveryDb(w.db, ev)
  }

  ghost function NextPlans(w: World, ev: Event): map<RunId, Publication>
    requires w.db.WellFormed() && Allowed(w, ev) && NextDb(w, ev).WellFormed()
  {
    match ev
    case PlanRun(run, now, batchSize, answers) =>
      w.plans[run := Publication(Chosen(NextDb(w, ev), answers.candidates, batchSize), false)]
    case Publish(run) =>
      if run in w.plans && |w.plans[run].remaining| > 0
      then w.plans[run := w.plans[run].(published := true)] else w.plans
    case Mark(run) =>
      if MarkTarget(w, run).Some? then w.plans[run := Publication(w.plans[run].remaining[1..], false)] else w.plans
    case EndRun(run) => w.plans - {run}
    case _ => w.plans
  }

  function NextHandlers(w: World, ev: Event): map<Tag, Handler>
    requires w.db.WellFormed()
  {
    match ev
    case Deliver(tag, worker, id) => w.handlers[tag := Delivered(worker, id)]
    case ReadRow(tag) =>
      if tag in w.handlers && w.handlers[tag].Delivered? then
        var h := w.handlers[tag];
        match Observe(w.db, h.id) {
          case Gone => w.handlers - {tag}
          case AlreadyTerminal => w.handlers - {tag}
          case DeletedJob => w.handlers[tag := Observed(h.worker, h.id, true)]
          case MayRun => w.handlers[tag := Observed(h.worker, h.id, false)]
        }
      else w.handlers
    case ClaimOrCancel(tag, _) =>
      if tag in w.handlers && w.handlers[tag].Observed? then
        var h := w.handlers[tag];
        if !h.jobDeleted && h.id in w.db.executions && Claimable(w.db.executions[h.id])
        then w.handlers[tag := Executing(h.worker, h.id)]
        else w.handlers - {tag}
      else w.handlers
    case ReadReport(tag) =>
      if tag in w.handlers && w.handlers[tag].Executing? then
        var h := w.handlers[tag];
        if h.id in w.db.executions && w.db.executions[h.id].status != Canceled
        then w.handlers[tag := Reporting(h.worker, h.id, w.db.JobOf(h.id).status)] else w.handlers
      else w.handlers
    case Report(tag, _, _) =>
      if tag in w.handlers && w.handlers[tag].Reporting?
      then w.handlers[tag := Executing(w.handlers[tag].worker, w.handlers[tag].id)] else w.handlers
    case Settle(tag, _) => w.handlers - {tag}
    case _ => w.handlers
  }

  function NextCommands(w: World, ev: Event): map<Tag, Command>
    requires w.db.WellFormed()
  {
    match ev
    case ReadStatus(tag, j, status) =>
      if StatusDecision(w.db, j) == Ok then w.commands[tag := Switching(j, status)] else w.commands
    case ReadRetry(tag, id, retryAt) =>
      if RetryDecision(w.db, id) == Ok
      then w.commands[tag := Retrying(id, w.db.executions[id].status, retryAt)] else w.commands
    case ReadRequeue(tag, d) =>
      if RequeueDecision(w.db, d) == Ok
      then w.commands[tag := Requeuing(d, w.db.deadLetters[d].executionId.value)] else w.commands
    case ReadDiscard(tag, d) =>
      if DiscardDecision(w.db, d) == Ok then w.commands[tag := Discarding(d)] else w.commands
    case ReadStale(tag, id, staleBefore) =>
      if Stale(w.db, id, staleBefore)
      then w.commands[tag := Recovering(id, w.db.JobOf(id).status, w.db.executions[id].lockedByWorkerId)]
      else w.commands
    case CommitStatus(tag, _, _) => w.commands - {tag}
    case CommitRetry(tag, _, _, _) => w.commands - {tag}
    case CommitRequeue(tag, _, _, _) => w.commands - {tag}
    case CommitDiscard(tag, _, _) => w.commands - {tag}
    case CommitRecovery(tag, _, _, _, _) => w.commands - {tag}
    case _ => w.commands
  }

  function NextReady(w: World, ev: Event): multiset<ExecutionId> {
    match ev
    case Publish(run) =>
      if run in w.plans && |w.plans[run].remaining| > 0
      then w.ready + multiset{w.plans[run].remaining[0]} else w.ready
    case Deliver(_, _, id) => w.ready - multiset{id}
    case Settle(tag, putBack) =>
      if putBack && tag in w.handlers then w.ready + multiset{w.handlers[tag].id} else w.ready
    case _ => w.ready
  }

  ghost function Step(w: World, ev: Event): (next: World)
    requires w.db.WellFormed() && Allowed(w, ev)
    ensures next.db.WellFormed()
  {
    NextDbWellFormed(w, ev);
    World(NextDb(w, ev), NextReady(w, ev), NextHandlers(w, ev), NextCommands(w, ev), NextPlans(w, ev))
  }

  lemma NextDbWellFormed(w: World, ev: Event)
    requires w.db.WellFormed() && Allowed(w, ev)
    ensures NextDb(w, ev).WellFormed()
  {
    hide JobServiceDb, ExecutionServiceDb, WorkerDb;
    match By(ev)
    case JobService => JobServiceWellFormed(w, ev);
    case ExecutionService => ExecutionServiceWellFormed(w.db, ev);
    case SchedulerService =>
      if ev.PlanRun? {
        PlannedOnlyAdds(w.db, ev.answers, ev.now, ev.batchSize);
      }
    case WorkerService => WorkerWellFormed(w, ev);
    case RecoveryLoop =>
  }

  lemma JobServiceWellFormed(w: World, ev: Event)
    requires w.db.WellFormed() && Allowed(w, ev)
    ensures JobServiceDb(w.db, ev).WellFormed()
  {
  }

  lemma ExecutionServiceWellFormed(db: Db, ev: Event)
    requires db.WellFormed()
    ensures ExecutionServiceDb(db, ev).WellFormed()
  {
  }

  lemma WorkerWellFormed(w: World, ev: Event)
    requires w.db.WellFormed()
    ensures WorkerDb(w, ev).WellFormed()
  {
    hide Db.WellFormed, CancelRunnable, Claim, RecordSeen;
    match ev
    case ClaimOrCancel(tag, at) =>
      if tag in w.handlers && w.handlers[tag].Observed? {
        ClaimWellFormed(w.db, w.handlers[tag].id, w.handlers[tag].worker, at);
      }
    case Report(tag, result, at) =>
      if tag in w.handlers && w.handlers[tag].Reporting? {
        RecordWellFormed(w.db, w.handlers[tag].id, w.handlers[tag].worker, w.handlers[tag].seen, result, at);
      }
    case MalformedMessage => MalformedWellFormed(w.db);
    case _ =>
  }

  lemma ClaimWellFormed(db: Db, id: ExecutionId, worker: WorkerId, at: Time)
    requires db.WellFormed()
    ensures CancelRunnable(db, id, at).WellFormed() && Claim(db, id, worker, at).WellFormed()
  {
  }

  lemma RecordWellFormed(db: Db, id: ExecutionId, worker: WorkerId, seen: JobStatus, result: AttemptStatus, at: Time)
    requires db.WellFormed()
    ensures RecordSeen(db, id, worker, seen, result, at).WellFormed()
  {
    hide WorkerPatch, LatestNumber;
  }

  lemma MalformedWellFormed(db: Db)
    requires db.WellFormed()
    ensures CreateDeadLetter(db, None, 0).WellFormed()
  {
  }

  /** Only the scheduler touches the plans. */
  lemma PlansOnlyByScheduler(w: World, ev: Event)
    requires w.db.WellFormed() && Allowed(w, ev) && By(ev) != SchedulerService
    ensures Step(w, ev).plans == w.plans
  {
    hide Db.WellFormed, NextDb, NextHandlers, NextCommands, NextReady, Allowed;
  }

  /** Commands and their commits touch only the database and the commands. */
  lemma CommandStep(w: World, ev: Event)
    requires w.db.WellFormed() && Allowed(w, ev)
    requires By(ev) == JobService || By(ev) == ExecutionService || By(ev) == RecoveryLoop
    ensures Step(w, ev) == w.(db := NextDb(w, ev), commands := NextCommands(w, ev))
  {
    hide Db.WellFormed, NextDb, NextCommands, Allowed;
  }

  // The run so far.

  datatype Trace = Start(initial: World) | Then(before: Trace, event: Event)

  /** Jobs, queues and schedules may exist; nothing has been scheduled, published, delivered or asked. */
  ghost predicate Initial(w: World) {
    && w.db.WellFormed()
    && w.db.executions == map[] && w.db.deadLetters == map[]
    && (forall j :: j in w.db.jobs ==> 1 <= w.db.jobs[j].maxAttempts)
    && w.ready == multiset{} && w.handlers == map[] && w.commands == map[] && w.plans == map[]
  }

  ghost predicate IsRun(t: Trace)
    decreases t, 0
  {
    match t
    case Start(w) => Initial(w)
    case Then(before, event) => IsRun(before) && Allowed(Now(before), event)
  }

  /** The state a run has reached. */
  ghost function Now(t: Trace): (w: World)
    requires IsRun(t)
    ensures w.db.WellFormed()
    decreases t, 1
  {
    match t
    case Start(w) => w
    case Then(before, event) => Step(Now(before), event)
  }

  /** A run goes on with any allowed event. */
  lemma Go(t: Trace, ev: Event) returns (longer: Trace)
    requires IsRun(t) && Allowed(Now(t), ev)
    ensures longer == Then(t, ev) && IsRun(longer) && Now(longer) == Step(Now(t), ev)
  {
    longer := Then(t, ev);
  }

  /** `t` goes on from `from`. */
  ghost predicate Extends(from: Trace, t: Trace) {
    t == from || (t.Then? && Extends(from, t.before))
  }

  // What an event does to one execution.

  datatype Action =
    | Untouched
    | MarkedQueued
    | Claimed(worker: WorkerId, at: Time)
    | Reported(worker: WorkerId, seen: JobStatus, result: AttemptStatus, at: Time)
    | Recovered(holder: Option<WorkerId>, at: Time)
    | Overruled(at: Time)
    | Dropped(at: Time)
    | Swept(at: Time)
    | Reopened(at: Time)
    | Requeued(at: Time)
    | Beaten(at: Time)

  function ReportPatch(row: Execution, job: Job, seen: JobStatus, result: AttemptStatus, at: Time): Patch {
    WorkerPatch(row.attemptCount, LatestNumber(row.attempts), job.Seen(seen), result, at)
  }

  function Perform(row: Execution, job: Job, action: Action): Execution {
    match action
    case Untouched => row
    case MarkedQueued => QueuedRow(row)
    case Claimed(worker, at) => ClaimedRow(row, worker, at)
    case Reported(worker, seen, result, at) =>
      Ended(row, ReportPatch(row, job, seen, result, at), Some(worker), result, at)
    case Recovered(holder, at) => Ended(row, PatchFor(row, job, at), holder, AttemptFailed, at)
    case Overruled(at) => CanceledRow(row, at)
    case Dropped(at) => CanceledRow(row, at)
    case Swept(at) => SweptRow(row, at)
    case Reopened(at) => ReopenedRow(row, at)
    case Requeued(at) => ReopenedRow(row, at)
    case Beaten(at) => row.(lastHeartbeatAt := Some(at))
  }

  /** The guards under which an action can happen. */
  predicate Possible(row: Execution, job: Job, action: Action) {
    match action
    case Untouched => true
    case MarkedQueued => Dispatchable(row.status)
    case Claimed(_, _) => Claimable(row)
    case Reported(worker, _, result, _) => Recordable(row, worker) && result != AttemptRunning
    case Recovered(_, _) => true
    case Overruled(_) => true
    case Dropped(_) => !Terminal(row.status)
    case Swept(_) => Runnable(row.status)
    case Reopened(_) => row.status == Failed || row.status == Canceled
    case Requeued(_) => true
    case Beaten(_) => row.lockedByWorkerId.Some?
  }

  function ExecutionServiceAction(db: Db, ev: Event, e: ExecutionId): Action
    requires db.WellFormed() && e in db.executions
  {
    match ev
    case CancelExecution(id, at) => if id == e && !Terminal(db.executions[e].status) then Dropped(at) else Untouched
    case CommitRetry(_, id, observed, retryAt) =>
      if id == e && db.executions[e].status == observed then Reopened(retryAt) else Untouched
    case CommitRequeue(_, d, id, at) => if id == e && d in db.deadLetters then Requeued(at) else Untouched
    case Beat(id, worker, at) =>
      if id == e && db.executions[e].lockedByWorkerId == Some(worker) then Beaten(at) else Untouched
    case _ => Untouched
  }

  function WorkerAction(w: World, ev: Event, e: ExecutionId): Action
    requires w.db.WellFormed() && e in w.db.executions
  {
    var row := w.db.executions[e];
    match ev
    case ClaimOrCancel(tag, at) =>
      if tag in w.handlers && w.handlers[tag].Observed? && w.handlers[tag].id == e then
        if w.handlers[tag].jobDeleted then (if Runnable(row.status) then Dropped(at) else Untouched)
        else if Claimable(row) then Claimed(w.handlers[tag].worker, at) else Untouched
      else Untouched
    case Report(tag, result, at) =>
      if tag in w.handlers && w.handlers[tag].Reporting? && w.handlers[tag].id == e
         && Recordable(row, w.handlers[tag].worker)
      then Reported(w.handlers[tag].worker, w.handlers[tag].seen, result, at) else Untouched
    case _ => Untouched
  }

  function RecoveryAction(db: Db, ev: Event, e: ExecutionId): Action
    requires db.WellFormed() && e in db.executions
  {
    match ev
    case SweepDeletedJobs(at) =>
      if db.JobOf(e).status == JobDeleted && Runnable(db.executions[e].status) then Swept(at) else Untouched
    case CommitRecovery(_, id, seen, holder, at) =>
      if id == e then (if seen == JobDeleted then Overruled(at) else Recovered(holder, at)) else Untouched
    case _ => Untouched
  }

  /** The action of an event on an execution. */
  function ActionOn(w: World, ev: Event, e: ExecutionId): Action
    requires w.db.WellFormed() && e in w.db.executions
  {
    var row := w.db.executions[e];
    match By(ev)
    case JobService =>
      if ev.RemoveJob? && row.jobId == ev.job && Runnable(row.status) then Swept(ev.at) else Untouched
    case SchedulerService =>
      if ev.Mark? && MarkTarget(w, ev.run) == Some(e) && Dispatchable(row.status) then MarkedQueued else Untouched
    case ExecutionService => ExecutionServiceAction(w.db, ev, e)
    case WorkerService => WorkerAction(w, ev, e)
    case RecoveryLoop => RecoveryAction(w.db, ev, e)
  }

  /** `db` became `next`, and what happened to `e` is `action`. */
  ghost predicate Acts(db: Db, next: Db, e: ExecutionId, action: Action)
    requires db.WellFormed() && e in db.executions
  {
    && Possible(db.executions[e], db.JobOf(e), action)
    && e in next.executions
    && next.executions[e] == Perform(db.executions[e], db.JobOf(e), action)
  }

  /** Every event acts on every execution by one possible action, and by nothing else. */
  lemma StepActs(w: World, ev: Event, e: ExecutionId)
    requires w.db.WellFormed() && Allowed(w, ev) && e in w.db.executions
    ensures Acts(w.db, NextDb(w, ev), e, ActionOn(w, ev, e))
  {
    hide JobServiceDb, ExecutionServiceDb, SchedulerDb, WorkerDb, RecoveryDb, ExecutionServiceAction, WorkerAction,
         RecoveryAction, Acts;
    match By(ev)
    case JobService => JobServiceActs(w, ev, e);
    case ExecutionService => ExecutionServiceActs(w.db, ev, e);
    case SchedulerService => SchedulerActs(w, ev, e);
    case WorkerService => WorkerActs(w, ev, e);
    case RecoveryLoop => RecoveryActs(w.db, ev, e);
  }

  lemma JobServiceActs(w: World, ev: Event, e: ExecutionId)
    requires w.db.WellFormed() && e in w.db.executions && By(ev) == JobService
    ensures Acts(w.db, JobServiceDb(w.db, ev), e, ActionOn(w, ev, e))
  {
    hide JobServiceDb, ExecutionServiceAction, WorkerAction, RecoveryAction, Acts;
    if ev.RemoveJob? {
      RemovalActs(w.db, ev, e);
    } else {
      JobServiceLeavesRow(w.db, ev, e);
      LeftAlone(w.db, JobServiceDb(w.db, ev), e);
    }
  }

  lemma RemovalActs(db: Db, ev: Event, e: ExecutionId)
    requires db.WellFormed() && e in db.executions && ev.RemoveJob?
    ensures var row := db.executions[e];
            Acts(db, JobServiceDb(db, ev), e,
                 if row.jobId == ev.job && Runnable(row.status) then Swept(ev.at) else Untouched)
  {
    hide ReportPatch, PatchFor, Ended, Claimable, Recordable;
  }

  lemma JobServiceLeavesRow(db: Db, ev: Event, e: ExecutionId)
    requires db.WellFormed() && e in db.executions && !ev.RemoveJob?
    ensures var next := JobServiceDb(db, ev); e in next.executions && next.executions[e] == db.executions[e]
  {
    assert db.nextExecutionId !in db.executions;
  }

  lemma LeftAlone(db: Db, next: Db, e: ExecutionId)
    requires db.WellFormed() && e in db.executions && e in next.executions && next.executions[e] == db.executions[e]
    ensures Acts(db, next, e, Untouched)
  {
  }

  lemma ExecutionServiceActs(db: Db, ev: Event, e: ExecutionId)
    requires db.WellFormed() && e in db.executions
    ensures Acts(db, ExecutionServiceDb(db, ev), e, ExecutionServiceAction(db, ev, e))
  {
    hide ExecutionServiceDb, ExecutionServiceAction, Acts;
    if ev.CommitRequeue? {
      RequeueActs(db, ev, e);
    } else {
      OperatorActs(db, ev, e);
    }
  }

  lemma RequeueActs(db: Db, ev: Event, e: ExecutionId)
    requires db.WellFormed() && e in db.executions && ev.CommitRequeue?
    ensures Acts(db, ExecutionServiceDb(db, ev), e, ExecutionServiceAction(db, ev, e))
  {
    hide ReportPatch, PatchFor, Ended, Claimable, Recordable, RetryCommit, Cancel, Heartbeat, DiscardCommit;
  }

  lemma OperatorActs(db: Db, ev: Event, e: ExecutionId)
    requires db.WellFormed() && e in db.executions && !ev.CommitRequeue?
    ensures Acts(db, ExecutionServiceDb(db, ev), e, ExecutionServiceAction(db, ev, e))
  {
    hide ExecutionServiceDb, ExecutionServiceAction, Acts;
    if ev.CancelExecution? || ev.CommitRetry? || ev.Beat? {
      UpdateActs(db, ev, e);
    } else {
      ExecutionServiceLeavesRow(db, ev, e);
      LeftAlone(db, ExecutionServiceDb(db, ev), e);
    }
  }

  lemma UpdateActs(db: Db, ev: Event, e: ExecutionId)
    requires db.WellFormed() && e in db.executions && (ev.CancelExecution? || ev.CommitRetry? || ev.Beat?)
    ensures Acts(db, ExecutionServiceDb(db, ev), e, ExecutionServiceAction(db, ev, e))
  {
    hide ReportPatch, PatchFor, Ended, Claimable, Recordable, RequeueCommit, DiscardCommit;
  }

  lemma ExecutionServiceLeavesRow(db: Db, ev: Event, e: ExecutionId)
    requires db.WellFormed() && e in db.executions
    requires !ev.CancelExecution? && !ev.CommitRetry? && !ev.Beat? && !ev.CommitRequeue?
    ensures e in ExecutionServiceDb(db, ev).executions
    ensures ExecutionServiceDb(db, ev).executions[e] == db.executions[e]
    ensures ExecutionServiceAction(db, ev, e) == Untouched
  {
    hide RequeueCommit, RetryCommit, Cancel, Heartbeat;
    assert db.nextExecutionId !in db.executions;
  }

  lemma SchedulerActs(w: World, ev: Event, e: ExecutionId)
    requires w.db.WellFormed() && e in w.db.executions && Allowed(w, ev) && By(ev) == SchedulerService
    ensures Acts(w.db, SchedulerDb(w, ev), e, ActionOn(w, ev, e))
  {
    hide Planned, AnsweredDue, IsCandidatePage, ExecutionServiceAction, WorkerAction, RecoveryAction, Ended;
    if ev.PlanRun? {
      PlannedOnlyAdds(w.db, ev.answers, ev.now, ev.batchSize);
    }
  }

  lemma WorkerActs(w: World, ev: Event, e: ExecutionId)
    requires w.db.WellFormed() && e in w.db.executions && Allowed(w, ev)
    ensures Acts(w.db, WorkerDb(w, ev), e, WorkerAction(w, ev, e))
  {
    hide WorkerDb, WorkerAction, Acts, Db.WellFormed, Allowed, Perform, Possible;
    match ev
    case ClaimOrCancel(_, _) => ClaimActs(w, ev, e);
    case Report(_, _, _) => ReportActs(w, ev, e);
    case _ => DeliveryActs(w, ev, e);
  }

  lemma DeliveryActs(w: World, ev: Event, e: ExecutionId)
    requires w.db.WellFormed() && e in w.db.executions && !ev.ClaimOrCancel? && !ev.Report?
    ensures Acts(w.db, WorkerDb(w, ev), e, WorkerAction(w, ev, e))
  {
  }

  lemma ClaimActs(w: World, ev: Event, e: ExecutionId)
    requires w.db.WellFormed() && e in w.db.executions && ev.ClaimOrCancel?
    ensures Acts(w.db, WorkerDb(w, ev), e, WorkerAction(w, ev, e))
  {
    hide RecordSeen, ReportPatch, PatchFor, Ended, Recordable;
  }

  lemma ReportActs(w: World, ev: Event, e: ExecutionId)
    requires w.db.WellFormed() && e in w.db.executions && ev.Report? && Allowed(w, ev)
    ensures Acts(w.db, WorkerDb(w, ev), e, WorkerAction(w, ev, e))
  {
    hide Claim, CancelRunnable, Claimable, WorkerPatch, PatchFor, Ended;
  }

  lemma RecoveryActs(db: Db, ev: Event, e: ExecutionId)
    requires db.WellFormed() && e in db.executions
    ensures Acts(db, RecoveryDb(db, ev), e, RecoveryAction(db, ev, e))
  {
    hide RecoveryDb, RecoveryAction, Acts;
    if ev.CommitRecovery? {
      RecoveryCommitActs(db, ev, e);
    } else {
      SweepActs(db, ev, e);
    }
  }

  lemma RecoveryCommitActs(db: Db, ev: Event, e: ExecutionId)
    requires db.WellFormed() && e in db.executions && ev.CommitRecovery?
    ensures Acts(db, RecoveryDb(db, ev), e, RecoveryAction(db, ev, e))
  {
    hide ReportPatch, PatchFor, Ended, RecoveredFrom, Perform;
    RecoveryPerforms(db.executions[e], db.JobOf(e), ev.seen, ev.holder, ev.at);
    UntouchedPerforms(db.executions[e], db.JobOf(e));
  }

  lemma RecoveryPerforms(row: Execution, job: Job, seen: JobStatus, holder: Option<WorkerId>, at: Time)
    ensures RecoveredFrom(row, job.Seen(seen), holder, at)
         == Perform(row, job, if seen == JobDeleted then Overruled(at) else Recovered(holder, at))
  {
  }

  lemma UntouchedPerforms(row: Execution, job: Job)
    ensures Perform(row, job, Untouched) == row
  {
  }

  lemma SweepActs(db: Db, ev: Event, e: ExecutionId)
    requires db.WellFormed() && e in db.executions && !ev.CommitRecovery?
    ensures Acts(db, RecoveryDb(db, ev), e, RecoveryAction(db, ev, e))
  {
    hide ReportPatch, PatchFor, Ended, Claimable, Recordable;
  }

  /** An execution that was not there before is a new one. */
  ghost predicate AddsOnlyNew(db: Db, next: Db) {
    forall e :: e in next.executions && e !in db.executions ==> db.nextExecutionId <= e && IsNew(next.executions[e])
  }

  lemma StepCreates(w: World, ev: Event)
    requires w.db.WellFormed() && Allowed(w, ev)
    ensures AddsOnlyNew(w.db, NextDb(w, ev))
  {
    hide JobServiceDb, ExecutionServiceDb, WorkerDb, CanceledRow;
    match By(ev)
    case JobService => JobServiceCreates(w.db, ev);
    case ExecutionService => ExecutionServiceCreates(w.db, ev);
    case SchedulerService =>
      if ev.PlanRun? {
        PlannedOnlyAdds(w.db, ev.answers, ev.now, ev.batchSize);
      }
    case WorkerService => WorkerCreates(w, ev);
    case RecoveryLoop =>
  }

  lemma JobServiceCreates(db: Db, ev: Event)
    requires db.WellFormed()
    ensures AddsOnlyNew(db, JobServiceDb(db, ev))
  {
  }

  lemma ExecutionServiceCreates(db: Db, ev: Event)
    requires db.WellFormed()
    ensures AddsOnlyNew(db, ExecutionServiceDb(db, ev))
  {
  }

  lemma WorkerCreates(w: World, ev: Event)
    requires w.db.WellFormed()
    ensures WorkerDb(w, ev).executions.Keys == w.db.executions.Keys
  {
    hide WorkerPatch, Db.WellFormed;
  }

  /** Jobs are never removed and keep all but their status. */
  ghost predicate JobsKept(db: Db, next: Db) {
    && db.queues.Keys == next.queues.Keys
    && db.nextExecutionId <= next.nextExecutionId
    && (forall j :: j in db.jobs ==> j in next.jobs && next.jobs[j].Seen(db.jobs[j].status) == db.jobs[j])
    && forall j :: j in next.jobs && j !in db.jobs ==> 1 <= next.jobs[j].maxAttempts
  }

  /** Only the job service changes jobs and queues. */
  lemma OthersLeaveJobs(w: World, ev: Event)
    requires w.db.WellFormed() && Allowed(w, ev) && By(ev) != JobService
    ensures NextDb(w, ev).jobs == w.db.jobs && NextDb(w, ev).queues == w.db.queues
    ensures w.db.nextExecutionId <= NextDb(w, ev).nextExecutionId
  {
    hide JobServiceDb, ExecutionServiceDb, SchedulerDb, WorkerDb, RecoveryDb;
    match By(ev)
    case ExecutionService => ExecutionServiceLeaves(w.db, ev);
    case SchedulerService => SchedulerLeavesJobs(w, ev);
    case WorkerService => WorkerLeaves(w, ev);
    case RecoveryLoop => RecoveryLeaves(w.db, ev);
  }

  lemma ExecutionServiceLeaves(db: Db, ev: Event)
    requires db.WellFormed()
    ensures var next := ExecutionServiceDb(db, ev);
            && next.jobs == db.jobs && next.queues == db.queues && next.schedules == db.schedules
            && db.nextExecutionId <= next.nextExecutionId
  {
    hide WorkerPatch, Db.WellFormed;
  }

  lemma SchedulerLeavesJobs(w: World, ev: Event)
    requires w.db.WellFormed() && Allowed(w, ev)
    ensures SchedulerDb(w, ev).jobs == w.db.jobs && SchedulerDb(w, ev).queues == w.db.queues
    ensures w.db.nextExecutionId <= SchedulerDb(w, ev).nextExecutionId
  {
    hide Planned;
    if ev.PlanRun? {
      PlannedOnlyAdds(w.db, ev.answers, ev.now, ev.batchSize);
    }
  }

  lemma WorkerLeaves(w: World, ev: Event)
    requires w.db.WellFormed()
    ensures var next := WorkerDb(w, ev);
            && next.jobs == w.db.jobs && next.queues == w.db.queues && next.schedules == w.db.schedules
            && next.nextExecutionId == w.db.nextExecutionId
  {
    hide WorkerPatch, Db.WellFormed;
  }

  lemma RecoveryLeaves(db: Db, ev: Event)
    requires db.WellFormed()
    ensures var next := RecoveryDb(db, ev);
            && next.jobs == db.jobs && next.queues == db.queues && next.schedules == db.schedules
            && next.nextExecutionId == db.nextExecutionId
  {
  }

  lemma StepJobs(w: World, ev: Event)
    requires w.db.WellFormed() && Allowed(w, ev)
    ensures JobsKept(w.db, NextDb(w, ev))
  {
    hide JobServiceDb, ExecutionServiceDb, SchedulerDb, WorkerDb, RecoveryDb;
    if By(ev) == JobService {
      JobServiceKeepsJobs(w, ev);
    } else {
      OthersLeaveJobs(w, ev);
    }
  }

  lemma JobServiceKeepsJobs(w: World, ev: Event)
    requires w.db.WellFormed() && Allowed(w, ev)
    ensures JobsKept(w.db, JobServiceDb(w.db, ev))
  {
  }
}
