/** The dead-letter table over whole runs. */
module DeadLetters {
  import opened Schema
  import opened Attempts
  import opened ExecutionCommands
  import opened World
  import opened Lifecycle
  import Scheduler

  /** The messages linked to an execution, and those of them that were requeued. */
  ghost function Linked(db: Db, e: ExecutionId): set<DeadLetterId> {
    set d | d in db.deadLetters && db.deadLetters[d].executionId == Some(e)
  }

  predicate IsRequeued(letters: map<DeadLetterId, DeadLetter>, e: ExecutionId, d: DeadLetterId) {
    d in letters && letters[d].executionId == Some(e) && letters[d].requeuedAt.Some?
  }

  ghost function Requeued(db: Db, e: ExecutionId): set<DeadLetterId> {
    set d | d in db.deadLetters && IsRequeued(db.deadLetters, e, d)
  }

  /** The message an event of the worker service adds. */
  ghost function NewLetter(w: World, ev: Event): Option<DeadLetter>
    requires w.db.WellFormed()
  {
    match ev
    case MalformedMessage => Some(DeadLetter(None, 0, None, None))
    case Report(tag, result, at) =>
      if tag in w.handlers && Happens(w, ev, w.handlers[tag].id, FinalFailures)
      then Some(DeadLetter(Some(w.handlers[tag].id), w.db.executions[w.handlers[tag].id].attemptCount + 1, None, None))
      else None
    case _ => None
  }

  lemma WorkerAddsLetter(w: World, ev: Event)
    requires w.db.WellFormed()
    requires forall e :: e in w.db.executions ==> Shape(w.db.executions[e])
    ensures WorkerDb(w, ev).deadLetters
         == if NewLetter(w, ev).Some? then w.db.deadLetters[w.db.nextDeadLetterId := NewLetter(w, ev).value]
            else w.db.deadLetters
  {
    hide Db.WellFormed;
    if ev.Report? && ev.tag in w.handlers && w.handlers[ev.tag].id in w.db.executions {
      LatestOfGapFree(w.db.executions[w.handlers[ev.tag].id].attempts);
    }
  }

  lemma OthersLeaveLetters(w: World, ev: Event)
    requires w.db.WellFormed() && Allowed(w, ev) && By(ev) != ExecutionService && By(ev) != WorkerService
    ensures NextDb(w, ev).deadLetters == w.db.deadLetters
  {
    hide Db.WellFormed;
    if ev.PlanRun? {
      Scheduler.PlannedOnlyAdds(w.db, ev.answers, ev.now, ev.batchSize);
    }
  }

  /** What the execution service makes of one message. */
  ghost function LetterAfter(db: Db, ev: Event, d: DeadLetterId): DeadLetter
    requires db.WellFormed() && d in db.deadLetters
  {
    var letter := db.deadLetters[d];
    match ev
    case CommitRequeue(_, message, id, at) =>
      if message == d && id in db.executions then letter.(requeuedAt := Some(at)) else letter
    case CommitDiscard(_, message, at) => if message == d then letter.(discardedAt := Some(at)) else letter
    case _ => letter
  }

  lemma ExecutionServiceLetters(db: Db, ev: Event)
    requires db.WellFormed()
    ensures ExecutionServiceDb(db, ev).deadLetters == map d | d in db.deadLetters :: LetterAfter(db, ev, d)
  {
    hide ExecutionServiceDb, LetterAfter;
    ExecutionServiceKeepsMessages(db, ev);
    forall d | d in db.deadLetters
      ensures ExecutionServiceDb(db, ev).deadLetters[d] == LetterAfter(db, ev, d)
    {
      ExecutionServiceLetter(db, ev, d);
    }
  }

  lemma ExecutionServiceKeepsMessages(db: Db, ev: Event)
    requires db.WellFormed()
    ensures ExecutionServiceDb(db, ev).deadLetters.Keys == db.deadLetters.Keys
  {
  }

  lemma ExecutionServiceLetter(db: Db, ev: Event, d: DeadLetterId)
    requires db.WellFormed() && d in db.deadLetters
    ensures d in ExecutionServiceDb(db, ev).deadLetters
    ensures ExecutionServiceDb(db, ev).deadLetters[d] == LetterAfter(db, ev, d)
  {
  }

  /** The table after an event. */
  ghost function NextLetters(w: World, ev: Event): map<DeadLetterId, DeadLetter>
    requires w.db.WellFormed()
  {
    match By(ev)
    case ExecutionService => map d | d in w.db.deadLetters :: LetterAfter(w.db, ev, d)
    case WorkerService =>
      if NewLetter(w, ev).Some? then w.db.deadLetters[w.db.nextDeadLetterId := NewLetter(w, ev).value]
      else w.db.deadLetters
    case _ => w.db.deadLetters
  }

  /** A message keeps its execution and attempt number; a new one is unsettled. */
  lemma LetterKept(t: Trace, d: DeadLetterId)
    requires IsRun(t) && t.Then? && d in Now(t).db.deadLetters
    ensures var letters := Now(t.before).db.deadLetters;
            var letter := Now(t).db.deadLetters[d];
            if d in letters then
              letter.executionId == letters[d].executionId && letter.attemptNumber == letters[d].attemptNumber
            else
              && d == Now(t.before).db.nextDeadLetterId
              && NewLetter(Now(t.before), t.event) == Some(letter)
              && letter.requeuedAt.None? && letter.discardedAt.None?
  {
    hide ActionOn, Perform, NextDb, Step, Allowed;
    LettersStep(t);
  }

  lemma LettersStay(t: Trace, d: DeadLetterId)
    requires IsRun(t) && t.Then? && d in Now(t.before).db.deadLetters
    ensures d in Now(t).db.deadLetters
    ensures Now(t).db.deadLetters[d] == if By(t.event) == ExecutionService
                                        then LetterAfter(Now(t.before).db, t.event, d)
                                        else Now(t.before).db.deadLetters[d]
  {
    hide ActionOn, Perform, NextDb, LetterAfter, Allowed, Step;
    LettersStep(t);
  }

  lemma LettersStep(t: Trace)
    requires IsRun(t) && t.Then?
    ensures Now(t).db.deadLetters == NextLetters(Now(t.before), t.event)
  {
    var w := Now(t.before);
    match By(t.event)
    case ExecutionService => ExecutionServiceLetters(w.db, t.event);
    case WorkerService =>
      forall e | e in w.db.executions ensures Shape(w.db.executions[e]) {
        ShapeAlways(t.before, e);
      }
      WorkerAddsLetter(w, t.event);
    case _ => OthersLeaveLetters(w, t.event);
  }

  lemma NewLetterLinks(w: World, ev: Event, e: ExecutionId)
    requires w.db.WellFormed() && e in w.db.executions
    ensures Happens(w, ev, e, FinalFailures)
            <==> NewLetter(w, ev).Some? && NewLetter(w, ev).value.executionId == Some(e)
  {
    hide ExecutionServiceAction, RecoveryAction, WorkerPatch, Db.WellFormed;
    if !ev.Report? {
      OnlyReportsFail(w, ev, e);
    }
  }

  lemma OnlyReportsFail(w: World, ev: Event, e: ExecutionId)
    requires w.db.WellFormed() && e in w.db.executions
    ensures ActionOn(w, ev, e).Reported? ==> ev.Report?
  {
  }

  lemma LinkedStep(t: Trace, e: ExecutionId)
    requires Continues(t, e)
    ensures var w := Now(t.before);
            Linked(Now(t).db, e) == Linked(w.db, e)
                                    + if Happens(w, t.event, e, FinalFailures) then {w.db.nextDeadLetterId} else {}
    ensures Now(t.before).db.nextDeadLetterId !in Linked(Now(t.before).db, e)
  {
    hide ActionOn, Perform, NextDb, Step, Allowed;
    LettersStep(t);
    NewLetterLinks(Now(t.before), t.event, e);
  }

  lemma UnlinkedAtBirth(t: Trace, e: ExecutionId)
    requires IsRun(t) && t.Then? && e !in Now(t.before).db.executions && e in Now(t).db.executions
    ensures Linked(Now(t).db, e) == {} && Requeued(Now(t).db, e) == {}
  {
    hide ActionOn, Perform, NextDb, Step;
    LettersStep(t);
  }

  /** The messages of an execution are as many as the final failures workers recorded for it. */
  lemma {:induction false} MessagesAreFinalFailures(t: Trace, e: ExecutionId)
    requires IsRun(t) && e in Now(t).db.executions
    ensures |Linked(Now(t).db, e)| == Count(t, e, FinalFailures)
  {
    hide ActionOn, Perform, NextDb;
    if Continues(t, e) {
      MessagesAreFinalFailures(t.before, e);
      LinkedStep(t, e);
    } else if t.Then? {
      UnlinkedAtBirth(t, e);
      Birth(t, e);
    }
  }

  // Settling a message. The routes read it first and update it, by id alone, later.

  /** The message a requeue or discard has read exists and is linked, and stays so. */
  predicate Linking(db: Db, command: Command) {
    match command
    case Requeuing(d, id) => d in db.deadLetters && db.deadLetters[d].executionId == Some(id)
    case Discarding(d) => d in db.deadLetters && db.deadLetters[d].executionId.Some?
    case _ => true
  }

  lemma CommandsGrowByReading(w: World, ev: Event, tag: Tag)
    requires w.db.WellFormed() && Allowed(w, ev) && tag in Step(w, ev).commands
    ensures (tag in w.commands && Step(w, ev).commands[tag] == w.commands[tag])
            || (Linking(w.db, Step(w, ev).commands[tag]) && NextDb(w, ev) == w.db)
  {
    hide ActionOn, Perform, Scheduler.Answered, Scheduler.Chosen;
    assert Step(w, ev).commands == NextCommands(w, ev);
  }

  lemma {:induction false} CommandsAreLinked(t: Trace, tag: Tag)
    requires IsRun(t) && tag in Now(t).commands
    ensures Linking(Now(t).db, Now(t).commands[tag])
  {
    hide ActionOn, Perform, NextDb, Allowed, NextCommands;
    match t
    case Start(_) =>
    case Then(before, event) =>
      var w := Now(before);
      CommandsGrowByReading(w, event, tag);
      if tag in w.commands && Now(t).commands[tag] == w.commands[tag] {
        CommandsAreLinked(before, tag);
        LinksStay(t, w.commands[tag]);
      }
  }

  lemma LinksStay(t: Trace, command: Command)
    requires IsRun(t) && t.Then? && Linking(Now(t.before).db, command)
    ensures Linking(Now(t).db, command)
  {
    hide ActionOn, Perform, NextDb, Allowed, Step, LetterAfter;
    if command.Requeuing? || command.Discarding? {
      LettersStay(t, command.message);
      LetterKept(t, command.message);
    }
  }

  /** What a commit finds. */
  lemma CommitsAreLinked(t: Trace)
    requires IsRun(t) && t.Then?
    ensures var db := Now(t.before).db;
            && (t.event.CommitRequeue? ==> Linking(db, Requeuing(t.event.message, t.event.id)))
            && (t.event.CommitDiscard? ==> Linking(db, Discarding(t.event.message)))
  {
    hide ActionOn, Perform, NextDb;
    if t.event.CommitRequeue? || t.event.CommitDiscard? {
      CommandsAreLinked(t.before, t.event.tag);
    }
  }

  /** A message is at most requeued or discarded, and one without an execution is neither. */
  predicate SettledOnce(letter: DeadLetter) {
    && (letter.requeuedAt.None? || letter.discardedAt.None?)
    && (letter.executionId.None? ==> letter.requeuedAt.None? && letter.discardedAt.None?)
  }

  /** The commit of a requeue of a message that was discarded, or of a discard of one that was
      requeued, since it was read. */
  predicate SettlesAgain(db: Db, ev: Event, d: DeadLetterId) {
    && d in db.deadLetters
    && ((ev.CommitRequeue? && ev.message == d && db.deadLetters[d].discardedAt.Some?)
        || (ev.CommitDiscard? && ev.message == d && db.deadLetters[d].requeuedAt.Some?))
  }

  /** Exactly these leave a message both requeued and discarded. */
  lemma SettledTwiceExactly(t: Trace, d: DeadLetterId)
    requires IsRun(t) && t.Then? && d in Now(t.before).db.deadLetters && SettledOnce(Now(t.before).db.deadLetters[d])
    ensures d in Now(t).db.deadLetters
    ensures !SettledOnce(Now(t).db.deadLetters[d]) <==> SettlesAgain(Now(t.before).db, t.event, d)
  {
    hide ActionOn, Perform, NextDb, Allowed, Step;
    LettersStay(t, d);
    CommitsAreLinked(t);
  }

  ghost function LateSettlements(t: Trace, d: DeadLetterId): nat
    requires IsRun(t)
  {
    match t
    case Start(_) => 0
    case Then(before, event) => LateSettlements(before, d) + One(SettlesAgain(Now(before).db, event, d))
  }

  /** Without such a commit no message is both requeued and discarded; and one without an execution is
      never either (so the malformed ones stay in the active list for good). */
  lemma {:induction false} MessageSettledOnce(t: Trace, d: DeadLetterId)
    requires IsRun(t) && d in Now(t).db.deadLetters
    ensures LateSettlements(t, d) == 0 ==> SettledOnce(Now(t).db.deadLetters[d])
    ensures Now(t).db.deadLetters[d].executionId.None? ==> SettledOnce(Now(t).db.deadLetters[d])
  {
    hide ActionOn, Perform, NextDb, Allowed, SettlesAgain;
    if t.Then? {
      LetterKept(t, d);
      if d in Now(t.before).db.deadLetters {
        MessageSettledOnce(t.before, d);
        if SettledOnce(Now(t.before).db.deadLetters[d]) {
          SettledTwiceExactly(t, d);
          if SettlesAgain(Now(t.before).db, t.event, d) {
            SettledAgainIsLinked(t, d);
          }
        }
      }
    }
  }

  lemma SettledAgainIsLinked(t: Trace, d: DeadLetterId)
    requires IsRun(t) && t.Then? && SettlesAgain(Now(t.before).db, t.event, d)
    ensures Now(t.before).db.deadLetters[d].executionId.Some?
  {
    hide ActionOn, Perform, NextDb, Allowed, Step;
    CommitsAreLinked(t);
  }

  /** The commit of a requeue of a message that was requeued since it was read. */
  ghost predicate Repeats(w: World, ev: Event, e: ExecutionId)
    requires w.db.WellFormed()
  {
    && ev.CommitRequeue? && Happens(w, ev, e, Requeues)
    && ev.message in w.db.deadLetters && w.db.deadLetters[ev.message].requeuedAt.Some?
  }

  ghost function RepeatedRequeues(t: Trace, e: ExecutionId): nat
    requires IsRun(t)
  {
    match t
    case Start(_) => 0
    case Then(before, event) => RepeatedRequeues(before, e) + One(Repeats(Now(before), event, e))
  }

  /** The requeues that happened are the messages marked requeued, and the repeats: so each message
      reopens its execution at most once exactly as long as no requeue commits a second time. */
  lemma {:induction false} RequeuesAreRequeuedMessages(t: Trace, e: ExecutionId)
    requires IsRun(t) && e in Now(t).db.executions
    ensures Count(t, e, Requeues) == |Requeued(Now(t).db, e)| + RepeatedRequeues(t, e)
  {
    hide ActionOn, Perform, NextDb, Repeats;
    if Continues(t, e) {
      RequeuesAreRequeuedMessages(t.before, e);
      RequeuedStep(t, e);
    } else if t.Then? {
      UnlinkedAtBirth(t, e);
      Birth(t, e);
      NoRepeatsBeforeCreation(t, e);
    }
  }

  lemma {:induction false} NoRepeatsBeforeCreation(t: Trace, e: ExecutionId)
    requires IsRun(t) && t.Then? && e !in Now(t.before).db.executions
    ensures RepeatedRequeues(t, e) == 0
  {
    hide ActionOn, Perform, NextDb, Allowed;
    if t.before.Then? {
      if e in Now(t.before.before).db.executions {
        StepActs(Now(t.before.before), t.before.event, e);
      }
      NoRepeatsBeforeCreation(t.before, e);
    }
  }

  ghost function RequeuedNow(w: World, ev: Event, e: ExecutionId): set<DeadLetterId>
    requires w.db.WellFormed()
  {
    if Happens(w, ev, e, Requeues) && ev.CommitRequeue? && !Repeats(w, ev, e) then {ev.message} else {}
  }

  lemma RequeueHits(w: World, ev: Event, e: ExecutionId)
    requires w.db.WellFormed() && e in w.db.executions
    ensures Happens(w, ev, e, Requeues) <==> ev.CommitRequeue? && ev.id == e && ev.message in w.db.deadLetters
  {
    hide JobServiceDb, ExecutionServiceDb, WorkerDb, RecoveryDb, Perform, Possible;
    if !ev.CommitRequeue? {
      OnlyRequeuesRequeue(w, ev, e);
    }
  }

  lemma OnlyRequeuesRequeue(w: World, ev: Event, e: ExecutionId)
    requires w.db.WellFormed() && e in w.db.executions && !ev.CommitRequeue?
    ensures !ActionOn(w, ev, e).Requeued?
  {
  }

  lemma RequeuedOne(w: World, ev: Event, e: ExecutionId, d: DeadLetterId)
    requires w.db.WellFormed() && e in w.db.executions
    requires ev.CommitRequeue? ==> Linking(w.db, Requeuing(ev.message, ev.id))
    ensures IsRequeued(NextLetters(w, ev), e, d) <==> IsRequeued(w.db.deadLetters, e, d) || d in RequeuedNow(w, ev, e)
    ensures d in RequeuedNow(w, ev, e) ==> !IsRequeued(w.db.deadLetters, e, d)
  {
    hide Happens, Repeats, NewLetter, LetterAfter;
    RequeueHits(w, ev, e);
    if By(ev) == ExecutionService {
      RequeuedByExecutionService(w, ev, e, d);
    } else if NewLetter(w, ev).Some? {
      NewLettersAreOpen(w, ev);
    }
  }

  lemma RequeuedByExecutionService(w: World, ev: Event, e: ExecutionId, d: DeadLetterId)
    requires w.db.WellFormed() && e in w.db.executions && By(ev) == ExecutionService
    requires ev.CommitRequeue? ==> Linking(w.db, Requeuing(ev.message, ev.id))
    ensures IsRequeued(NextLetters(w, ev), e, d) <==> IsRequeued(w.db.deadLetters, e, d) || d in RequeuedNow(w, ev, e)
    ensures d in RequeuedNow(w, ev, e) ==> !IsRequeued(w.db.deadLetters, e, d)
  {
    hide Happens, NewLetter;
    RequeueHits(w, ev, e);
  }

  lemma NewLettersAreOpen(w: World, ev: Event)
    requires w.db.WellFormed() && NewLetter(w, ev).Some?
    ensures NewLetter(w, ev).value.requeuedAt.None? && NewLetter(w, ev).value.discardedAt.None?
  {
    hide Happens;
  }

  lemma RequeuedStep(t: Trace, e: ExecutionId)
    requires Continues(t, e)
    ensures var w := Now(t.before);
            && Requeued(Now(t).db, e) == Requeued(w.db, e) + RequeuedNow(w, t.event, e)
            && Requeued(w.db, e) !! RequeuedNow(w, t.event, e)
            && |RequeuedNow(w, t.event, e)| + One(Repeats(w, t.event, e)) == One(Happens(w, t.event, e, Requeues))
  {
    hide ActionOn, Perform, NextDb, Step, Allowed, Happens, NextLetters;
    var w := Now(t.before);
    LettersStep(t);
    CommitsAreLinked(t);
    RequeueHits(w, t.event, e);
    forall d
      ensures d in Requeued(Now(t).db, e) <==> d in Requeued(w.db, e) || d in RequeuedNow(w, t.event, e)
      ensures d in RequeuedNow(w, t.event, e) ==> d !in Requeued(w.db, e)
    {
      RequeuedOne(w, t.event, e, d);
    }
  }

  lemma {:induction false} FinalFailuresAreEndings(t: Trace, e: ExecutionId)
    requires IsRun(t)
    ensures Count(t, e, FinalFailures) <= Count(t, e, Endings)
  {
    if t.Then? {
      FinalFailuresAreEndings(t.before, e);
    }
  }

  /** Requeues, less the repeats, never outnumber messages, nor messages attempts. */
  lemma RequeuesMessagesAttempts(t: Trace, e: ExecutionId)
    requires IsRun(t) && e in Now(t).db.executions
    ensures Count(t, e, Requeues) - RepeatedRequeues(t, e)
         <= |Linked(Now(t).db, e)| <= Now(t).db.executions[e].attemptCount
  {
    RequeuesAreRequeuedMessages(t, e);
    MessagesAreFinalFailures(t, e);
    FinalFailuresAreEndings(t, e);
    LogHoldsEveryEnding(t, e);
    SubsetBound(Requeued(Now(t).db, e), Linked(Now(t).db, e));
  }

  /** The attempt a message names: recorded by a worker, and not a success. */
  ghost predicate NamesAttempt(row: Execution, letter: DeadLetter) {
    && 1 <= letter.attemptNumber <= |row.attempts|
    && row.attempts[letter.attemptNumber - 1].workerId.Some?
    && row.attempts[letter.attemptNumber - 1].status != AttemptSucceeded
  }

  lemma LogOnlyGrows(row: Execution, job: Job, action: Action)
    requires Shape(row) && Possible(row, job, action)
    ensures row.attempts <= Perform(row, job, action).attempts
    ensures Is(FinalFailures, row, job, action) ==>
              NamesAttempt(Perform(row, job, action), DeadLetter(None, row.attemptCount + 1, None, None))
  {
  }

  /** Every message names a failed attempt of its execution ... */
  lemma {:induction false} MessageNamesAttempt(t: Trace, e: ExecutionId, d: DeadLetterId)
    requires IsRun(t) && e in Now(t).db.executions && d in Linked(Now(t).db, e)
    ensures NamesAttempt(Now(t).db.executions[e], Now(t).db.deadLetters[d])
  {
    hide ActionOn, Perform, NextDb, Step;
    if Continues(t, e) {
      LetterKept(t, d);
      Advance(t, e);
      LogOnlyGrows(LastRow(t, e), LastJob(t, e), LastAction(t, e));
      if d in Now(t.before).db.deadLetters {
        MessageNamesAttempt(t.before, e, d);
      } else {
        NewLetterNames(Now(t.before), t.event, e);
      }
    } else if t.Then? {
      UnlinkedAtBirth(t, e);
    }
  }

  lemma NewLetterNames(w: World, ev: Event, e: ExecutionId)
    requires w.db.WellFormed() && e in w.db.executions
    requires NewLetter(w, ev).Some? && NewLetter(w, ev).value.executionId == Some(e)
    ensures Happens(w, ev, e, FinalFailures)
    ensures NewLetter(w, ev).value.attemptNumber == w.db.executions[e].attemptCount + 1
  {
  }

  /** ... and no two messages of an execution name the same one. */
  lemma {:induction false} MessagesNameDistinctAttempts(t: Trace, e: ExecutionId, d: DeadLetterId, d': DeadLetterId)
    requires IsRun(t) && e in Now(t).db.executions && d in Linked(Now(t).db, e) && d' in Linked(Now(t).db, e)
    requires d < d'
    ensures Now(t).db.deadLetters[d].attemptNumber < Now(t).db.deadLetters[d'].attemptNumber
  {
    hide ActionOn, Perform, NextDb;
    if Continues(t, e) {
      LetterKept(t, d);
      LetterKept(t, d');
      if d' in Now(t.before).db.deadLetters {
        MessagesNameDistinctAttempts(t.before, e, d, d');
      } else {
        MessageNamesAttempt(t.before, e, d);
        NewLetterNames(Now(t.before), t.event, e);
        ShapeAlways(t.before, e);
      }
    } else if t.Then? {
      UnlinkedAtBirth(t, e);
    }
  }

  // Which attempts are named.

  /** The numbers of the attempts workers recorded as final failures. */
  ghost function FinalNumbers(t: Trace, e: ExecutionId): set<nat>
    requires IsRun(t)
  {
    match t
    case Start(_) => {}
    case Then(before, event) =>
      FinalNumbers(before, e)
      + if Happens(Now(before), event, e, FinalFailures) then {Now(before).db.executions[e].attemptCount + 1} else {}
  }

  predicate Names(db: Db, e: ExecutionId, number: nat) {
    exists d :: d in db.deadLetters && db.deadLetters[d].executionId == Some(e)
                && db.deadLetters[d].attemptNumber == number
  }

  lemma NamesStep(t: Trace, e: ExecutionId, number: nat)
    requires Continues(t, e)
    ensures Names(Now(t).db, e, number)
            <==> Names(Now(t.before).db, e, number)
                 || (Happens(Now(t.before), t.event, e, FinalFailures) && number == LastRow(t, e).attemptCount + 1)
  {
    hide Db.WellFormed, ActionOn, Perform, NextDb, Step, Allowed, Happens, NewLetter, LetterAfter, NextLetters;
    var w, letters := Now(t.before), Now(t.before).db.deadLetters;
    NewLetterLinks(w, t.event, e);
    if Names(w.db, e, number) {
      var d :| d in letters && letters[d].executionId == Some(e) && letters[d].attemptNumber == number;
      LettersStay(t, d);
      LetterKept(t, d);
    }
    if Names(Now(t).db, e, number) {
      var d :| d in Now(t).db.deadLetters && Now(t).db.deadLetters[d].executionId == Some(e)
               && Now(t).db.deadLetters[d].attemptNumber == number;
      LetterKept(t, d);
      if d !in letters {
        NewLetterNames(w, t.event, e);
      }
    }
    if Happens(w, t.event, e, FinalFailures) {
      LinkedStep(t, e);
      var d := w.db.nextDeadLetterId;
      assert d in Linked(Now(t).db, e);
      LetterKept(t, d);
      NewLetterNames(w, t.event, e);
    }
  }

  /** The attempts an execution's messages name are exactly its final failures. With distinct messages
      naming distinct attempts, that is a one-to-one correspondence. */
  lemma {:induction false} MessagesNameFinalFailures(t: Trace, e: ExecutionId, number: nat)
    requires IsRun(t) && e in Now(t).db.executions
    ensures Names(Now(t).db, e, number) <==> number in FinalNumbers(t, e)
  {
    hide Db.WellFormed, ActionOn, Perform, NextDb, Step, Allowed, Happens, Names;
    if Continues(t, e) {
      MessagesNameFinalFailures(t.before, e, number);
      NamesStep(t, e, number);
    } else if t.Then? {
      NothingNamedAtBirth(t, e, number);
    }
  }

  lemma NothingNamedAtBirth(t: Trace, e: ExecutionId, number: nat)
    requires IsRun(t) && t.Then? && e !in Now(t.before).db.executions && e in Now(t).db.executions
    ensures !Names(Now(t).db, e, number) && FinalNumbers(t, e) == {}
  {
    hide ActionOn, Perform, NextDb, Step, Allowed;
    UnlinkedAtBirth(t, e);
    UnlinkedNamesNothing(Now(t).db, e, number);
    NoFinalNumbers(t.before, e);
  }

  lemma UnlinkedNamesNothing(db: Db, e: ExecutionId, number: nat)
    ensures Names(db, e, number) ==> Linked(db, e) != {}
  {
    if Names(db, e, number) {
      var d :| d in db.deadLetters && db.deadLetters[d].executionId == Some(e)
               && db.deadLetters[d].attemptNumber == number;
      assert d in Linked(db, e);
    }
  }

  lemma {:induction false} NoFinalNumbers(t: Trace, e: ExecutionId)
    requires IsRun(t) && e !in Now(t).db.executions
    ensures FinalNumbers(t, e) == {}
  {
    hide Db.WellFormed, ActionOn, Perform, NextDb, Allowed;
    if t.Then? {
      if e in Now(t.before).db.executions {
        StepActs(Now(t.before), t.event, e);
      }
      NoFinalNumbers(t.before, e);
    }
  }
}
