/** What the guards of the commands are for: an update gets past one only if it was read before. So from
    a state in which nothing that matters is still open, what the guards protect stays for good. */
module Guards {
  import opened Schema
  import opened ExecutionCommands
  import opened JobCommands
  import opened Recovery
  import opened World
  import opened Lifecycle
  import opened Deletion
  import opened DeadLetters

  /** What a command found when it opened. */
  predicate JustRead(db: Db, command: Command)
    requires db.WellFormed()
  {
    match command
    case Switching(j, _) => StatusDecision(db, j) == Ok
    case Retrying(id, _, _) => RetryDecision(db, id) == Ok
    case Requeuing(d, id) => RequeueDecision(db, d) == Ok && db.deadLetters[d].executionId == Some(id)
    case Discarding(d) => DiscardDecision(db, d) == Ok
    case Recovering(id, seen, _) =>
      id in db.executions && db.executions[id].status == Running && seen == db.JobOf(id).status
  }

  lemma CommandsOpenByReading(w: World, ev: Event, tag: Tag)
    requires w.db.WellFormed() && Allowed(w, ev) && tag in Step(w, ev).commands
    ensures (tag in w.commands && Step(w, ev).commands[tag] == w.commands[tag])
            || JustRead(w.db, Step(w, ev).commands[tag])
  {
    hide Db.WellFormed, NextDb, NextPlans, NextHandlers, NextReady;
    assert Step(w, ev).commands == NextCommands(w, ev);
  }

  lemma ReportsOpenByReading(w: World, ev: Event, tag: Tag)
    requires w.db.WellFormed() && Allowed(w, ev) && tag in Step(w, ev).handlers && Step(w, ev).handlers[tag].Reporting?
    ensures var h := Step(w, ev).handlers[tag];
            || (tag in w.handlers && w.handlers[tag] == h)
            || (h.id in w.db.executions && h.seen == w.db.JobOf(h.id).status)
  {
    hide Db.WellFormed, NextDb, NextPlans, NextCommands, NextReady;
    assert Step(w, ev).handlers == NextHandlers(w, ev);
  }

  // A deleted job.

  /** No command that sets the status of `j` is under way. */
  ghost predicate NoSwitch(w: World, j: JobId) {
    forall tag :: tag in w.commands && w.commands[tag].Switching? ==> w.commands[tag].job != j
  }

  lemma NoSwitchOpens(t: Trace, j: JobId)
    requires IsRun(t) && t.Then? && j in Now(t.before).db.jobs && Now(t.before).db.jobs[j].status == JobDeleted
    requires NoSwitch(Now(t.before), j)
    ensures NoSwitch(Now(t), j)
  {
    hide Db.WellFormed, ActionOn, Perform, NextDb, Step, Allowed;
    forall tag | tag in Now(t).commands && Now(t).commands[tag].Switching?
      ensures Now(t).commands[tag].job != j
    {
      CommandsOpenByReading(Now(t.before), t.event, tag);
    }
  }

  /** A deleted job for which no pause, resume or edit is under way stays deleted, whatever follows. */
  lemma {:induction false} DeletedForGood(from: Trace, t: Trace, j: JobId)
    requires IsRun(from) && IsRun(t) && Extends(from, t)
    requires j in Now(from).db.jobs && Now(from).db.jobs[j].status == JobDeleted && NoSwitch(Now(from), j)
    ensures j in Now(t).db.jobs && Now(t).db.jobs[j].status == JobDeleted && NoSwitch(Now(t), j)
    decreases t
  {
    hide Db.WellFormed, ActionOn, Perform, NextDb, Step, Allowed, NoSwitch;
    if t != from {
      DeletedForGood(from, t.before, j);
      NoSwitchOpens(t, j);
      UndeletedExactly(t, j);
      CommitsWereOpen(t, j);
    }
  }

  lemma CommitsWereOpen(t: Trace, j: JobId)
    requires IsRun(t) && t.Then? && NoSwitch(Now(t.before), j)
    ensures !(t.event.CommitStatus? && t.event.job == j)
  {
    hide Db.WellFormed, ActionOn, Perform, NextDb, Step;
  }

  // An execution of a deleted job.

  /** The command can no longer revive `e`. */
  predicate Harmless(command: Command, e: ExecutionId) {
    match command
    case Retrying(id, _, _) => id != e
    case Requeuing(_, id) => id != e
    case Recovering(id, seen, _) => id != e || seen == JobDeleted
    case _ => true
  }

  /** Nothing that read the job of `e` before its deletion is still under way. */
  ghost predicate Closed(w: World, e: ExecutionId) {
    && (forall tag :: tag in w.commands ==> Harmless(w.commands[tag], e))
    && (forall tag :: tag in w.handlers && w.handlers[tag].Reporting? && w.handlers[tag].id == e ==>
          w.handlers[tag].seen != JobActive)
  }

  lemma ReadingIsHarmless(db: Db, command: Command, e: ExecutionId)
    requires db.WellFormed() && e in db.executions && db.JobOf(e).status == JobDeleted && JustRead(db, command)
    ensures Harmless(command, e)
  {
  }

  lemma StaysClosed(t: Trace, e: ExecutionId)
    requires Continues(t, e) && LastJob(t, e).status == JobDeleted && Closed(Now(t.before), e)
    ensures Closed(Now(t), e)
  {
    hide Db.WellFormed, ActionOn, Perform, NextDb, Step, Allowed, Harmless, JustRead;
    var w := Now(t.before);
    forall tag | tag in Now(t).commands
      ensures Harmless(Now(t).commands[tag], e)
    {
      CommandsOpenByReading(w, t.event, tag);
      if JustRead(w.db, Now(t).commands[tag]) {
        ReadingIsHarmless(w.db, Now(t).commands[tag], e);
      }
    }
    forall tag | tag in Now(t).handlers && Now(t).handlers[tag].Reporting? && Now(t).handlers[tag].id == e
      ensures Now(t).handlers[tag].seen != JobActive
    {
      ReportsOpenByReading(w, t.event, tag);
    }
  }

  lemma ClosedIsNeverLate(w: World, ev: Event, e: ExecutionId)
    requires w.db.WellFormed() && Allowed(w, ev) && Closed(w, e)
    ensures !Late(w, ev, e)
  {
    hide ActionOn, InPlan, Allowed, Closed;
    if Late(w, ev, e) {
      RevivalsTouch(w.db.executions[e], w.db.JobOf(e), ActionOn(w, ev, e), InPlan(w, e));
      if ActionOn(w, ev, e).Reported? {
        ReporterIsOpen(w, ev, e);
      } else {
        ReviverIsOpen(w, ev, e);
      }
      assert false;
    }
  }

  lemma ReporterIsOpen(w: World, ev: Event, e: ExecutionId)
    requires w.db.WellFormed() && e in w.db.executions && ActionOn(w, ev, e).Reported? && Closed(w, e)
    ensures ActionOn(w, ev, e).seen != JobActive
  {
    hide Db.WellFormed;
  }

  lemma ReviverIsOpen(w: World, ev: Event, e: ExecutionId)
    requires w.db.WellFormed() && Allowed(w, ev) && e in w.db.executions && Closed(w, e)
    ensures !ActionOn(w, ev, e).Reopened? && !ActionOn(w, ev, e).Requeued? && !ActionOn(w, ev, e).Recovered?
  {
    hide Db.WellFormed;
  }

  /** Once nothing is under way that read the job before its deletion, a quiet execution of it stays
      quiet for good ... */
  lemma {:induction false} QuietForGood(from: Trace, t: Trace, e: ExecutionId)
    requires IsRun(from) && IsRun(t) && Extends(from, t) && e in Now(from).db.executions
    requires Now(from).db.JobOf(e).status == JobDeleted && NoSwitch(Now(from), Now(from).db.executions[e].jobId)
    requires Quiet(Now(from), e) && Closed(Now(from), e)
    ensures e in Now(t).db.executions && Now(t).db.executions[e].jobId == Now(from).db.executions[e].jobId
    ensures Now(t).db.JobOf(e).status == JobDeleted && Quiet(Now(t), e) && Closed(Now(t), e)
    decreases t
  {
    hide ActionOn, Perform, NextDb, Step, Allowed, NoSwitch, Quiet, Closed, Late;
    if t != from {
      QuietForGood(from, t.before, e);
      Advance(t, e);
      PerformKeepsJob(LastRow(t, e), LastJob(t, e), LastAction(t, e));
      DeletedForGood(from, t, Now(from).db.executions[e].jobId);
      StaysClosed(t, e);
      ClosedIsNeverLate(Now(t.before), t.event, e);
      QuietBrokenExactly(t, e);
    }
  }

  /** ... and no claim of it ever succeeds again. */
  lemma NothingRunsAfterDeletion(from: Trace, t: Trace, e: ExecutionId)
    requires IsRun(from) && Continues(t, e) && Extends(from, t.before) && e in Now(from).db.executions
    requires Now(from).db.JobOf(e).status == JobDeleted && NoSwitch(Now(from), Now(from).db.executions[e].jobId)
    requires Quiet(Now(from), e) && Closed(Now(from), e)
    ensures !LastAction(t, e).Claimed?
  {
    hide Db.WellFormed, ActionOn, Perform, NextDb, Step, Allowed, NoSwitch, Closed;
    QuietForGood(from, t.before, e);
    Advance(t, e);
  }

  /** No worker that found the job of `e` not deleted is about to claim `e`. */
  ghost predicate NoReader(w: World, e: ExecutionId) {
    forall tag :: tag in w.handlers && w.handlers[tag].Observed? && w.handlers[tag].id == e ==>
      w.handlers[tag].jobDeleted
  }

  lemma ObservedByReading(w: World, ev: Event, tag: Tag, e: ExecutionId)
    requires w.db.WellFormed() && Allowed(w, ev) && tag in Step(w, ev).handlers
    requires e in w.db.executions && w.db.JobOf(e).status == JobDeleted
    requires Step(w, ev).handlers[tag].Observed? && Step(w, ev).handlers[tag].id == e
    ensures (tag in w.handlers && w.handlers[tag] == Step(w, ev).handlers[tag]) || Step(w, ev).handlers[tag].jobDeleted
  {
    hide Db.WellFormed, NextDb, NextPlans, NextCommands, NextReady;
    assert Step(w, ev).handlers == NextHandlers(w, ev);
  }

  lemma ClaimedByReader(w: World, ev: Event, e: ExecutionId)
    requires w.db.WellFormed() && e in w.db.executions && NoReader(w, e)
    ensures !ActionOn(w, ev, e).Claimed?
  {
    hide Db.WellFormed;
  }

  lemma NoReaderAppears(t: Trace, e: ExecutionId)
    requires Continues(t, e) && LastJob(t, e).status == JobDeleted && NoReader(Now(t.before), e)
    ensures NoReader(Now(t), e)
  {
    hide Db.WellFormed, ActionOn, Perform, NextDb, Step, Allowed;
    forall tag | tag in Now(t).handlers && Now(t).handlers[tag].Observed? && Now(t).handlers[tag].id == e
      ensures Now(t).handlers[tag].jobDeleted
    {
      ObservedByReading(Now(t.before), t.event, tag, e);
    }
  }

  /** The worker's own check: whatever late updates do to an execution of a deleted job, only a worker
      that read it before the deletion can still claim it. */
  lemma {:induction false} LateReadersNeverClaim(from: Trace, t: Trace, e: ExecutionId)
    requires IsRun(from) && IsRun(t) && Extends(from, t) && e in Now(from).db.executions
    requires Now(from).db.JobOf(e).status == JobDeleted && NoSwitch(Now(from), Now(from).db.executions[e].jobId)
    requires NoReader(Now(from), e)
    ensures e in Now(t).db.executions && Now(t).db.executions[e].jobId == Now(from).db.executions[e].jobId
    ensures NoReader(Now(t), e) && (t != from ==> Continues(t, e) && !LastAction(t, e).Claimed?)
    decreases t
  {
    hide ActionOn, Perform, NextDb, Step, Allowed, NoSwitch, NoReader;
    if t != from {
      LateReadersNeverClaim(from, t.before, e);
      Advance(t, e);
      PerformKeepsJob(LastRow(t, e), LastJob(t, e), LastAction(t, e));
      DeletedForGood(from, t.before, Now(from).db.executions[e].jobId);
      NoReaderAppears(t, e);
      ClaimedByReader(Now(t.before), t.event, e);
    }
  }

  // A settled message.

  /** No requeue, and if `discards` no discard, of `d` is under way. */
  ghost predicate Undisturbed(w: World, d: DeadLetterId, discards: bool) {
    forall tag :: tag in w.commands ==>
      match w.commands[tag]
      case Requeuing(message, _) => message != d
      case Discarding(message) => discards || message != d
      case _ => true
  }

  lemma SettledCommands(db: Db, command: Command, d: DeadLetterId)
    requires db.WellFormed() && d in db.deadLetters && JustRead(db, command)
    ensures db.deadLetters[d].requeuedAt.Some? || db.deadLetters[d].discardedAt.Some? ==>
              !(command.Requeuing? && command.message == d)
    ensures db.deadLetters[d].requeuedAt.Some? ==> !(command.Discarding? && command.message == d)
  {
  }

  lemma StaysUndisturbed(t: Trace, d: DeadLetterId, discards: bool)
    requires IsRun(t) && t.Then? && d in Now(t.before).db.deadLetters && Undisturbed(Now(t.before), d, discards)
    requires var letter := Now(t.before).db.deadLetters[d];
             letter.requeuedAt.Some? || (discards && letter.discardedAt.Some?)
    ensures Undisturbed(Now(t), d, discards)
  {
    hide Db.WellFormed, ActionOn, Perform, NextDb, Step, Allowed, JustRead;
    var w := Now(t.before);
    forall tag | tag in Now(t).commands
      ensures match Now(t).commands[tag]
              case Requeuing(message, _) => message != d
              case Discarding(message) => discards || message != d
              case _ => true
    {
      CommandsOpenByReading(w, t.event, tag);
      if JustRead(w.db, Now(t).commands[tag]) {
        SettledCommands(w.db, Now(t).commands[tag], d);
      }
    }
  }

  lemma UndisturbedIsKept(t: Trace, d: DeadLetterId, discards: bool)
    requires IsRun(t) && t.Then? && d in Now(t.before).db.deadLetters && Undisturbed(Now(t.before), d, discards)
    ensures d in Now(t).db.deadLetters
    ensures var before, after := Now(t.before).db.deadLetters[d], Now(t).db.deadLetters[d];
            && after.requeuedAt == before.requeuedAt
            && (before.discardedAt.Some? ==> after.discardedAt.Some?)
            && (!discards ==> after == before)
  {
    hide Db.WellFormed, ActionOn, Perform, NextDb, Step;
    LettersStay(t, d);
  }

  /** A requeued message that nothing under way can touch is never touched again. */
  lemma {:induction false} RequeuedForGood(from: Trace, t: Trace, d: DeadLetterId)
    requires IsRun(from) && IsRun(t) && Extends(from, t) && d in Now(from).db.deadLetters
    requires Now(from).db.deadLetters[d].requeuedAt.Some? && Undisturbed(Now(from), d, false)
    ensures d in Now(t).db.deadLetters && Now(t).db.deadLetters[d] == Now(from).db.deadLetters[d]
    ensures Undisturbed(Now(t), d, false)
    decreases t
  {
    hide Db.WellFormed, ActionOn, Perform, NextDb, Step, Allowed, Undisturbed;
    if t != from {
      RequeuedForGood(from, t.before, d);
      StaysUndisturbed(t, d, false);
      UndisturbedIsKept(t, d, false);
    }
  }

  /** A discarded message of which no requeue is under way is never requeued. */
  lemma {:induction false} DiscardedForGood(from: Trace, t: Trace, d: DeadLetterId)
    requires IsRun(from) && IsRun(t) && Extends(from, t) && d in Now(from).db.deadLetters
    requires Now(from).db.deadLetters[d].requeuedAt.None? && Now(from).db.deadLetters[d].discardedAt.Some?
    requires Undisturbed(Now(from), d, true)
    ensures d in Now(t).db.deadLetters && Undisturbed(Now(t), d, true)
    ensures Now(t).db.deadLetters[d].requeuedAt.None? && Now(t).db.deadLetters[d].discardedAt.Some?
    decreases t
  {
    hide Db.WellFormed, ActionOn, Perform, NextDb, Step, Allowed, Undisturbed;
    if t != from {
      DiscardedForGood(from, t.before, d);
      StaysUndisturbed(t, d, true);
      UndisturbedIsKept(t, d, true);
    }
  }

  // An ended execution.

  /** No recovery of `e` is under way. */
  ghost predicate NoRecovery(w: World, e: ExecutionId) {
    forall tag :: tag in w.commands && w.commands[tag].Recovering? ==> w.commands[tag].id != e
  }

  lemma NoRecoveryOpens(t: Trace, e: ExecutionId)
    requires Continues(t, e) && Terminal(LastRow(t, e).status) && NoRecovery(Now(t.before), e)
    ensures NoRecovery(Now(t), e)
    ensures !LastAction(t, e).Recovered? && !LastAction(t, e).Overruled?
  {
    hide Db.WellFormed, Perform, NextDb, Step;
    forall tag | tag in Now(t).commands && Now(t).commands[tag].Recovering?
      ensures Now(t).commands[tag].id != e
    {
      CommandsOpenByReading(Now(t.before), t.event, tag);
    }
    if LastAction(t, e).Recovered? || LastAction(t, e).Overruled? {
      OnlyRecoveryRecovers(Now(t.before), t.event, e);
    }
  }

  lemma OnlyRecoveryRecovers(w: World, ev: Event, e: ExecutionId)
    requires w.db.WellFormed() && e in w.db.executions
    requires ActionOn(w, ev, e).Recovered? || ActionOn(w, ev, e).Overruled?
    ensures ev.CommitRecovery? && ev.id == e
  {
    hide Db.WellFormed;
  }

  lemma {:induction false} ReopeningsGrow(from: Trace, t: Trace, e: ExecutionId)
    requires IsRun(t) && Extends(from, t)
    ensures IsRun(from) && Count(from, e, Reopenings) <= Count(t, e, Reopenings)
    decreases t
  {
    if t != from {
      ReopeningsGrow(from, t.before, e);
    }
  }

  /** An execution that ended, and that no recovery under way has read as running, keeps its final
      status until it is reopened. */
  lemma {:induction false} EndedForGood(from: Trace, t: Trace, e: ExecutionId)
    requires IsRun(from) && IsRun(t) && Extends(from, t) && e in Now(from).db.executions
    requires Terminal(Now(from).db.executions[e].status) && NoRecovery(Now(from), e)
    requires Count(t, e, Reopenings) == Count(from, e, Reopenings)
    ensures e in Now(t).db.executions && Now(t).db.executions[e].status == Now(from).db.executions[e].status
    ensures NoRecovery(Now(t), e)
    decreases t
  {
    hide Db.WellFormed, ActionOn, Perform, NextDb, Step, Allowed, NoRecovery;
    if t != from {
      ReopeningsGrow(from, t.before, e);
      EndedForGood(from, t.before, e);
      Advance(t, e);
      NoRecoveryOpens(t, e);
      TerminalLeftExactly(t, e);
    }
  }
}
