/** The attempt log when the transactions that write it interleave. Each of the three writers reads
    the row, later reads the highest attempt number, and later commits; other handlers may change
    the row in between. The unique index on (execution, attempt number) aborts a duplicate. */
module AttemptLog {
  import opened Schema
  import opened Attempts
  import RecoveryPlan
  import Worker

  /** Who writes: a worker (guarded by status and worker id), the recovery loop, or the attempts
      route (both update the row by id alone). */
  datatype Writer = ByWorker(worker: WorkerId) | ByRecovery(staleBefore: Time) | ByRoute(workerId: Option<WorkerId>)

  /** An open transaction: the row it read, and the highest number once it read that too. */
  datatype Transaction = Transaction(writer: Writer, row: Execution, latest: Option<nat>)

  /** One execution, its open transactions, and three tallies: claims, claims ended by something
      else than an attempt, and attempts committed while nothing was running. */
  datatype State = State(
    row: Execution,
    open: map<nat, Transaction>,
    claims: nat,
    abandoned: nat,
    orphans: nat)

  datatype Move =
    | Claim(worker: WorkerId, at: Time)
    | ReadRow(tx: nat, writer: Writer)
    | ReadLatest(tx: nat)
    | Commit(tx: nat, job: Job, status: AttemptStatus, at: Time)
    | Rollback(tx: nat)
    | Other(row: Execution)

  predicate HasNumber(log: seq<Attempt>, number: nat) {
    exists i :: 0 <= i < |log| && log[i].attemptNumber == number
  }

  function PatchOf(tx: Transaction, job: Job, status: AttemptStatus, at: Time): Patch
    requires tx.latest.Some?
  {
    match tx.writer
    case ByWorker(_) => WorkerPatch(tx.row.attemptCount, tx.latest.value, job, status, at)
    case ByRecovery(_) => RecoveryPatch(tx.row.attemptCount, tx.latest.value, job, at)
    case ByRoute(_) => RoutePatch(tx.row.attemptCount, tx.latest.value, job, status, at)
  }

  function WorkerOf(tx: Transaction): Option<WorkerId> {
    match tx.writer
    case ByWorker(worker) => Some(worker)
    case ByRecovery(_) => tx.row.lockedByWorkerId
    case ByRoute(worker) => worker
  }

  /** Whether a writer goes on after reading the row. */
  predicate Readable(row: Execution, writer: Writer) {
    match writer
    case ByWorker(_) => row.status != Canceled
    case ByRecovery(staleBefore) => row.status == Running && RecoveryPlan.IsExecutionStale(row, staleBefore)
    case ByRoute(_) => true
  }

  /** The guard of the final update, against the row as it is at the commit. */
  predicate GuardHolds(row: Execution, writer: Writer) {
    writer.ByWorker? ==> Worker.Recordable(row, writer.worker)
  }

  /** Whether a commit takes effect: all reads done, guard met, no duplicate number. */
  predicate Effective(s: State, tx: nat, job: Job, status: AttemptStatus, at: Time) {
    && tx in s.open && s.open[tx].latest.Some?
    && GuardHolds(s.row, s.open[tx].writer)
    && !HasNumber(s.row.attempts, PatchOf(s.open[tx], job, status, at).attemptCount)
  }

  function Next(s: State, m: Move): State {
    match m
    case Claim(worker, at) =>
      if Worker.Claimable(s.row)
      then s.(row := ClaimedRow(s.row, worker, at), claims := s.claims + 1) else s
    case ReadRow(tx, writer) =>
      if tx !in s.open && Readable(s.row, writer) then s.(open := s.open[tx := Transaction(writer, s.row, None)]) else s
    case ReadLatest(tx) =>
      if tx in s.open then s.(open := s.open[tx := s.open[tx].(latest := Some(LatestNumber(s.row.attempts)))]) else s
    case Commit(tx, job, status, at) =>
      if Effective(s, tx, job, status, at) then
        s.(row := Ended(s.row, PatchOf(s.open[tx], job, status, at), WorkerOf(s.open[tx]), status, at),
           open := s.open - {tx},
           orphans := s.orphans + if s.row.status == Running then 0 else 1)
      else s.(open := s.open - {tx})
    case Rollback(tx) => s.(open := s.open - {tx})
    case Other(row) =>
      s.(row := row, abandoned := s.abandoned + if s.row.status == Running && row.status != Running then 1 else 0)
  }

  /** Any other handler leaves the attempts alone and starts nothing. */
  predicate Permitted(s: State, m: Move) {
    m.Other? ==>
      && m.row.attempts == s.row.attempts && m.row.attemptCount == s.row.attemptCount
      && (m.row.status == Running ==> s.row.status == Running)
  }

  predicate Fresh(s: State) {
    && s.row == NewExecution(s.row.jobId, s.row.scheduledFor)
    && s.open == map[] && s.claims == s.abandoned == s.orphans == 0
  }

  datatype History = Begin(state: State) | After(before: History, move: Move)

  ghost predicate IsHistory(h: History)
    decreases h, 0
  {
    match h
    case Begin(s) => Fresh(s)
    case After(before, m) => IsHistory(before) && Permitted(Reached(before), m)
  }

  ghost function Reached(h: History): State
    requires IsHistory(h)
    decreases h, 1
  {
    match h
    case Begin(s) => s
    case After(before, m) => Next(Reached(before), m)
  }

  /** What the open transactions read is not ahead of the log. */
  ghost predicate Consistent(s: State) {
    && GapFree(s.row.attempts, s.row.attemptCount)
    && forall tx :: tx in s.open ==>
         && s.open[tx].row.attemptCount <= s.row.attemptCount
         && (s.open[tx].latest.Some? ==> s.open[tx].latest.value <= s.row.attemptCount)
  }

  /** A commit writes either the next number or a number the log already has. */
  lemma CommitExtends(s: State, tx: nat, job: Job, status: AttemptStatus, at: Time)
    requires Consistent(s) && tx in s.open && s.open[tx].latest.Some?
    ensures var number := PatchOf(s.open[tx], job, status, at).attemptCount;
            && 1 <= number <= s.row.attemptCount + 1
            && (HasNumber(s.row.attempts, number) <==> number <= s.row.attemptCount)
  {
    var number := PatchOf(s.open[tx], job, status, at).attemptCount;
    assert number == Max(s.open[tx].row.attemptCount, s.open[tx].latest.value) + 1;
    if number <= s.row.attemptCount {
      assert s.row.attempts[number - 1].attemptNumber == number;
    }
  }

  lemma MoveKeepsConsistent(s: State, m: Move)
    requires Consistent(s) && Permitted(s, m)
    ensures Consistent(Next(s, m))
  {
    match m
    case ReadLatest(tx) => LatestOfGapFree(s.row.attempts);
    case Commit(tx, job, status, at) =>
      if tx in s.open && s.open[tx].latest.Some? {
        CommitExtends(s, tx, job, status, at);
      }
    case _ =>
  }

  lemma {:induction false} AlwaysConsistent(h: History)
    requires IsHistory(h)
    ensures Consistent(Reached(h))
  {
    match h
    case Begin(_) =>
    case After(before, m) =>
      AlwaysConsistent(before);
      MoveKeepsConsistent(Reached(before), m);
  }

  /** However the three writers and the other handlers interleave, in every committed state the
      attempt numbers are exactly 1, 2, ..., attemptCount, each once. */
  lemma LogGapFree(h: History)
    requires IsHistory(h)
    ensures GapFree(Reached(h).row.attempts, Reached(h).row.attemptCount)
  {
    AlwaysConsistent(h);
  }

  // What atomicity buys.

  /** Claims, logged attempts, abandoned claims and orphaned attempts always balance. So one claim
      stands for at most one attempt exactly as long as no commit lands on a row that is not
      running. */
  lemma {:induction false} ClaimsBalance(h: History)
    requires IsHistory(h)
    ensures var s := Reached(h);
            s.claims + s.orphans == |s.row.attempts| + s.abandoned + One(s.row.status == Running)
  {
    match h
    case Begin(_) =>
    case After(before, m) =>
      ClaimsBalance(before);
      MoveBalances(Reached(before), m);
  }

  lemma MoveBalances(s: State, m: Move)
    requires Permitted(s, m)
    requires s.claims + s.orphans == |s.row.attempts| + s.abandoned + One(s.row.status == Running)
    ensures var n := Next(s, m);
            n.claims + n.orphans == |n.row.attempts| + n.abandoned + One(n.row.status == Running)
  {
  }

  lemma AttemptsWithinClaims(h: History)
    requires IsHistory(h)
    ensures var s := Reached(h);
            s.orphans == 0 <==> s.claims == |s.row.attempts| + s.abandoned + One(s.row.status == Running)
  {
    ClaimsBalance(h);
  }

  /** A worker's commit is never an orphan. */
  lemma WorkersLeaveNoOrphans(s: State, m: Move)
    requires Next(s, m).orphans != s.orphans
    ensures m.Commit? && m.tx in s.open && !s.open[m.tx].writer.ByWorker? && s.row.status != Running
  {
  }

  lemma Extend(h: History, m: Move) returns (longer: History)
    requires IsHistory(h) && Permitted(Reached(h), m)
    ensures longer == After(h, m) && IsHistory(longer) && Reached(longer) == Next(Reached(h), m)
  {
    longer := After(h, m);
  }

  /** An execution claimed at 1 whose recovery, with the threshold at 2, has read it as stale. */
  lemma ClaimedAndRead() returns (h: History)
    ensures IsHistory(h)
    ensures var s := Reached(h);
            && s.row == ClaimedRow(QueuedRow(NewExecution(0, 0)), 7, 1) && s.claims == 1 && s.orphans == 0
            && s.open == map[0 := Transaction(ByRecovery(2), s.row, None)]
  {
    h := Begin(State(NewExecution(0, 0), map[], 0, 0, 0));
    h := Extend(h, Other(QueuedRow(NewExecution(0, 0))));
    h := Extend(h, Claim(7, 1));
    h := Extend(h, ReadRow(0, ByRecovery(2)));
  }

  /** Meanwhile the worker reports a success. */
  lemma ReportedMeanwhile(job: Job) returns (h: History)
    ensures IsHistory(h)
    ensures var s := Reached(h);
            && s.row.status == Succeeded && s.row.attemptCount == 1 && s.claims == 1 && s.orphans == 0
            && s.row.attempts == [Attempt(1, Some(7), AttemptSucceeded, 2)]
            && s.open.Keys == {0} && s.open[0].writer == ByRecovery(2) && s.open[0].row.attemptCount == 0
  {
    h := ClaimedAndRead();
    h := Extend(h, ReadRow(1, ByWorker(7)));
    h := Extend(h, ReadLatest(1));
    assert Reached(h).open[1].latest == Some(0);
    h := Extend(h, Commit(1, job, AttemptSucceeded, 2));
  }

  /** The orphans are real: recovery reads the stale RUNNING row, the worker's own report commits, recovery
      then reads the new highest number and commits a second attempt for the one claim, taking the
      execution out of SUCCEEDED. */
  lemma LateRecoveryDoublesAnAttempt(job: Job) returns (h: History)
    ensures IsHistory(h)
    ensures var s := Reached(h);
            s.claims == 1 && |s.row.attempts| == 2 && s.orphans == 1 && s.row.status != Succeeded
  {
    h := ReportedMeanwhile(job);
    AlwaysConsistent(h);
    LatestOfGapFree(Reached(h).row.attempts);
    h := Extend(h, ReadLatest(0));
    assert Reached(h).open[0].latest == Some(1);
    assert PatchOf(Reached(h).open[0], job, AttemptFailed, 3).attemptCount == 2;
    h := Extend(h, Commit(0, job, AttemptFailed, 3));
  }
}
