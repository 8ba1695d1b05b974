/** Runs of the system that exist, step by step. They show that what the concurrency theorem charges
    for is real: each of the two charges alone takes a queue past its limit. */
module Scenarios {
  import opened Schema
  import opened Attempts
  import opened Dispatch
  import opened Scheduler
  import opened Worker
  import opened World
  import opened Lifecycle
  import opened Deletion
  import opened Concurrency

  function OnlyJob(): Job {
    Job(0, OneTime, JobActive, 3, Fixed, 0, 0, None)
  }

  /** One queue that admits one execution at a time, and one job with these two executions. */
  function Two(first: Execution, second: Execution): Db {
    Db(map[0 := OnlyJob()], map[0 := Queue(0, 1, QueueActive)], map[], map[0 := first, 1 := second], map[], 2, 0)
  }

  function Fresh(): Execution {
    NewExecution(0, 0)
  }

  function CandidateOf(id: ExecutionId, row: Execution): Candidate {
    Candidate(id, 0, row.status)
  }

  /** A due execution that can be dispatched at time 0. */
  predicate Waiting(row: Execution) {
    row.jobId == 0 && Dispatchable(row.status) && row.nextAttemptAt == Some(0)
  }

  /** The queries of a planning run that finds both executions waiting, `chosen` in front. */
  function AnswerWith(rows: seq<Execution>, chosen: ExecutionId): Answers
    requires |rows| == 2 && chosen < 2
  {
    Answers([], [], map[], [CandidateOf(chosen, rows[chosen]), CandidateOf(1 - chosen, rows[1 - chosen])])
  }

  lemma PairIsPage(keys: map<nat, SortKey>, take: nat, x: nat, y: nat, key: SortKey)
    requires x != y && 2 <= take && keys == map[x := key, y := key]
    ensures IsPage(keys, take, [x, y])
  {
    assert keys.Keys == {x, y};
  }

  lemma BothAreCandidates(rows: seq<Execution>)
    requires |rows| == 2 && Waiting(rows[0]) && Waiting(rows[1])
    ensures Two(rows[0], rows[1]).WellFormed()
    ensures CandidateKeys(Two(rows[0], rows[1]), 0) == map[0 := SortKey(0, 0), 1 := SortKey(0, 0)]
  {
  }

  lemma NothingToSchedule(rows: seq<Execution>)
    requires |rows| == 2
    ensures OneTimeKeys(Two(rows[0], rows[1]), 0) == map[] && RecurringKeys(Two(rows[0], rows[1]), 0) == map[]
  {
  }

  lemma BothAreAPage(rows: seq<Execution>, chosen: ExecutionId)
    requires |rows| == 2 && chosen < 2 && Waiting(rows[0]) && Waiting(rows[1])
    ensures Two(rows[0], rows[1]).WellFormed()
    ensures Answered(Two(rows[0], rows[1]), AnswerWith(rows, chosen), 0, 1)
  {
    hide CandidateKeys, OneTimeKeys, RecurringKeys, IsPage, IsCandidatePage;
    var db, a := Two(rows[0], rows[1]), AnswerWith(rows, chosen);
    BothAreCandidates(rows);
    NothingToSchedule(rows);
    EmptyIsPage(1);
    assert ScheduleOneTime(db, a.oneTime, 0) == db;
    assert Planned(db, a, 0) == db;
    CandidatesArePage(rows, chosen);
  }

  lemma CandidatesArePage(rows: seq<Execution>, chosen: ExecutionId)
    requires |rows| == 2 && chosen < 2 && Waiting(rows[0]) && Waiting(rows[1])
    requires Two(rows[0], rows[1]).WellFormed()
    ensures IsCandidatePage(Two(rows[0], rows[1]), 0, 5, AnswerWith(rows, chosen).candidates)
  {
    hide CandidateKeys, IsPage;
    var db, cs := Two(rows[0], rows[1]), AnswerWith(rows, chosen).candidates;
    BothAreCandidates(rows);
    assert seq(|cs|, i requires 0 <= i < |cs| => cs[i].id) == [chosen, 1 - chosen];
    PairIsPage(CandidateKeys(db, 0), 5, chosen, 1 - chosen, SortKey(0, 0));
  }

  lemma EmptyIsPage(take: nat)
    ensures IsPage(map[], take, [])
  {
  }

  lemma NothingActive(rows: seq<Execution>)
    requires |rows| == 2 && Waiting(rows[0]) && Waiting(rows[1])
    requires Two(rows[0], rows[1]).WellFormed()
    ensures QueueLimits(Two(rows[0], rows[1])) == map[0 := 1]
    ensures ActiveCounts(Two(rows[0], rows[1])) == map[0 := 0]
  {
    assert ActiveIn(Two(rows[0], rows[1]), 0) == {};
  }

  /** It plans the candidate in front, and only that. */
  lemma PlansTheFirst(rows: seq<Execution>, chosen: ExecutionId)
    requires |rows| == 2 && chosen < 2 && Waiting(rows[0]) && Waiting(rows[1])
    requires Two(rows[0], rows[1]).WellFormed()
    ensures Chosen(Two(rows[0], rows[1]), AnswerWith(rows, chosen).candidates, 1) == [chosen]
  {
    var cs := AnswerWith(rows, chosen).candidates;
    NothingActive(rows);
    var limits, counts := map[0 := 1], map[0 := 0];
    assert Greedy(cs, limits, counts, 1, 0) == {};
    assert Capacity(limits, counts, 0) == 1;
    assert Taken({}, 0) == 0 && TakenIn(cs, {}, 0, 0) == 0;
    assert Greedy(cs, limits, counts, 1, 1) == {0};
    assert Greedy(cs, limits, counts, 1, 2) == {0};
    assert Taken({0}, 1) == 1 by {
      assert Taken({0}, 0) == 0;
    }
    assert Ids(cs, {0}, 1) == [chosen];
    assert Ids(cs, {0}, 2) == [chosen];
  }

  /** With the charges. */
  lemma GoCharged(t: Trace, ev: Event) returns (longer: Trace)
    requires IsRun(t) && Allowed(Now(t), ev)
    ensures longer == Then(t, ev) && IsRun(longer) && Now(longer) == Step(Now(t), ev)
    ensures StaleClaims(longer, 0) == StaleClaims(t, 0) + One(StaleClaim(Now(t), ev, Target(Now(t), ev), 0))
    ensures !ev.ClaimOrCancel? ==> StaleClaims(longer, 0) == StaleClaims(t, 0)
    ensures !ev.PlanRun? ==> Overlaps(longer, 0) == Overlaps(t, 0)
  {
    hide Db.WellFormed, Step, Allowed;
    longer := Go(t, ev);
    var target := Target(Now(t), ev);
    if StaleClaim(Now(t), ev, target, 0) {
      OnlyClaimsClaim(Now(t), ev, target);
    }
  }

  lemma PlanStep(w: World, run: RunId, rows: seq<Execution>, chosen: ExecutionId)
    requires |rows| == 2 && chosen < 2 && Waiting(rows[0]) && Waiting(rows[1])
    requires w.db.WellFormed() && run !in w.plans && w.db == Two(rows[0], rows[1])
    ensures var ev := PlanRun(run, 0, 1, AnswerWith(rows, chosen));
            Allowed(w, ev) && Step(w, ev) == w.(plans := w.plans[run := Publication([chosen], false)])
  {
    hide Answered, Chosen;
    BothAreAPage(rows, chosen);
    PlansTheFirst(rows, chosen);
    assert ScheduleOneTime(w.db, [], 0) == w.db;
    assert Planned(w.db, AnswerWith(rows, chosen), 0) == w.db;
  }

  lemma Plan(t: Trace, run: RunId, rows: seq<Execution>, chosen: ExecutionId) returns (longer: Trace)
    requires |rows| == 2 && chosen < 2 && Waiting(rows[0]) && Waiting(rows[1])
    requires IsRun(t) && run !in Now(t).plans && Now(t).db == Two(rows[0], rows[1])
    ensures IsRun(longer) && Now(longer) == Now(t).(plans := Now(t).plans[run := Publication([chosen], false)])
    ensures StaleClaims(longer, 0) == StaleClaims(t, 0) && Overlaps(longer, 0) == Overlaps(t, 0) + |Unmarked(Now(t), 0)|
  {
    hide Db.WellFormed, Step, StaleClaims, Unmarked, Allowed;
    PlanStep(Now(t), run, rows, chosen);
    longer := GoCharged(t, PlanRun(run, 0, 1, AnswerWith(rows, chosen)));
  }

  lemma PublishStep(w: World, run: RunId, id: ExecutionId)
    requires w.db.WellFormed() && run in w.plans && w.plans[run] == Publication([id], false)
    ensures Step(w, Publish(run))
         == w.(ready := w.ready + multiset{id}, plans := w.plans[run := Publication([id], true)])
  {
  }

  lemma MarkStep(w: World, run: RunId, id: ExecutionId)
    requires w.db.WellFormed() && run in w.plans && w.plans[run] == Publication([id], true)
    requires id in w.db.executions && Dispatchable(w.db.executions[id].status)
    ensures Step(w, Mark(run)) == w.(db := w.db.WithRow(id, QueuedRow(w.db.executions[id])),
                                     plans := w.plans[run := Publication([], false)])
  {
    assert [id][1..] == [];
  }

  /** A run publishes its only id and marks it. */
  lemma PublishAndMark(t: Trace, run: RunId, id: ExecutionId) returns (longer: Trace)
    requires IsRun(t) && run in Now(t).plans && Now(t).plans[run] == Publication([id], false)
    requires id in Now(t).db.executions && Dispatchable(Now(t).db.executions[id].status)
    ensures IsRun(longer) && StaleClaims(longer, 0) == StaleClaims(t, 0) && Overlaps(longer, 0) == Overlaps(t, 0)
    ensures var w := Now(t);
            Now(longer) == w.(db := w.db.WithRow(id, QueuedRow(w.db.executions[id])), ready := w.ready + multiset{id},
                              plans := w.plans[run := Publication([], false)])
  {
    hide Db.WellFormed, Step, StaleClaims, Overlaps;
    var w := Now(t);
    PublishStep(w, run, id);
    longer := GoCharged(t, Publish(run));
    MarkStep(Now(longer), run, id);
    longer := GoCharged(longer, Mark(run));
  }

  lemma RunStep(w: World)
    requires w.db.WellFormed() && 0 in w.db.jobs && w.db.jobs[0].status == JobActive
    ensures Step(w, RunJob(0, 0)) == w.(db := CreateExecution(w.db, 0, 0))
  {
  }

  lemma StartWithTwo() returns (t: Trace)
    ensures IsRun(t) && Now(t) == World(Two(Fresh(), Fresh()), multiset{}, map[], map[], map[])
    ensures StaleClaims(t, 0) == 0 && Overlaps(t, 0) == 0
  {
    hide Step;
    var none := Two(Fresh(), Fresh()).(executions := map[], nextExecutionId := 0);
    t := Start(World(none, multiset{}, map[], map[], map[]));
    RunStep(Now(t));
    t := GoCharged(t, RunJob(0, 0));
    RunStep(Now(t));
    t := GoCharged(t, RunJob(0, 0));
    assert Now(t).db.executions == map[0 := Fresh(), 1 := Fresh()];
  }

  /** Two overlapping dispatch runs queue two executions of a queue that admits one, with a single
      charge for the execution the second run found unmarked. */
  lemma OverlapExceedsLimit() returns (t: Trace)
    ensures IsRun(t) && StaleClaims(t, 0) == 0 && Overlaps(t, 0) == 1
    ensures 0 in Now(t).db.queues && Now(t).db.queues[0].concurrencyLimit == 1 && |ActiveIn(Now(t).db, 0)| == 2
  {
    hide Db.WellFormed, Step, StaleClaims, Overlaps, IsRun, StaleClaim, ActionOn, Allowed;
    t := StartWithTwo();
    var rows := [Fresh(), Fresh()];
    assert Unmarked(Now(t), 0) == {};
    t := Plan(t, 0, rows, 0);
    assert Unmarked(Now(t), 0) == {0} by {
      assert 0 in Now(t).plans[0].remaining;
    }
    t := Plan(t, 1, rows, 1);
    t := PublishAndMark(t, 0, 0);
    t := PublishAndMark(t, 1, 1);
    assert ActiveIn(Now(t).db, 0) == {0, 1};
  }

  lemma DeliverStep(w: World, tag: Tag, worker: WorkerId, id: ExecutionId)
    requires w.db.WellFormed() && tag !in w.handlers && id in w.ready
    ensures Allowed(w, Deliver(tag, worker, id))
    ensures Step(w, Deliver(tag, worker, id))
         == w.(ready := w.ready - multiset{id}, handlers := w.handlers[tag := Delivered(worker, id)])
  {
  }

  lemma ReadStep(w: World, tag: Tag, worker: WorkerId, id: ExecutionId)
    requires w.db.WellFormed() && tag in w.handlers && w.handlers[tag] == Delivered(worker, id)
    requires id in w.db.executions && !Terminal(w.db.executions[id].status) && w.db.JobOf(id).status == JobActive
    ensures Step(w, ReadRow(tag)) == w.(handlers := w.handlers[tag := Observed(worker, id, false)])
  {
  }

  lemma ClaimStep(w: World, tag: Tag, worker: WorkerId, id: ExecutionId)
    requires w.db.WellFormed() && tag in w.handlers && w.handlers[tag] == Observed(worker, id, false)
    requires id in w.db.executions && Claimable(w.db.executions[id])
    ensures Step(w, ClaimOrCancel(tag, 0)) == w.(db := w.db.WithRow(id, ClaimedRow(w.db.executions[id], worker, 0)),
                                                 handlers := w.handlers[tag := Executing(worker, id)])
    ensures Target(w, ClaimOrCancel(tag, 0)) == id && ActionOn(w, ClaimOrCancel(tag, 0), id).Claimed?
  {
  }

  lemma OthersAllowed(w: World, tag: Tag)
    requires w.db.WellFormed()
    ensures Allowed(w, ReadRow(tag)) && Allowed(w, ClaimOrCancel(tag, 0)) && Allowed(w, ReadReport(tag))
    ensures Allowed(w, Report(tag, AttemptFailed, 0))
  {
  }

  /** A worker receives a message and reads its execution ... */
  lemma Receive(t: Trace, tag: Tag, worker: WorkerId, id: ExecutionId) returns (longer: Trace)
    requires IsRun(t) && tag !in Now(t).handlers && id in Now(t).ready && id in Now(t).db.executions
    requires !Terminal(Now(t).db.executions[id].status) && Now(t).db.JobOf(id).status == JobActive
    ensures IsRun(longer) && Overlaps(longer, 0) == Overlaps(t, 0) && StaleClaims(longer, 0) == StaleClaims(t, 0)
    ensures Now(longer) == Now(t).(ready := Now(t).ready - multiset{id},
                                   handlers := Now(t).handlers[tag := Observed(worker, id, false)])
  {
    hide Db.WellFormed, Step, StaleClaims, Overlaps, IsRun, ActionOn, Target, Allowed, StaleClaim;
    DeliverStep(Now(t), tag, worker, id);
    longer := GoCharged(t, Deliver(tag, worker, id));
    ReadStep(Now(longer), tag, worker, id);
    OthersAllowed(Now(longer), tag);
    longer := GoCharged(longer, ReadRow(tag));
  }

  /** ... and claims it. */
  lemma ReceiveAndClaim(t: Trace, tag: Tag, worker: WorkerId, id: ExecutionId) returns (longer: Trace)
    requires IsRun(t) && tag !in Now(t).handlers && id in Now(t).ready && id in Now(t).db.executions
    requires Claimable(Now(t).db.executions[id]) && Now(t).db.JobOf(id) == OnlyJob()
    ensures IsRun(longer) && Overlaps(longer, 0) == Overlaps(t, 0)
    ensures var w := Now(t);
            && Now(longer) == w.(db := w.db.WithRow(id, ClaimedRow(w.db.executions[id], worker, 0)),
                                 ready := w.ready - multiset{id},
                                 handlers := w.handlers[tag := Executing(worker, id)])
            && StaleClaims(longer, 0) == StaleClaims(t, 0)
                                         + One(w.db.executions[id].status == RetryScheduled && !InPlan(w, id))
  {
    hide Db.WellFormed, Step, StaleClaims, Overlaps, IsRun, ActionOn, Target, Allowed;
    longer := Receive(t, tag, worker, id);
    OthersAllowed(Now(longer), tag);
    ClaimStep(Now(longer), tag, worker, id);
    longer := GoCharged(longer, ClaimOrCancel(tag, 0));
  }

  /** The row of an execution whose first attempt failed. */
  function RetryingRow(): Execution {
    Fresh().(status := RetryScheduled, attemptCount := 1, startedAt := Some(0), lastHeartbeatAt := Some(0),
             attempts := [Attempt(1, Some(7), AttemptFailed, 0)])
  }

  /** The worker reports a failure: it reads the execution and its job, then commits. */
  lemma ReadReportStep(w: World, tag: Tag, id: ExecutionId)
    requires w.db.WellFormed() && tag in w.handlers && w.handlers[tag] == Executing(7, id) && id in w.db.executions
    requires w.db.executions[id].status == Running
    ensures Step(w, ReadReport(tag))
         == w.(handlers := w.handlers[tag := Reporting(7, id, w.db.JobOf(id).status)])
  {
  }

  lemma ReportStep(w: World, tag: Tag, id: ExecutionId)
    requires w.db.WellFormed() && tag in w.handlers && w.handlers[tag] == Reporting(7, id, JobActive)
    requires id in w.db.executions && w.db.executions[id] == ClaimedRow(QueuedRow(Fresh()), 7, 0)
    requires w.db.JobOf(id).Seen(JobActive) == OnlyJob()
    ensures Step(w, Report(tag, AttemptFailed, 0))
         == w.(db := w.db.WithRow(id, RetryingRow()), handlers := w.handlers[tag := Executing(7, id)])
  {
    var patch := ReportPatch(w.db.executions[id], w.db.JobOf(id), JobActive, AttemptFailed, 0);
    assert patch == Patch(1, RetryScheduled, Some(0), None, false);
    assert Ended(w.db.executions[id], patch, Some(7), AttemptFailed, 0) == RetryingRow();
  }

  lemma EndStep(w: World, run: RunId)
    requires w.db.WellFormed()
    ensures Step(w, EndRun(run)) == w.(plans := w.plans - {run})
  {
  }

  /** A run publishes its id but ends before it marks it ... */
  lemma PublishedUnmarked() returns (t: Trace)
    ensures IsRun(t) && StaleClaims(t, 0) == 0 && Overlaps(t, 0) == 0
    ensures Now(t) == World(Two(Fresh(), Fresh()), multiset{0}, map[], map[], map[])
  {
    hide Db.WellFormed, Step, StaleClaims, Overlaps, IsRun, StaleClaim, ActionOn;
    t := StartWithTwo();
    assert Unmarked(Now(t), 0) == {};
    t := Plan(t, 0, [Fresh(), Fresh()], 0);
    PublishStep(Now(t), 0, 0);
    t := GoCharged(t, Publish(0));
    EndStep(Now(t), 0);
    t := GoCharged(t, EndRun(0));
    assert Now(t).plans == map[];
  }

  /** ... so the next run publishes it again. */
  lemma PublishedTwice() returns (t: Trace)
    ensures IsRun(t) && StaleClaims(t, 0) == 0 && Overlaps(t, 0) == 0
    ensures Now(t) == World(Two(QueuedRow(Fresh()), Fresh()), multiset{0, 0}, map[], map[],
                            map[0 := Publication([], false)])
  {
    hide Db.WellFormed, Step, StaleClaims, Overlaps, IsRun, StaleClaim, ActionOn, Allowed;
    t := PublishedUnmarked();
    assert Unmarked(Now(t), 0) == {};
    t := Plan(t, 0, [Fresh(), Fresh()], 0);
    t := PublishAndMark(t, 0, 0);
    assert Now(t).db.executions == map[0 := QueuedRow(Fresh()), 1 := Fresh()];
  }

  lemma FirstAttemptFails() returns (t: Trace)
    ensures IsRun(t) && StaleClaims(t, 0) == 0 && Overlaps(t, 0) == 0
    ensures Now(t) == World(Two(RetryingRow(), Fresh()), multiset{0}, map[0 := Executing(7, 0)], map[],
                            map[0 := Publication([], false)])
  {
    hide Db.WellFormed, Step, StaleClaims, Overlaps, IsRun, StaleClaim, ActionOn, Allowed;
    t := PublishedTwice();
    t := ReceiveAndClaim(t, 0, 7, 0);
    OthersAllowed(Now(t), 0);
    ReadReportStep(Now(t), 0, 0);
    t := GoCharged(t, ReadReport(0));
    OthersAllowed(Now(t), 0);
    ReportStep(Now(t), 0, 0);
    t := GoCharged(t, Report(0, AttemptFailed, 0));
    assert Now(t).handlers == map[0 := Executing(7, 0)];
    assert Now(t).db.executions == map[0 := RetryingRow(), 1 := Fresh()];
  }

  /** The next run gives the freed place to the other execution. */
  lemma PlaceGivenAway() returns (t: Trace)
    ensures IsRun(t) && StaleClaims(t, 0) == 0 && Overlaps(t, 0) == 0
    ensures Now(t) == World(Two(RetryingRow(), QueuedRow(Fresh())), multiset{0, 1}, map[0 := Executing(7, 0)], map[],
                            map[0 := Publication([], false), 1 := Publication([], false)])
  {
    hide Db.WellFormed, Step, StaleClaims, Overlaps, IsRun, StaleClaim, ActionOn, Allowed;
    t := FirstAttemptFails();
    assert Unmarked(Now(t), 0) == {};
    t := Plan(t, 1, [RetryingRow(), Fresh()], 1);
    t := PublishAndMark(t, 1, 1);
    assert Now(t).db.executions == map[0 := RetryingRow(), 1 := QueuedRow(Fresh())];
  }

  /** Without any overlap: the message left over from the unmarked publish then takes the first
      execution back to work. */
  lemma StaleClaimExceedsLimit() returns (t: Trace)
    ensures IsRun(t) && StaleClaims(t, 0) == 1 && Overlaps(t, 0) == 0
    ensures 0 in Now(t).db.queues && Now(t).db.queues[0].concurrencyLimit == 1 && |ActiveIn(Now(t).db, 0)| == 2
  {
    hide Db.WellFormed, Step, StaleClaims, Overlaps, IsRun;
    t := PlaceGivenAway();
    assert !InPlan(Now(t), 0);
    t := ReceiveAndClaim(t, 1, 8, 0);
    assert ActiveIn(Now(t).db, 0) == {0, 1};
  }
}
