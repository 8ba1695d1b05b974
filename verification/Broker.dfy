/** The messages between scheduler and workers. */
module Broker {
  import opened Schema
  import opened Scheduler
  import opened World
  import opened Lifecycle

  datatype Traffic = Sent | Returned | Received

  ghost predicate Moves(w: World, ev: Event, e: ExecutionId, traffic: Traffic) {
    match traffic
    case Sent =>
      ev.Publish? && ev.run in w.plans && |w.plans[ev.run].remaining| > 0 && w.plans[ev.run].remaining[0] == e
    case Returned => ev.Settle? && ev.putBack && ev.tag in w.handlers && w.handlers[ev.tag].id == e
    case Received => ev.Deliver? && ev.id == e
  }

  /** How many messages of an execution were published, put back or delivered along a run. */
  ghost function Messages(t: Trace, e: ExecutionId, traffic: Traffic): nat
    requires IsRun(t)
  {
    match t
    case Start(_) => 0
    case Then(before, event) => Messages(before, e, traffic) + One(Moves(Now(before), event, e, traffic))
  }

  lemma ReadyStep(w: World, ev: Event, e: ExecutionId)
    requires w.db.WellFormed() && Allowed(w, ev)
    ensures Step(w, ev).ready[e] + One(Moves(w, ev, e, Received))
         == w.ready[e] + One(Moves(w, ev, e, Sent)) + One(Moves(w, ev, e, Returned))
  {
    hide Db.WellFormed, NextDb, NextPlans, NextHandlers, NextCommands;
  }

  /** Messages are conserved: what was published or put back is waiting or was delivered. */
  lemma {:induction false} MessagesConserved(t: Trace, e: ExecutionId)
    requires IsRun(t)
    ensures Messages(t, e, Sent) + Messages(t, e, Returned) == Now(t).ready[e] + Messages(t, e, Received)
  {
    hide Db.WellFormed, Step, Allowed, Moves;
    if t.Then? {
      MessagesConserved(t.before, e);
      ReadyStep(Now(t.before), t.event, e);
    }
  }

  /** The deliveries of an execution that may still claim it. */
  ghost function Unclaimed(w: World, e: ExecutionId): set<Tag> {
    set tag | tag in w.handlers && w.handlers[tag].id == e && (w.handlers[tag].Delivered? || w.handlers[tag].Observed?)
  }

  /** The delivery an event uses up for a claim. */
  ghost function Used(w: World, ev: Event, e: ExecutionId): set<Tag>
    requires w.db.WellFormed()
  {
    if Happens(w, ev, e, Claims) && ev.ClaimOrCancel? then {ev.tag} else {}
  }

  /** The delivery an event brings. */
  ghost function Arrived(ev: Event, e: ExecutionId): set<Tag> {
    if ev.Deliver? && ev.id == e then {ev.tag} else {}
  }

  lemma ClaimUses(w: World, ev: Event, e: ExecutionId)
    requires w.db.WellFormed() && Allowed(w, ev)
    ensures Used(w, ev, e) <= Unclaimed(w, e) && |Used(w, ev, e)| == One(Happens(w, ev, e, Claims))
    ensures Used(w, ev, e) !! Unclaimed(Step(w, ev), e)
  {
    hide Db.WellFormed, NextDb, NextPlans, NextCommands, NextReady, ExecutionServiceAction, RecoveryAction;
    if Happens(w, ev, e, Claims) {
      OnlyWorkersClaim(w, ev, e);
    }
  }

  lemma OnlyWorkersClaim(w: World, ev: Event, e: ExecutionId)
    requires w.db.WellFormed() && e in w.db.executions && ActionOn(w, ev, e).Claimed?
    ensures ev.ClaimOrCancel?
  {
    hide Db.WellFormed;
  }

  lemma UnclaimedGrowsByDelivery(w: World, ev: Event, e: ExecutionId)
    requires w.db.WellFormed() && Allowed(w, ev)
    ensures Unclaimed(Step(w, ev), e) <= Unclaimed(w, e) + Arrived(ev, e)
  {
    hide Db.WellFormed, NextDb, NextPlans, NextCommands, NextReady;
    assert Step(w, ev).handlers == NextHandlers(w, ev);
  }

  lemma CountDown(before: set<Tag>, arrived: set<Tag>, used: set<Tag>, after: set<Tag>)
    requires after <= before + arrived && used <= before && used !! after
    ensures |after| + |used| <= |before| + |arrived|
  {
    SubsetBound(after + used, before + arrived);
    assert |after + used| == |after| + |used|;
    assert |before + arrived| <= |before| + |arrived|;
  }

  lemma NothingUnclaimed(w: World, e: ExecutionId)
    requires Initial(w)
    ensures Unclaimed(w, e) == {}
  {
  }

  /** Every claim uses up a delivery of its own: claims and deliveries that may still claim never
      outnumber the deliveries. */
  lemma {:induction false} ClaimsAreDelivered(t: Trace, e: ExecutionId)
    requires IsRun(t)
    ensures Count(t, e, Claims) + |Unclaimed(Now(t), e)| <= Messages(t, e, Received)
  {
    hide Db.WellFormed, Step, Allowed, Happens, Used, Unclaimed;
    match t
    case Start(w) => NothingUnclaimed(w, e);
    case Then(before, event) =>
      var w := Now(before);
      ClaimsAreDelivered(before, e);
      ClaimUses(w, event, e);
      UnclaimedGrowsByDelivery(w, event, e);
      CountDown(Unclaimed(w, e), Arrived(event, e), Used(w, event, e), Unclaimed(Now(t), e));
  }

  /** So an execution runs no more often than its messages were published or put back. */
  lemma ClaimsWithinMessages(t: Trace, e: ExecutionId)
    requires IsRun(t)
    ensures Count(t, e, Claims) <= Messages(t, e, Sent) + Messages(t, e, Returned)
  {
    hide Db.WellFormed, Step, Allowed, Moves, Count;
    MessagesConserved(t, e);
    ClaimsAreDelivered(t, e);
  }

  // Publishing comes before marking.

  /** The runs that have published `e` and not marked it yet. */
  ghost function Announced(w: World, e: ExecutionId): set<RunId> {
    set run | run in w.plans && MarkTarget(w, run) == Some(e)
  }

  /** The runs an event adds, and the one it takes away by marking. */
  ghost function Announces(w: World, ev: Event, e: ExecutionId): set<RunId> {
    if Moves(w, ev, e, Sent) then {ev.run} else {}
  }

  ghost function Marks(w: World, ev: Event, e: ExecutionId): set<RunId> {
    if ev.Mark? && MarkTarget(w, ev.run) == Some(e) then {ev.run} else {}
  }

  lemma AnnouncedStep(w: World, ev: Event, e: ExecutionId)
    requires w.db.WellFormed() && Allowed(w, ev)
    ensures Announced(Step(w, ev), e) <= Announced(w, e) + Announces(w, ev, e)
    ensures Marks(w, ev, e) <= Announced(w, e) && Marks(w, ev, e) !! Announced(Step(w, ev), e)
  {
    hide Db.WellFormed, NextDb, NextHandlers, NextCommands, NextReady, Chosen;
    assert Step(w, ev).plans == NextPlans(w, ev);
  }

  ghost function MarksOf(t: Trace, e: ExecutionId): nat
    requires IsRun(t)
  {
    match t
    case Start(_) => 0
    case Then(before, event) => MarksOf(before, e) + |Marks(Now(before), event, e)|
  }

  /** Every mark follows a publish of its own: marks and published executions that wait to be marked
      never outnumber the messages published. */
  lemma {:induction false} MarksArePublished(t: Trace, e: ExecutionId)
    requires IsRun(t)
    ensures MarksOf(t, e) + |Announced(Now(t), e)| <= Messages(t, e, Sent)
  {
    hide Db.WellFormed, Step, Allowed, Announced, Marks;
    match t
    case Start(w) => NothingAnnounced(w, e);
    case Then(before, event) =>
      var w := Now(before);
      MarksArePublished(before, e);
      AnnouncedStep(w, event, e);
      CountDown(Announced(w, e), Announces(w, event, e), Marks(w, event, e), Announced(Now(t), e));
  }

  lemma NothingAnnounced(w: World, e: ExecutionId)
    requires Initial(w)
    ensures Announced(w, e) == {}
  {
  }
}
