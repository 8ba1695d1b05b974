/** The dispatch loop of backend/scheduler-service/src/scheduler.ts: which of the ordered
    candidates are published. A selection is a set of positions in the candidate list. */
module Dispatch {
  import opened Schema

  datatype Candidate = Candidate(id: ExecutionId, queueId: QueueId, status: ExecutionStatus)

  function Lookup(m: map<QueueId, nat>, q: QueueId): nat {
    if q in m then m[q] else 0
  }

  /** What a queue may still take: its limit less its active executions. */
  function Capacity(limits: map<QueueId, nat>, active: map<QueueId, nat>, q: QueueId): nat {
    if Lookup(active, q) < Lookup(limits, q) then Lookup(limits, q) - Lookup(active, q) else 0
  }

  /** The selected positions below `p`. */
  function Taken(sel: set<nat>, p: nat): nat {
    if p == 0 then 0 else Taken(sel, p - 1) + if p - 1 in sel then 1 else 0
  }

  /** The selected positions below `p` whose candidate belongs to queue `q`. */
  function TakenIn(cs: seq<Candidate>, sel: set<nat>, q: QueueId, p: nat): nat
    requires p <= |cs|
  {
    if p == 0 then 0
    else TakenIn(cs, sel, q, p - 1) + if p - 1 in sel && cs[p - 1].queueId == q then 1 else 0
  }

  /** The candidates of queue `q` below `p`. */
  function Present(cs: seq<Candidate>, q: QueueId, p: nat): nat
    requires p <= |cs|
  {
    if p == 0 then 0 else Present(cs, q, p - 1) + if cs[p - 1].queueId == q then 1 else 0
  }

  /** The dispatcher's choice among the first `p` candidates. */
  ghost function Greedy(cs: seq<Candidate>, limits: map<QueueId, nat>, active: map<QueueId, nat>, batch: nat, p: nat)
    : (sel: set<nat>)
    requires p <= |cs|
    ensures forall i :: i in sel ==> i < p
  {
    if p == 0 then {}
    else
      var sel := Greedy(cs, limits, active, batch, p - 1);
      var q := cs[p - 1].queueId;
      if Taken(sel, p - 1) < batch && TakenIn(cs, sel, q, p - 1) < Capacity(limits, active, q)
      then sel + {p - 1} else sel
  }

  /** Any choice that respects the batch size and every queue's capacity. */
  ghost predicate Feasible(cs: seq<Candidate>, limits: map<QueueId, nat>, active: map<QueueId, nat>, batch: nat,
                           sel: set<nat>)
  {
    && Taken(sel, |cs|) <= batch
    && forall q :: TakenIn(cs, sel, q, |cs|) <= Capacity(limits, active, q)
  }

  /** The ids at the selected positions below `p`, in order. */
  ghost function Ids(cs: seq<Candidate>, sel: set<nat>, p: nat): (ids: seq<ExecutionId>)
    requires p <= |cs|
    ensures |ids| == Taken(sel, p)
    ensures forall id :: id in ids <==> exists i :: 0 <= i < p && i in sel && cs[i].id == id
  {
    if p == 0 then [] else Ids(cs, sel, p - 1) + if p - 1 in sel then [cs[p - 1].id] else []
  }

  predicate IsRetry(status: ExecutionStatus) {
    status == RetryScheduled || status == Stalled
  }

  ghost function Retries(cs: seq<Candidate>, sel: set<nat>, p: nat): nat
    requires p <= |cs|
  {
    if p == 0 then 0 else Retries(cs, sel, p - 1) + if p - 1 in sel && IsRetry(cs[p - 1].status) then 1 else 0
  }

  ghost function RetryPositions(cs: seq<Candidate>, sel: set<nat>, p: nat): set<nat>
    requires p <= |cs|
  {
    set i | 0 <= i < p && i in sel && (cs[i].status == RetryScheduled || cs[i].status == Stalled)
  }

  lemma {:induction false} RetriesCount(cs: seq<Candidate>, sel: set<nat>, p: nat)
    requires p <= |cs|
    ensures Retries(cs, sel, p) == |RetryPositions(cs, sel, p)|
    decreases p
  {
    if p == 0 {
      assert RetryPositions(cs, sel, 0) == {};
    } else {
      RetriesCount(cs, sel, p - 1);
      var before, after := RetryPositions(cs, sel, p - 1), RetryPositions(cs, sel, p);
      assert after == if p - 1 in after then before + {p - 1} else before;
    }
  }

  /** The loop, over the answers of the three queries. */
  method GetDispatchableExecutions(limits: map<QueueId, nat>, counts: map<QueueId, nat>, cs: seq<Candidate>,
                                   limit: nat)
    returns (executionIds: seq<ExecutionId>, retries: nat, pending: nat)
    ensures executionIds == Ids(cs, Greedy(cs, limits, counts, limit, |cs|), |cs|)
    ensures retries + pending == |executionIds|
    ensures retries == Retries(cs, Greedy(cs, limits, counts, limit, |cs|), |cs|)
  {
    if |limits| == 0 {
      assert limits == map[];
      NoQueues(cs, limits, counts, limit, |cs|);
      return [], 0, 0;
    }
    hide Greedy, Ids, Taken, TakenIn, Retries;
    var activeCounts: map<QueueId, nat> := counts;
    GreedyStart(cs, limits, counts, limit);
    executionIds, retries, pending := [], 0, 0;
    for i := 0 to |cs|
      invariant executionIds == Ids(cs, Greedy(cs, limits, counts, limit, i), i)
      invariant forall q :: Lookup(activeCounts, q)
                            == Lookup(counts, q) + TakenIn(cs, Greedy(cs, limits, counts, limit, i), q, i)
      invariant retries == Retries(cs, Greedy(cs, limits, counts, limit, i), i)
      invariant retries + pending == |executionIds|
    {
      if |executionIds| >= limit {
        FullBatch(cs, limits, counts, limit, i, |cs|);
        return;
      }
      var qLimit := Lookup(limits, cs[i].queueId);
      var currentActive := Lookup(activeCounts, cs[i].queueId);
      GreedyStep(cs, limits, counts, limit, i);
      if currentActive < qLimit {
        executionIds := executionIds + [cs[i].id];
        activeCounts := activeCounts[cs[i].queueId := currentActive + 1];
        if IsRetry(cs[i].status) {
          retries := retries + 1;
        } else {
          pending := pending + 1;
        }
      }
    }
  }

  /** Adding a position at or past `p` changes no count below `p`. */
  lemma {:induction false} CountsBelow(cs: seq<Candidate>, sel: set<nat>, x: nat, q: QueueId, p: nat)
    requires p <= x && p <= |cs|
    ensures Taken(sel + {x}, p) == Taken(sel, p)
    ensures TakenIn(cs, sel + {x}, q, p) == TakenIn(cs, sel, q, p)
    ensures Ids(cs, sel + {x}, p) == Ids(cs, sel, p)
    ensures Retries(cs, sel + {x}, p) == Retries(cs, sel, p)
    decreases p
  {
    if p > 0 {
      CountsBelow(cs, sel, x, q, p - 1);
    }
  }

  lemma GreedyStart(cs: seq<Candidate>, limits: map<QueueId, nat>, active: map<QueueId, nat>, batch: nat)
    ensures var none := Greedy(cs, limits, active, batch, 0);
            Ids(cs, none, 0) == [] && Retries(cs, none, 0) == 0 && forall q :: TakenIn(cs, none, q, 0) == 0
  {
  }

  /** What one turn of the loop does to every count. */
  lemma GreedyStep(cs: seq<Candidate>, limits: map<QueueId, nat>, active: map<QueueId, nat>, batch: nat, i: nat)
    requires i < |cs|
    ensures var before := Greedy(cs, limits, active, batch, i);
            var after := Greedy(cs, limits, active, batch, i + 1);
            var picked := Taken(before, i) < batch
                          && TakenIn(cs, before, cs[i].queueId, i) < Capacity(limits, active, cs[i].queueId);
            && (i in after <==> picked)
            && Ids(cs, after, i + 1) == Ids(cs, before, i) + (if picked then [cs[i].id] else [])
            && Taken(after, i + 1) == Taken(before, i) + (if picked then 1 else 0)
            && Retries(cs, after, i + 1) == Retries(cs, before, i) + (if picked && IsRetry(cs[i].status) then 1 else 0)
            && forall q :: TakenIn(cs, after, q, i + 1)
                           == TakenIn(cs, before, q, i) + if picked && cs[i].queueId == q then 1 else 0
  {
    var before := Greedy(cs, limits, active, batch, i);
    forall q {
      CountsBelow(cs, before, i, q, i);
    }
  }

  /** Once the batch is full nothing more is picked. */
  lemma {:induction false} FullBatch(cs: seq<Candidate>, limits: map<QueueId, nat>, active: map<QueueId, nat>,
                                     batch: nat, i: nat, p: nat)
    requires i <= p <= |cs| && batch <= Taken(Greedy(cs, limits, active, batch, i), i)
    ensures Greedy(cs, limits, active, batch, p) == Greedy(cs, limits, active, batch, i)
    ensures var sel := Greedy(cs, limits, active, batch, i);
            && Taken(sel, p) == Taken(sel, i) && Ids(cs, sel, p) == Ids(cs, sel, i)
            && Retries(cs, sel, p) == Retries(cs, sel, i)
    decreases p
  {
    if i < p {
      FullBatch(cs, limits, active, batch, i, p - 1);
    }
  }

  lemma {:induction false} NoQueues(cs: seq<Candidate>, limits: map<QueueId, nat>, active: map<QueueId, nat>,
                                    batch: nat, p: nat)
    requires p <= |cs| && forall q :: q !in limits
    ensures Greedy(cs, limits, active, batch, p) == {}
    ensures Ids(cs, {}, p) == [] && Retries(cs, {}, p) == 0
    decreases p
  {
    if p > 0 {
      NoQueues(cs, limits, active, batch, p - 1);
      assert Capacity(limits, active, cs[p - 1].queueId) == 0;
    }
  }

  // Contract of the choice.

  /** The choice respects the batch size and every queue's capacity, at every prefix. */
  lemma {:induction false} GreedyIsFeasible(cs: seq<Candidate>, limits: map<QueueId, nat>, active: map<QueueId, nat>,
                                            batch: nat, p: nat)
    requires p <= |cs|
    ensures Taken(Greedy(cs, limits, active, batch, p), p) <= batch
    ensures forall q :: TakenIn(cs, Greedy(cs, limits, active, batch, p), q, p) <= Capacity(limits, active, q)
    decreases p
  {
    if p > 0 {
      GreedyIsFeasible(cs, limits, active, batch, p - 1);
      GreedyStep(cs, limits, active, batch, p - 1);
    }
  }

  lemma {:induction false} GreedyGrows(cs: seq<Candidate>, limits: map<QueueId, nat>, active: map<QueueId, nat>,
                                       batch: nat, q: QueueId, i: nat, p: nat)
    requires i <= p <= |cs|
    ensures var early, late := Greedy(cs, limits, active, batch, i), Greedy(cs, limits, active, batch, p);
            && (forall k :: k < i ==> (k in late <==> k in early))
            && Taken(early, i) <= Taken(late, p)
            && TakenIn(cs, early, q, i) <= TakenIn(cs, late, q, p)
    decreases p
  {
    if i < p {
      GreedyGrows(cs, limits, active, batch, q, i, p - 1);
      GreedyStep(cs, limits, active, batch, p - 1);
    }
  }

  /** A candidate is skipped only if the batch is full or its queue is saturated, and then it still is
      at the end: so each queue's chosen candidates are a prefix of its candidates. */
  lemma SkippedForAReason(cs: seq<Candidate>, limits: map<QueueId, nat>, active: map<QueueId, nat>, batch: nat, i: nat)
    requires i < |cs| && i !in Greedy(cs, limits, active, batch, |cs|)
    ensures var sel := Greedy(cs, limits, active, batch, |cs|);
            || Taken(sel, |cs|) == batch
            || TakenIn(cs, sel, cs[i].queueId, |cs|) == Capacity(limits, active, cs[i].queueId)
    ensures forall j :: i < j < |cs| && cs[j].queueId == cs[i].queueId
                        ==> j !in Greedy(cs, limits, active, batch, |cs|)
  {
    var q := cs[i].queueId;
    var sel := Greedy(cs, limits, active, batch, |cs|);
    GreedyStep(cs, limits, active, batch, i);
    GreedyGrows(cs, limits, active, batch, q, i + 1, |cs|);
    GreedyIsFeasible(cs, limits, active, batch, |cs|);
    forall j | i < j < |cs| && cs[j].queueId == q
      ensures j !in sel
    {
      StillSkipped(cs, limits, active, batch, i, j);
    }
  }

  lemma StillSkipped(cs: seq<Candidate>, limits: map<QueueId, nat>, active: map<QueueId, nat>, batch: nat,
                     i: nat, j: nat)
    requires i < j < |cs| && cs[i].queueId == cs[j].queueId
    requires i !in Greedy(cs, limits, active, batch, |cs|)
    ensures j !in Greedy(cs, limits, active, batch, |cs|)
  {
    var q := cs[i].queueId;
    GreedyGrows(cs, limits, active, batch, q, i + 1, |cs|);
    GreedyGrows(cs, limits, active, batch, q, i, j);
    GreedyGrows(cs, limits, active, batch, q, j + 1, |cs|);
    assert Greedy(cs, limits, active, batch, i + 1) == Greedy(cs, limits, active, batch, i);
  }

  // Optimality.

  /** Sum over queues of what each could contribute below `p`. */
  function Ceiling(cs: seq<Candidate>, limits: map<QueueId, nat>, active: map<QueueId, nat>, qs: seq<QueueId>, p: nat)
    : nat
    requires p <= |cs|
  {
    if |qs| == 0 then 0
    else Min(Capacity(limits, active, qs[0]), Present(cs, qs[0], p)) + Ceiling(cs, limits, active, qs[1..], p)
  }

  function Total(cs: seq<Candidate>, sel: set<nat>, qs: seq<QueueId>, p: nat): nat
    requires p <= |cs|
  {
    if |qs| == 0 then 0 else TakenIn(cs, sel, qs[0], p) + Total(cs, sel, qs[1..], p)
  }

  /** `qs` lists, once each, at least the queues with a limit. */
  ghost predicate Covers(qs: seq<QueueId>, limits: map<QueueId, nat>) {
    && (forall i, j :: 0 <= i < j < |qs| ==> qs[i] != qs[j])
    && (forall q :: q in limits ==> q in qs)
  }

  lemma {:induction false} TotalStep(cs: seq<Candidate>, sel: set<nat>, qs: seq<QueueId>, p: nat)
    requires 0 < p <= |cs| && forall i, j :: 0 <= i < j < |qs| ==> qs[i] != qs[j]
    ensures Total(cs, sel, qs, p)
         == Total(cs, sel, qs, p - 1) + if p - 1 in sel && cs[p - 1].queueId in qs then 1 else 0
    decreases |qs|
  {
    if |qs| > 0 {
      assert qs == [qs[0]] + qs[1..];
      TotalStep(cs, sel, qs[1..], p);
    }
  }

  /** The positions of a selection, counted queue by queue. */
  lemma {:induction false} TakenByQueue(cs: seq<Candidate>, sel: set<nat>, qs: seq<QueueId>, p: nat)
    requires p <= |cs| && forall i, j :: 0 <= i < j < |qs| ==> qs[i] != qs[j]
    requires forall i :: 0 <= i < p && i in sel ==> cs[i].queueId in qs
    ensures Taken(sel, p) == Total(cs, sel, qs, p)
    decreases p
  {
    if p == 0 {
      TotalAtZero(cs, sel, qs);
    } else {
      TakenByQueue(cs, sel, qs, p - 1);
      TotalStep(cs, sel, qs, p);
    }
  }

  lemma {:induction false} TotalAtZero(cs: seq<Candidate>, sel: set<nat>, qs: seq<QueueId>)
    ensures Total(cs, sel, qs, 0) == 0
    decreases |qs|
  {
    if |qs| > 0 {
      TotalAtZero(cs, sel, qs[1..]);
    }
  }

  lemma {:induction false} CountsGrow(cs: seq<Candidate>, sel: set<nat>, q: QueueId, p: nat, n: nat)
    requires p <= n <= |cs|
    ensures TakenIn(cs, sel, q, p) <= TakenIn(cs, sel, q, n) && Taken(sel, p) <= Taken(sel, n)
    ensures TakenIn(cs, sel, q, p) <= Present(cs, q, p)
    decreases n + p
  {
    if p < n {
      CountsGrow(cs, sel, q, p, n - 1);
    } else if p > 0 {
      CountsGrow(cs, sel, q, p - 1, p - 1);
    }
  }

  /** A selected candidate's queue has capacity, hence a limit. */
  lemma SelectedIsCovered(cs: seq<Candidate>, limits: map<QueueId, nat>, active: map<QueueId, nat>,
                          qs: seq<QueueId>, sel: set<nat>, p: nat)
    requires p <= |cs| && Covers(qs, limits)
    requires forall q :: TakenIn(cs, sel, q, p) <= Capacity(limits, active, q)
    ensures forall i :: 0 <= i < p && i in sel ==> cs[i].queueId in qs
  {
    forall i | 0 <= i < p && i in sel
      ensures cs[i].queueId in qs
    {
      CountsGrow(cs, sel, cs[i].queueId, i + 1, p);
      assert TakenIn(cs, sel, cs[i].queueId, i + 1) >= 1;
    }
  }

  lemma {:induction false} TotalBelowCeiling(cs: seq<Candidate>, limits: map<QueueId, nat>, active: map<QueueId, nat>,
                                             qs: seq<QueueId>, sel: set<nat>, p: nat)
    requires p <= |cs|
    requires forall q :: TakenIn(cs, sel, q, p) <= Capacity(limits, active, q)
    ensures Total(cs, sel, qs, p) <= Ceiling(cs, limits, active, qs, p)
    decreases |qs|
  {
    if |qs| > 0 {
      CountsGrow(cs, sel, qs[0], p, p);
      TotalBelowCeiling(cs, limits, active, qs[1..], sel, p);
    }
  }

  /** No feasible selection takes more of a prefix than the ceiling and the batch allow. */
  lemma FeasibleBelowCeiling(cs: seq<Candidate>, limits: map<QueueId, nat>, active: map<QueueId, nat>, batch: nat,
                             qs: seq<QueueId>, sel: set<nat>, p: nat)
    requires p <= |cs| && Covers(qs, limits) && Feasible(cs, limits, active, batch, sel)
    ensures Taken(sel, p) <= Min(batch, Ceiling(cs, limits, active, qs, p))
  {
    forall q
      ensures TakenIn(cs, sel, q, p) <= Capacity(limits, active, q)
    {
      CountsGrow(cs, sel, q, p, |cs|);
    }
    CountsGrow(cs, sel, 0, p, |cs|);
    SelectedIsCovered(cs, limits, active, qs, sel, p);
    TakenByQueue(cs, sel, qs, p);
    TotalBelowCeiling(cs, limits, active, qs, sel, p);
  }

  /** Without a batch limit every queue gets all it can take. */
  lemma {:induction false} UnlimitedFills(cs: seq<Candidate>, limits: map<QueueId, nat>, active: map<QueueId, nat>,
                                          q: QueueId, p: nat)
    requires p <= |cs|
    ensures TakenIn(cs, Greedy(cs, limits, active, |cs| + 1, p), q, p)
         == Min(Capacity(limits, active, q), Present(cs, q, p))
    ensures Taken(Greedy(cs, limits, active, |cs| + 1, p), p) <= p
    decreases p
  {
    if p > 0 {
      UnlimitedFills(cs, limits, active, q, p - 1);
      UnlimitedFills(cs, limits, active, cs[p - 1].queueId, p - 1);
      GreedyStep(cs, limits, active, |cs| + 1, p - 1);
    }
  }

  lemma {:induction false} UnlimitedTotal(cs: seq<Candidate>, limits: map<QueueId, nat>, active: map<QueueId, nat>,
                                          qs: seq<QueueId>, p: nat)
    requires p <= |cs|
    ensures Total(cs, Greedy(cs, limits, active, |cs| + 1, p), qs, p) == Ceiling(cs, limits, active, qs, p)
    decreases |qs|
  {
    if |qs| > 0 {
      UnlimitedFills(cs, limits, active, qs[0], p);
      UnlimitedTotal(cs, limits, active, qs[1..], p);
    }
  }

  /** As long as the unlimited choice fits the batch, it is the choice made. */
  lemma {:induction false} BelowBatch(cs: seq<Candidate>, limits: map<QueueId, nat>, active: map<QueueId, nat>,
                                      batch: nat, p: nat)
    requires p <= |cs| && Taken(Greedy(cs, limits, active, |cs| + 1, p), p) <= batch
    ensures Greedy(cs, limits, active, batch, p) == Greedy(cs, limits, active, |cs| + 1, p)
    decreases p
  {
    if p > 0 {
      TakenStep(cs, limits, active, |cs| + 1, p - 1);
      BelowBatch(cs, limits, active, batch, p - 1);
      UnlimitedFills(cs, limits, active, 0, p - 1);
    }
  }

  /** Past that point the batch is full. */
  lemma {:induction false} AtBatch(cs: seq<Candidate>, limits: map<QueueId, nat>, active: map<QueueId, nat>,
                                   batch: nat, p: nat)
    requires p <= |cs| && batch <= Taken(Greedy(cs, limits, active, |cs| + 1, p), p)
    ensures Taken(Greedy(cs, limits, active, batch, p), p) == batch
    decreases p
  {
    if Taken(Greedy(cs, limits, active, |cs| + 1, p), p) == batch {
      BelowBatch(cs, limits, active, batch, p);
    } else if p > 0 {
      TakenStep(cs, limits, active, |cs| + 1, p - 1);
      AtBatch(cs, limits, active, batch, p - 1);
      FullBatch(cs, limits, active, batch, p - 1, p);
    }
  }

  lemma TakenStep(cs: seq<Candidate>, limits: map<QueueId, nat>, active: map<QueueId, nat>, batch: nat, i: nat)
    requires i < |cs|
    ensures var before := Greedy(cs, limits, active, batch, i);
            var after := Greedy(cs, limits, active, batch, i + 1);
            || (Taken(after, i + 1) == Taken(before, i) && after == before)
            || Taken(after, i + 1) == Taken(before, i) + 1
  {
    GreedyStep(cs, limits, active, batch, i);
  }

  /** The number dispatched from any prefix: the batch size, or the sum over queues of what each can
      take of its candidates there, whichever is smaller. */
  lemma DispatchedExactly(cs: seq<Candidate>, limits: map<QueueId, nat>, active: map<QueueId, nat>, batch: nat,
                          qs: seq<QueueId>, p: nat)
    requires p <= |cs| && Covers(qs, limits)
    ensures Taken(Greedy(cs, limits, active, batch, |cs|), p) == Min(batch, Ceiling(cs, limits, active, qs, p))
  {
    var unlimited := Greedy(cs, limits, active, |cs| + 1, p);
    if Taken(unlimited, p) <= batch {
      BelowBatch(cs, limits, active, batch, p);
    } else {
      AtBatch(cs, limits, active, batch, p);
    }
    GreedyIsFeasible(cs, limits, active, |cs| + 1, p);
    SelectedIsCovered(cs, limits, active, qs, unlimited, p);
    TakenByQueue(cs, unlimited, qs, p);
    UnlimitedTotal(cs, limits, active, qs, p);
    GreedyGrows(cs, limits, active, batch, 0, p, |cs|);
    SameBelow(Greedy(cs, limits, active, batch, |cs|), Greedy(cs, limits, active, batch, p), p);
  }

  lemma {:induction false} SameBelow(a: set<nat>, b: set<nat>, p: nat)
    requires forall k :: k < p ==> (k in a <==> k in b)
    ensures Taken(a, p) == Taken(b, p)
    decreases p
  {
    if p > 0 {
      SameBelow(a, b, p - 1);
    }
  }

  /** The queues with a limit can be listed. */
  lemma {:induction false} Listing(queues: set<QueueId>) returns (qs: seq<QueueId>)
    ensures forall i, j :: 0 <= i < j < |qs| ==> qs[i] != qs[j]
    ensures forall q :: q in queues <==> q in qs
    decreases |queues|
  {
    if queues == {} {
      qs := [];
    } else {
      var q :| q in queues;
      var rest := Listing(queues - {q});
      qs := [q] + rest;
    }
  }

  /** Dispatch is optimal and priority-dominant within its candidates: from every prefix of the
      priority order it takes at least as many as any other choice that respects the limits. */
  lemma DispatchIsDominant(cs: seq<Candidate>, limits: map<QueueId, nat>, active: map<QueueId, nat>, batch: nat,
                           rival: set<nat>, p: nat)
    requires p <= |cs| && Feasible(cs, limits, active, batch, rival)
    ensures Feasible(cs, limits, active, batch, Greedy(cs, limits, active, batch, |cs|))
    ensures Taken(rival, p) <= Taken(Greedy(cs, limits, active, batch, |cs|), p)
  {
    var qs := Listing(limits.Keys);
    GreedyIsFeasible(cs, limits, active, batch, |cs|);
    FeasibleBelowCeiling(cs, limits, active, batch, qs, rival, p);
    DispatchedExactly(cs, limits, active, batch, qs, p);
  }
}
