/** `rateLimitRequests` of backend/api-gateway/src/middleware.ts: a counter per identity and fixed
    window, kept in Redis with an expiry. */
module RateLimiter {
  import opened Schema  // one clock for the gateway and Redis

  datatype Key = Key(identity: nat, window: int)
  datatype Counter = Counter(count: nat, expiresAt: Option<Time>)

  /** Where Redis fails, if it does: before the counter is incremented, after that but before the
      gateway has the reply, or when a new counter's expiry is set. */
  datatype Fault = NoFault | AtIncrement | AtReply | AtExpire

  datatype Verdict = Bypassed | Passed(remaining: int) | Limited | FailedOpen

  datatype Config = Config(maxRequests: int, windowMs: int) {
    predicate Enabled() {
      maxRequests > 0 && windowMs > 0
    }

    function Window(at: Time): int
      requires Enabled()
    {
      at / windowMs
    }

    /** The first instant after a window. */
    function End(window: int): Time {
      (window + 1) * windowMs
    }

    function ExpirySeconds(): int {
      (windowMs + 999) / 1000
    }
  }

  /** The counters Redis still holds at `now`. */
  function Unexpired(counters: map<Key, Counter>, now: Time): map<Key, Counter> {
    map k | k in counters && (counters[k].expiresAt.None? || now < counters[k].expiresAt.value) :: counters[k]
  }

  datatype Request = Request(identity: nat, at: Time, fault: Fault)

  datatype Response = Response(counters: map<Key, Counter>, verdict: Verdict)

  function Handle(c: Config, held: map<Key, Counter>, r: Request): Response {
    if !c.Enabled() then Response(held, Bypassed)
    else
      var counters := Unexpired(held, r.at);
      if r.fault == AtIncrement then Response(counters, FailedOpen)
      else
        var key := Key(r.identity, c.Window(r.at));
        var count := if key in counters then counters[key].count + 1 else 1;
        var counted := if key in counters then counters[key].(count := count) else Counter(1, None);
        if r.fault == AtReply || (count == 1 && r.fault == AtExpire) then Response(counters[key := counted], FailedOpen)
        else
          var expiresAt := if count == 1 then Some(r.at + 1000 * c.ExpirySeconds()) else counted.expiresAt;
          Response(counters[key := counted.(expiresAt := expiresAt)],
                   if count > c.maxRequests then Limited else Passed(c.maxRequests - count))
  }

  class Limiter {
    const config: Config
    var counters: map<Key, Counter>

    constructor (config: Config)
      ensures this.config == config && counters == map[]
    {
      this.config := config;
      counters := map[];
    }

    method RateLimitRequests(r: Request) returns (verdict: Verdict)
      modifies this
      ensures Response(counters, verdict) == Handle(config, old(counters), r)
      ensures verdict == Bypassed <==> config.maxRequests <= 0 || config.windowMs <= 0
    {
      if config.maxRequests <= 0 || config.windowMs <= 0 {
        return Bypassed;
      }
      counters := Unexpired(counters, r.at);
      if r.fault == AtIncrement {
        return FailedOpen;
      }
      var windowSeconds := config.ExpirySeconds();
      var key := Key(r.identity, r.at / config.windowMs);
      var count := 1;
      if key in counters {
        count := counters[key].count + 1;
        counters := counters[key := counters[key].(count := count)];
      } else {
        counters := counters[key := Counter(1, None)];
      }
      if r.fault == AtReply {
        return FailedOpen;
      }
      if count == 1 {
        if r.fault == AtExpire {
          return FailedOpen;
        }
        counters := counters[key := counters[key].(expiresAt := Some(r.at + 1000 * windowSeconds))];
      }
      var remaining := if config.maxRequests - count > 0 then config.maxRequests - count else 0;
      if count > config.maxRequests {
        return Limited;
      }
      return Passed(remaining);
    }
  }

  // A stream of requests in clock order.

  datatype Traffic = Silence | Then(before: Traffic, last: Request)

  predicate InOrder(t: Traffic) {
    t.Then? ==> InOrder(t.before) && (t.before.Then? ==> t.before.last.at <= t.last.at)
  }

  function Held(c: Config, t: Traffic): map<Key, Counter> {
    match t
    case Silence => map[]
    case Then(before, last) => Handle(c, Held(c, before), last).counters
  }

  function LastVerdict(c: Config, t: Traffic): Verdict
    requires t.Then?
  {
    Handle(c, Held(c, t.before), t.last).verdict
  }

  predicate InWindow(c: Config, r: Request, key: Key)
    requires c.Enabled()
  {
    r.identity == key.identity && c.Window(r.at) == key.window
  }

  /** The requests of an identity in a window that reached the counter. */
  function Arrivals(c: Config, t: Traffic, key: Key): nat
    requires c.Enabled()
  {
    match t
    case Silence => 0
    case Then(before, last) =>
      Arrivals(c, before, key) + if InWindow(c, last, key) && last.fault != AtIncrement then 1 else 0
  }

  /** Those of them the limiter let through by its count. */
  function PassedInWindow(c: Config, t: Traffic, key: Key): nat
    requires c.Enabled()
  {
    match t
    case Silence => 0
    case Then(before, last) =>
      PassedInWindow(c, before, key) + if InWindow(c, last, key) && LastVerdict(c, t).Passed? then 1 else 0
  }

  /** Every counter outlives its window, and counts that window's arrivals while it lasts. */
  ghost predicate Sound(c: Config, t: Traffic)
    requires c.Enabled()
  {
    && (forall k :: k in Held(c, t) && Held(c, t)[k].expiresAt.Some?
          ==> c.End(k.window) <= Held(c, t)[k].expiresAt.value)
    && (forall k: Key :: t.Then? && t.last.at < c.End(k.window) ==>
          (if k in Held(c, t) then Held(c, t)[k].count == Arrivals(c, t, k) > 0 else Arrivals(c, t, k) == 0))
  }

  lemma WindowBounds(c: Config, at: Time)
    requires c.Enabled()
    ensures c.Window(at) * c.windowMs <= at < c.End(c.Window(at))
    ensures c.End(c.Window(at)) <= at + 1000 * c.ExpirySeconds()
  {
    var w := c.Window(at);
    assert at == w * c.windowMs + at % c.windowMs;
    assert c.End(w) == w * c.windowMs + c.windowMs;
    assert c.windowMs <= 1000 * c.ExpirySeconds();
  }

  /** The expiry is the window in whole seconds, rounded up. */
  lemma ExpiryIsCeiling(c: Config)
    requires c.Enabled()
    ensures c.windowMs <= 1000 * c.ExpirySeconds() < c.windowMs + 1000
  {
  }

  /** A new counter is set to expire that long after the request that opened it. */
  lemma NewCounterExpires(c: Config, held: map<Key, Counter>, r: Request)
    requires c.Enabled() && r.fault == NoFault && Key(r.identity, c.Window(r.at)) !in Unexpired(held, r.at)
    ensures var key := Key(r.identity, c.Window(r.at));
            var counters := Handle(c, held, r).counters;
            key in counters && counters[key].count == 1
            && counters[key].expiresAt.Some?
            && r.at + c.windowMs <= counters[key].expiresAt.value < r.at + c.windowMs + 1000
  {
    ExpiryIsCeiling(c);
  }

  /** The ceil-second expiry outlasts the window: in every stream the counters are sound. */
  lemma {:induction false} CountersAreSound(c: Config, t: Traffic)
    requires c.Enabled() && InOrder(t)
    ensures Sound(c, t)
  {
    if t.Then? {
      CountersAreSound(c, t.before);
      WindowBounds(c, t.last.at);
      forall k: Key | t.last.at < c.End(k.window)
        ensures if k in Held(c, t) then Held(c, t)[k].count == Arrivals(c, t, k) > 0 else Arrivals(c, t, k) == 0
      {
        SoundStep(c, t, k);
      }
    }
  }

  lemma SoundStep(c: Config, t: Traffic, k: Key)
    requires c.Enabled() && InOrder(t) && t.Then? && Sound(c, t.before) && t.last.at < c.End(k.window)
    ensures if k in Held(c, t) then Held(c, t)[k].count == Arrivals(c, t, k) > 0 else Arrivals(c, t, k) == 0
  {
  }

  /** A request that reaches its counter passes on its count exactly when fewer than `maxRequests`
      arrived before it in its window, unless the reply is lost or, for the first of a window, setting
      the expiry fails. */
  lemma VerdictIsExact(c: Config, t: Traffic)
    requires c.Enabled() && InOrder(t) && t.Then? && t.last.fault != AtIncrement
    ensures var earlier := Arrivals(c, t.before, Key(t.last.identity, c.Window(t.last.at)));
            var failed := t.last.fault == AtReply || (t.last.fault == AtExpire && earlier == 0);
            LastVerdict(c, t) == if failed then FailedOpen
                                 else if earlier < c.maxRequests then Passed(c.maxRequests - earlier - 1)
                                 else Limited
  {
    var key := Key(t.last.identity, c.Window(t.last.at));
    WindowBounds(c, t.last.at);
    CountersAreSound(c, t.before);
    HeldMatches(c, t, key);
  }

  /** What the limiter finds under the key of a request, once the expired counters are gone. */
  lemma HeldMatches(c: Config, t: Traffic, key: Key)
    requires c.Enabled() && InOrder(t) && t.Then? && Sound(c, t.before) && t.last.at < c.End(key.window)
    ensures var counters := Unexpired(Held(c, t.before), t.last.at);
            if key in counters then counters[key].count == Arrivals(c, t.before, key) > 0
            else Arrivals(c, t.before, key) == 0
  {
  }

  predicate FaultFree(t: Traffic) {
    t.Then? ==> FaultFree(t.before) && t.last.fault == NoFault
  }

  /** Of the arrivals of an identity in a window at most `maxRequests` pass on their count, and
      exactly the first `maxRequests` of them as long as Redis does not fail. */
  lemma {:induction false} WindowQuota(c: Config, t: Traffic, key: Key)
    requires c.Enabled() && InOrder(t)
    ensures PassedInWindow(c, t, key) <= Min(Arrivals(c, t, key), c.maxRequests)
    ensures FaultFree(t) ==> PassedInWindow(c, t, key) == Min(Arrivals(c, t, key), c.maxRequests)
  {
    if t.Then? {
      WindowQuota(c, t.before, key);
      if InWindow(c, t.last, key) && t.last.fault != AtIncrement {
        assert key == Key(t.last.identity, c.Window(t.last.at));
        VerdictIsExact(c, t);
      }
    }
  }

  // Sliding windows.

  predicate InInterval(r: Request, identity: nat, from: Time, to: Time) {
    r.identity == identity && from <= r.at < to
  }

  /** The requests of an identity in [from, to) that went through, by count or because Redis
      failed. */
  function Through(c: Config, t: Traffic, identity: nat, from: Time, to: Time): nat {
    match t
    case Silence => 0
    case Then(before, last) =>
      Through(c, before, identity, from, to)
      + if InInterval(last, identity, from, to) && !LastVerdict(c, t).Limited? then 1 else 0
  }

  function OpenFailures(c: Config, t: Traffic, identity: nat, from: Time, to: Time): nat {
    match t
    case Silence => 0
    case Then(before, last) =>
      OpenFailures(c, before, identity, from, to)
      + if InInterval(last, identity, from, to) && LastVerdict(c, t).FailedOpen? then 1 else 0
  }

  function PassedInWindows(c: Config, t: Traffic, identity: nat, first: int, n: nat): nat
    requires c.Enabled()
  {
    if n == 0 then 0
    else PassedInWindows(c, t, identity, first, n - 1) + PassedInWindow(c, t, Key(identity, first + n - 1))
  }

  lemma {:induction false} WindowsStep(c: Config, t: Traffic, identity: nat, first: int, n: nat)
    requires c.Enabled() && t.Then?
    ensures PassedInWindows(c, t, identity, first, n)
         == PassedInWindows(c, t.before, identity, first, n)
            + if t.last.identity == identity && first <= c.Window(t.last.at) < first + n && LastVerdict(c, t).Passed?
              then 1 else 0
    decreases n
  {
    if n > 0 {
      WindowsStep(c, t, identity, first, n - 1);
    }
  }

  lemma {:induction false} NothingPassedYet(c: Config, identity: nat, first: int, n: nat)
    requires c.Enabled()
    ensures PassedInWindows(c, Silence, identity, first, n) == 0
    decreases n
  {
    if n > 0 {
      NothingPassedYet(c, identity, first, n - 1);
    }
  }

  lemma IntervalWindows(c: Config, at: Time, from: Time, n: nat)
    requires c.Enabled() && from <= at < from + n * c.windowMs
    ensures c.Window(from) <= c.Window(at) < c.Window(from) + n + 1
  {
    WindowBounds(c, at);
    WindowBounds(c, from);
    assert (c.Window(from) + n) * c.windowMs == c.Window(from) * c.windowMs + n * c.windowMs;
    if c.Window(at) < c.Window(from) {
      ScaleStrictly(c.Window(at), c.Window(from), c.windowMs);
    }
    if c.Window(from) + n < c.Window(at) {
      ScaleStrictly(c.Window(from) + n, c.Window(at), c.windowMs);
    }
  }

  lemma {:induction false} ThroughByWindow(c: Config, t: Traffic, identity: nat, from: Time, n: nat)
    requires c.Enabled()
    ensures Through(c, t, identity, from, from + n * c.windowMs)
         <= PassedInWindows(c, t, identity, c.Window(from), n + 1)
            + OpenFailures(c, t, identity, from, from + n * c.windowMs)
    decreases t
  {
    var to := from + n * c.windowMs;
    if t.Then? {
      ThroughByWindow(c, t.before, identity, from, n);
      WindowsStep(c, t, identity, c.Window(from), n + 1);
      if InInterval(t.last, identity, from, to) {
        IntervalWindows(c, t.last.at, from, n);
      }
    }
  }

  lemma {:induction false} WindowsWithinQuota(c: Config, t: Traffic, identity: nat, first: int, n: nat)
    requires c.Enabled() && InOrder(t)
    ensures PassedInWindows(c, t, identity, first, n) <= n * c.maxRequests
    decreases n
  {
    if n > 0 {
      WindowsWithinQuota(c, t, identity, first, n - 1);
      WindowQuota(c, t, Key(identity, first + n - 1));
      assert n * c.maxRequests == (n - 1) * c.maxRequests + c.maxRequests;
    }
  }

  /** Any half-open interval of n window lengths lets at most (n + 1) * maxRequests requests of one
      identity through, plus those that Redis failures let through. */
  lemma SlidingWindowBound(c: Config, t: Traffic, identity: nat, from: Time, n: nat)
    requires c.Enabled() && InOrder(t)
    ensures Through(c, t, identity, from, from + n * c.windowMs)
         <= (n + 1) * c.maxRequests + OpenFailures(c, t, identity, from, from + n * c.windowMs)
  {
    ThroughByWindow(c, t, identity, from, n);
    WindowsWithinQuota(c, t, identity, c.Window(from), n + 1);
  }

  /** A limiter that is not configured lets everything through and keeps no counters. */
  lemma {:induction false} DisabledLetsAllThrough(c: Config, t: Traffic)
    requires !c.Enabled()
    ensures Held(c, t) == map[]
    ensures t.Then? ==> LastVerdict(c, t) == Bypassed
  {
    if t.Then? {
      DisabledLetsAllThrough(c, t.before);
    }
  }
}
