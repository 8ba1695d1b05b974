/** backend/execution-service/src/retry.ts */
module ExecutionRetry {
  import opened Schema
  import opened Power

  function CalculateBackoffDelayMs(job: Job, nextAttemptNumber: nat): int {
    var baseDelay := job.retryInitialDelayMs;
    var delay :=
      if job.backoffType == Exponential then
        baseDelay * Pow2(if nextAttemptNumber < 2 then 0 else nextAttemptNumber - 2)
      else if job.backoffType == Linear then
        baseDelay * nextAttemptNumber
      else
        baseDelay;
    if delay < job.retryMaxDelayMs then delay else job.retryMaxDelayMs
  }
}

/** backend/worker-service/src/execution.ts */
module WorkerExecution {
  import opened Schema
  import opened Power

  /** The delay before the cap is applied. */
  function RawDelayMs(job: Job, nextAttemptNumber: nat): int {
    match job.backoffType
    case Exponential => job.retryInitialDelayMs * Pow2(if nextAttemptNumber >= 2 then nextAttemptNumber - 2 else 0)
    case Linear => job.retryInitialDelayMs * nextAttemptNumber
    case Fixed => job.retryInitialDelayMs
  }

  function CalculateBackoffDelayMs(job: Job, nextAttemptNumber: nat): int {
    var delay := RawDelayMs(job, nextAttemptNumber);
    if job.retryMaxDelayMs < delay then job.retryMaxDelayMs else delay
  }
}

module Power {
  function Pow2(n: nat): nat {
    if n == 0 then 1 else 2 * Pow2(n - 1)
  }

  lemma {:induction false} Pow2Monotone(m: nat, n: nat)
    requires m <= n
    ensures 1 <= Pow2(m) <= Pow2(n)
    decreases n
  {
    if m < n {
      Pow2Monotone(m, n - 1);
    } else if 0 < n {
      Pow2Monotone(n - 1, n - 1);
    }
  }
}

module BackoffProperties {
  import opened Schema
  import opened Power
  import ExecutionRetry
  import WorkerExecution

  lemma CopiesAgree(job: Job, n: nat)
    ensures ExecutionRetry.CalculateBackoffDelayMs(job, n) == WorkerExecution.CalculateBackoffDelayMs(job, n)
  {
  }

  /** The wait before an attempt, before the cap: the same for every attempt, one initial delay more
      each time, or doubled each time from the second attempt on. */
  function Growth(job: Job, attempt: nat): nat {
    match job.backoffType
    case Fixed => job.retryInitialDelayMs
    case Linear => if attempt == 0 then 0 else Growth(job, attempt - 1) + job.retryInitialDelayMs
    case Exponential => if attempt <= 2 then job.retryInitialDelayMs else 2 * Growth(job, attempt - 1)
  }

  lemma {:induction false} DelayIsCappedGrowth(job: Job, attempt: nat)
    ensures WorkerExecution.RawDelayMs(job, attempt) == Growth(job, attempt)
    ensures WorkerExecution.CalculateBackoffDelayMs(job, attempt) == Min(Growth(job, attempt), job.retryMaxDelayMs)
    decreases attempt
  {
    var c := job.retryInitialDelayMs;
    if job.backoffType == Linear && attempt > 0 {
      DelayIsCappedGrowth(job, attempt - 1);
      assert c * attempt == c * (attempt - 1) + c;
    } else if job.backoffType == Exponential && attempt > 2 {
      DelayIsCappedGrowth(job, attempt - 1);
      assert c * Pow2(attempt - 2) == 2 * (c * Pow2(attempt - 3));
    }
  }

  /** Every delay is between 0 and the configured cap, and later attempts never wait less. */
  lemma DelayBoundedAndMonotone(job: Job, m: nat, n: nat)
    requires m <= n
    ensures 0 <= WorkerExecution.CalculateBackoffDelayMs(job, m)
         <= WorkerExecution.CalculateBackoffDelayMs(job, n) <= job.retryMaxDelayMs
  {
    var i, k := if m >= 2 then m - 2 else 0, if n >= 2 then n - 2 else 0;
    Pow2Monotone(i, k);
    ScaledMonotone(job.retryInitialDelayMs, Pow2(i), Pow2(k));
    ScaledMonotone(job.retryInitialDelayMs, m, n);
  }

  lemma ScaledMonotone(c: nat, x: nat, y: nat)
    requires x <= y
    ensures 0 <= c * x <= c * y
  {
    assert c * y == c * x + c * (y - x);
    assert 0 <= c * (y - x);
    assert 0 <= c * x;
  }

  /** From the second attempt on, an exponential delay is the previous one doubled, up to the cap. */
  lemma ExponentialDoubles(job: Job, n: nat)
    requires job.backoffType == Exponential && 2 <= n
    ensures var d := WorkerExecution.CalculateBackoffDelayMs(job, n);
            WorkerExecution.CalculateBackoffDelayMs(job, n + 1)
            == if 2 * d < job.retryMaxDelayMs then 2 * d else job.retryMaxDelayMs
  {
    assert Pow2(n - 1) == 2 * Pow2(n - 2);
    assert job.retryInitialDelayMs * Pow2(n - 1) == 2 * (job.retryInitialDelayMs * Pow2(n - 2));
  }

  /** The waits before attempts 2 .. k + 1. */
  function TotalDelay(job: Job, k: nat): int {
    if k == 0 then 0 else TotalDelay(job, k - 1) + WorkerExecution.CalculateBackoffDelayMs(job, k + 1)
  }

  /** k waits never add up to more than k caps, nor (EXPONENTIAL) to more than the uncapped series. */
  lemma {:induction false} TotalDelayBounded(job: Job, k: nat)
    ensures 0 <= TotalDelay(job, k) <= Times(k, job.retryMaxDelayMs)
    ensures job.backoffType == Exponential ==>
              TotalDelay(job, k) + job.retryInitialDelayMs <= job.retryInitialDelayMs * Pow2(k)
    decreases k
  {
    if k > 0 {
      TotalDelayBounded(job, k - 1);
      DelayBoundedAndMonotone(job, k + 1, k + 1);
      if job.backoffType == Exponential {
        SeriesStep(job, k);
      }
    }
  }

  lemma SeriesStep(job: Job, k: nat)
    requires k > 0 && job.backoffType == Exponential
    ensures WorkerExecution.CalculateBackoffDelayMs(job, k + 1) + job.retryInitialDelayMs * Pow2(k - 1)
         <= job.retryInitialDelayMs * Pow2(k)
  {
    var c, x := job.retryInitialDelayMs, Pow2(k - 1);
    assert Pow2(k) == x + x;
    assert c * (x + x) == c * x + c * x;
  }

  /** k * c, by repeated addition. */
  function Times(k: nat, c: nat): nat {
    if k == 0 then 0 else Times(k - 1, c) + c
  }

  /** Inside the bounds the job validation enforces, nothing computed on the way to a delay
      reaches 2^53, so integers model the arithmetic exactly. */
  lemma IntermediatesExact(job: Job, n: nat)
    requires job.retryInitialDelayMs <= 3600000 && n <= job.maxAttempts <= 20
    ensures WorkerExecution.RawDelayMs(job, n) < 0x20_0000_0000_0000
  {
    var k := if n >= 2 then n - 2 else 0;
    Pow2Monotone(k, 18);
    assert Pow2(18) == 262144 by {
      assert Pow2(2) == 4 && Pow2(4) == 16 && Pow2(6) == 64 && Pow2(8) == 256;
      assert Pow2(10) == 1024 && Pow2(12) == 4096 && Pow2(14) == 16384 && Pow2(16) == 65536;
    }
    ScaledMonotone(job.retryInitialDelayMs, Pow2(k), 262144);
    ScaledMonotone(job.retryInitialDelayMs, n, 20);
  }
}
