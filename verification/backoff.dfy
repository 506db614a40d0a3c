/**
 * The backoff schedule of the acquire loop: the delay starts at one second,
 * doubles after every retry and is capped at one minute.
 */
module Backoff {

  /** The first delay, in milliseconds. */
  const InitialRetryDelay: int := 1000

  /** The cap on any single delay, in milliseconds. */
  const MaxRetryDelay: int := 60000

  function Min(a: int, b: int): int {
    if a < b then a else b
  }

  /** The delay used after the one just slept: `Math.min(retryDelay * 2, maxRetryDelay)`. */
  function NextDelay(retryDelay: int): int {
    Min(retryDelay * 2, MaxRetryDelay)
  }

  function Pow2(k: nat): (p: nat)
    ensures p >= 1
  {
    if k == 0 then 1 else 2 * Pow2(k - 1)
  }

  /**
   * Closed form of the k-th delay (counting from 0): `min(1000 * 2^k, 60000)`.
   * This is the reference the loop's recurrence is checked against.
   */
  function BackoffDelay(k: nat): (d: int)
    ensures InitialRetryDelay <= d <= MaxRetryDelay
  {
    Min(1000 * Pow2(k), MaxRetryDelay)
  }

  /** The loop's recurrence, started at `InitialRetryDelay`, walks the closed form. */
  lemma BackoffStep(k: nat)
    ensures BackoffDelay(0) == InitialRetryDelay
    ensures NextDelay(BackoffDelay(k)) == BackoffDelay(k + 1)
  {
  }

  lemma {:induction false} Pow2Monotone(i: nat, j: nat)
    requires i <= j
    ensures Pow2(i) <= Pow2(j)
    decreases j - i
  {
    if i < j {
      Pow2Monotone(i, j - 1);
    }
  }

  /** Delays never shrink. */
  lemma BackoffMonotone(i: nat, j: nat)
    requires i <= j
    ensures BackoffDelay(i) <= BackoffDelay(j)
  {
    Pow2Monotone(i, j);
  }

  /** From the seventh delay on (index 6, 64 s uncapped) every delay is the one-minute cap. */
  lemma BackoffSaturates(k: nat)
    requires k >= 6
    ensures BackoffDelay(k) == MaxRetryDelay
    ensures BackoffDelay(5) == 32000 < MaxRetryDelay
  {
    assert Pow2(6) == 64;
    Pow2Monotone(6, k);
  }

  /** Total time slept by the first `k` retries. */
  function TotalBackoff(k: nat): (t: int)
    ensures 1000 * k <= t <= 60000 * k
  {
    if k == 0 then 0 else TotalBackoff(k - 1) + BackoffDelay(k - 1)
  }

  lemma {:induction false} TotalBackoffMonotone(i: nat, j: nat)
    requires i <= j
    ensures TotalBackoff(i) <= TotalBackoff(j)
    decreases j - i
  {
    if i < j {
      TotalBackoffMonotone(i, j - 1);
    }
  }

  /** After the six uncapped delays (63 s in all) every retry adds exactly one minute. */
  lemma {:induction false} TotalBackoffAfterSaturation(m: nat)
    ensures TotalBackoff(6 + m) == 63000 + MaxRetryDelay * m
  {
    if m == 0 {
      assert Pow2(5) == 32;
      assert TotalBackoff(6) == 1000 + 2000 + 4000 + 8000 + 16000 + 32000;
    } else {
      TotalBackoffAfterSaturation(m - 1);
      BackoffSaturates(6 + m - 1);
    }
  }

  /**
   * `j` sleeps are exactly enough for the accumulated backoff to reach
   * `timeoutMs`: with `j` it has, with one fewer it had not.
   */
  predicate ReachesBudgetAt(timeoutMs: int, j: nat) {
    TotalBackoff(j) >= timeoutMs && (j == 0 || TotalBackoff(j - 1) < timeoutMs)
  }

  /** Only one sleep count sits exactly at the budget's edge. */
  lemma ReachesBudgetAtUnique(timeoutMs: int, i: nat, j: nat)
    requires ReachesBudgetAt(timeoutMs, i)
    requires ReachesBudgetAt(timeoutMs, j)
    ensures i == j
  {
    if i < j {
      TotalBackoffMonotone(i, j - 1);
    } else if j < i {
      TotalBackoffMonotone(j, i - 1);
    }
  }
}
