/**
 * What `acquire` does against particular kinds of service behaviour: a first
 * reply that is not a 423, a run of 423s followed by something else, and a
 * service that answers 423 forever.
 */
module AcquireProperties {
  import opened Promise
  import opened Decimal
  import opened Http
  import opened Server
  import opened Backoff
  import opened Client

  /**
   * When the first reply is not a 423, `acquire` sends one request, never
   * sleeps, and settles with that reply's classification.
   */
  lemma AcquireSingleAttempt(options: AcquireOptions, script: Script)
    requires !IsLocked(script.Respond(0).reply)
    ensures Acquire(options, script)
         == Run(Classify(script.Respond(0).reply), [AcquireRequest], [], script.Respond(0).duration)
  {
  }

  /** A 200 on the first request: one request, no sleep, the body returned unchanged. */
  lemma AcquireFirstReplyOk(options: AcquireOptions, script: Script)
    requires script.Respond(0).reply.Response?
    requires script.Respond(0).reply.statusCode == StatusOk
    ensures var run := Acquire(options, script);
      && run.result == Resolved(script.Respond(0).reply.body)
      && run.log == [AcquireRequest]
      && run.sleeps == []
  {
    AcquireSingleAttempt(options, script);
  }

  /**
   * Fail fast: a first reply that is neither a 200 nor a 423 (any other
   * status, or a failed connection) is rejected with its own error, after
   * one request and no sleep.
   */
  lemma AcquireFailsFast(options: AcquireOptions, script: Script)
    requires Classify(script.Respond(0).reply).Rejected?
    requires !IsLocked(script.Respond(0).reply)
    ensures var run := Acquire(options, script);
      && run.result == Rejected(Classify(script.Respond(0).reply).error)
      && run.result.error.StatusCode() != Some(StatusLocked)
      && run.log == [AcquireRequest]
      && run.sleeps == []
  {
    AcquireSingleAttempt(options, script);
  }

  /**
   * `n` replies of 423 and then something else, with no time passing in
   * requests and the budget not yet spent at the n-th 423: `acquire` sends
   * exactly `n + 1` requests, sleeps the first `n` backoff delays, and
   * settles with the classification of reply `n`.
   */
  lemma AcquireAfterLockedReplies(options: AcquireOptions, script: Script, n: nat)
    requires forall i | 0 <= i < n :: IsLocked(script.Respond(i).reply)
    requires forall i | 0 <= i <= n :: script.Respond(i).duration == 0
    requires !IsLocked(script.Respond(n).reply)
    requires n == 0 || TotalBackoff(n - 1) < TimeoutMs(TimeoutMinutes(options))
    ensures var run := Acquire(options, script);
      && run.result == Classify(script.Respond(n).reply)
      && |run.log| == n + 1
      && |run.sleeps| == n
      && (forall k | 0 <= k < n :: run.sleeps[k] == BackoffDelay(k))
      && run.elapsed == TotalBackoff(n)
  {
    var run := Acquire(options, script);
    AcquireReachesAttempt(options, script, n);
    AcquireSettles(options, script);
    assert |run.log| == n + 1;
    DurationsOfInstantRequests(script, 0, n + 1);
  }

  /**
   * While the service answers 423 in no time and the budget lasts, `acquire`
   * keeps going: it sends request `n`.
   */
  lemma AcquireReachesAttempt(options: AcquireOptions, script: Script, n: nat)
    requires forall i | 0 <= i < n :: IsLocked(script.Respond(i).reply)
    requires forall i | 0 <= i < n :: script.Respond(i).duration == 0
    requires n == 0 || TotalBackoff(n - 1) < TimeoutMs(TimeoutMinutes(options))
    ensures |Acquire(options, script).log| > n
  {
    var run := Acquire(options, script);
    var last := |run.log| - 1;
    if last < n {
      AcquireSettles(options, script);
      assert IsLocked(script.Respond(last).reply);
      DurationsOfInstantRequests(script, 0, last + 1);
      TotalBackoffMonotone(last, n - 1);
    }
  }

  /**
   * `n` replies of 423 followed by a 200, budget permitting: `n + 1`
   * requests, `n` sleeps, and the 200's body is the result.
   */
  lemma AcquireLockedThenOk(options: AcquireOptions, script: Script, n: nat)
    requires forall i | 0 <= i < n :: IsLocked(script.Respond(i).reply)
    requires forall i | 0 <= i <= n :: script.Respond(i).duration == 0
    requires script.Respond(n).reply.Response? && script.Respond(n).reply.statusCode == StatusOk
    requires n == 0 || TotalBackoff(n - 1) < TimeoutMs(TimeoutMinutes(options))
    ensures var run := Acquire(options, script);
      && run.result == Resolved(script.Respond(n).reply.body)
      && |run.log| == n + 1
      && |run.sleeps| == n
  {
    AcquireAfterLockedReplies(options, script, n);
  }

  /** Three 423s and then a 200: four requests, sleeps of 1, 2 and 4 seconds. */
  lemma AcquireThreeLockedThenOk(options: AcquireOptions, script: Script)
    requires forall i | 0 <= i < 3 :: IsLocked(script.Respond(i).reply)
    requires forall i | 0 <= i <= 3 :: script.Respond(i).duration == 0
    requires script.Respond(3).reply.Response? && script.Respond(3).reply.statusCode == StatusOk
    requires TimeoutMinutes(options) >= 1
    ensures var run := Acquire(options, script);
      && run.result == Resolved(script.Respond(3).reply.body)
      && |run.log| == 4
      && run.sleeps == [1000, 2000, 4000]
  {
    assert Pow2(2) == 4;
    assert TotalBackoff(2) == 3000;
    AcquireAfterLockedReplies(options, script, 3);
  }

  /**
   * Every delay slept lies between one second and one minute, the delays
   * never decrease, and the first three are 1, 2 and 4 seconds.
   */
  lemma AcquireSleepsBounded(options: AcquireOptions, script: Script)
    ensures var run := Acquire(options, script);
      && (forall i | 0 <= i < |run.sleeps| :: InitialRetryDelay <= run.sleeps[i] <= MaxRetryDelay)
      && (forall i, j | 0 <= i <= j < |run.sleeps| :: run.sleeps[i] <= run.sleeps[j])
      && (|run.sleeps| >= 3 ==> run.sleeps[..3] == [1000, 2000, 4000])
  {
    var run := Acquire(options, script);
    forall i, j | 0 <= i <= j < |run.sleeps|
      ensures run.sleeps[i] <= run.sleeps[j]
    {
      BackoffMonotone(i, j);
    }
    assert Pow2(2) == 4;
  }

  /**
   * With time moved only by sleeps, `acquire` gives up only once the
   * elapsed time has reached the budget, and, if it slept at all, less than
   * one maximal delay past it.
   */
  lemma AcquireTimeoutWindow(options: AcquireOptions, script: Script)
    requires script.Instantaneous()
    ensures var run := Acquire(options, script);
      var budget := TimeoutMs(TimeoutMinutes(options));
      run.result.Rejected? && run.result.error.AcquireTimeout? ==>
        && run.result.error == AcquireTimeout(TimeoutMinutes(options))
        && budget <= run.elapsed
        && (|run.sleeps| > 0 ==> run.elapsed < budget + MaxRetryDelay)
  {
    var run := Acquire(options, script);
    AcquireSettles(options, script);
    var j := |run.sleeps|;
    DurationsOfInstantRequests(script, 0, j + 1);
    if j > 0 {
      DurationsOfInstantRequests(script, 0, j);
    }
  }

  /**
   * A service that answers 423 forever: `acquire` rejects with the timeout
   * error after exactly as many sleeps as it takes the accumulated backoff to
   * reach the budget, with one request more than sleeps.
   */
  lemma AcquireAlwaysLocked(options: AcquireOptions, script: Script)
    requires script.Instantaneous()
    requires forall k: nat :: IsLocked(script.Respond(k).reply)
    ensures var run := Acquire(options, script);
      && run.result == Rejected(AcquireTimeout(TimeoutMinutes(options)))
      && ReachesBudgetAt(TimeoutMs(TimeoutMinutes(options)), |run.sleeps|)
      && |run.log| == |run.sleeps| + 1
      && run.elapsed == TotalBackoff(|run.sleeps|)
  {
    var run := Acquire(options, script);
    AcquireSettles(options, script);
    var j := |run.sleeps|;
    assert IsLocked(script.Respond(j).reply);
    DurationsOfInstantRequests(script, 0, j + 1);
    if j > 0 {
      assert IsLocked(script.Respond(j - 1).reply);
      DurationsOfInstantRequests(script, 0, j);
    }
  }

  /**
   * The default ten-minute budget against a service that answers 423
   * forever: 16 requests and 15 sleeps, the last ones a minute each, giving
   * up after 603 seconds (within eleven minutes) with "Failed to acquire
   * environment within 10 minutes".
   */
  lemma AcquireDefaultBudgetAlwaysLocked(script: Script)
    requires script.Instantaneous()
    requires forall k: nat :: IsLocked(script.Respond(k).reply)
    ensures var run := Acquire(AcquireOptions(None), script);
      && run.result.Rejected?
      && run.result.error.Message() == "Failed to acquire environment within 10 minutes"
      && |run.log| == 16
      && |run.sleeps| == 15
      && run.sleeps[13] == run.sleeps[14] == MaxRetryDelay
      && run.elapsed == 603000 <= 11 * 60 * 1000
  {
    var options := AcquireOptions(None);
    assert TimeoutMs(TimeoutMinutes(options)) == 600000;
    AcquireAlwaysLocked(options, script);
    DefaultBudgetRun(Acquire(options, script));
  }

  /** The numbers of a run that gave up under the ten-minute budget. */
  lemma DefaultBudgetRun(run: Run<Body>)
    requires run.result == Rejected(AcquireTimeout(DefaultTimeoutMinutes))
    requires ReachesBudgetAt(600000, |run.sleeps|)
    requires |run.log| == |run.sleeps| + 1
    requires forall i | 0 <= i < |run.sleeps| :: run.sleeps[i] == BackoffDelay(i)
    requires run.elapsed == TotalBackoff(|run.sleeps|)
    ensures run.result.error.Message() == "Failed to acquire environment within 10 minutes"
    ensures |run.log| == 16 && |run.sleeps| == 15
    ensures run.sleeps[13] == run.sleeps[14] == MaxRetryDelay
    ensures run.elapsed == 603000
  {
    DefaultReachesBudgetAt();
    ReachesBudgetAtUnique(600000, |run.sleeps|, 15);
    BackoffSaturates(13);
    BackoffSaturates(14);
    DefaultTimeoutText();
  }

  /** Under the ten-minute budget the backoff reaches 600 s after 15 sleeps, at 603 s. */
  lemma DefaultReachesBudgetAt()
    ensures ReachesBudgetAt(600000, 15)
    ensures TotalBackoff(15) == 603000
  {
    TotalBackoffAfterSaturation(9);
    TotalBackoffAfterSaturation(8);
  }

  lemma DefaultTimeoutText()
    ensures AcquireTimeout(DefaultTimeoutMinutes).Message() == "Failed to acquire environment within 10 minutes"
  {
  }
}
