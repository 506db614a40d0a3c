/**
 * `AtmosphereClient.acquire` and `release`.
 *
 * `acquire` re-issues `POST /allocations` while the service answers 423,
 * sleeping between attempts with a doubling, capped delay, and gives up once
 * the time elapsed at a 423 has reached the budget. `release` sends a single
 * `DELETE /allocations/{id}`. Time is an abstract millisecond clock that
 * starts at 0 when the call starts and is moved only by requests in flight
 * and by sleeps.
 */
module Client {
  import opened Promise
  import opened Http
  import opened Server
  import opened Backoff

  const DefaultTimeoutMinutes: int := 10

  /** The options `acquire` takes: an optional budget in minutes. */
  datatype AcquireOptions = AcquireOptions(timeoutMinutes: Option<int>)

  function TimeoutMinutes(options: AcquireOptions): int {
    options.timeoutMinutes.GetOr(DefaultTimeoutMinutes)
  }

  /** The budget in milliseconds: `60 * timeoutMinutes * 1000`. */
  function TimeoutMs(timeoutMinutes: int): int {
    60 * timeoutMinutes * 1000
  }

  const AllocationsPath: string := "/allocations"

  const AcquireRequest: HttpRequest := HttpRequest(Post, AllocationsPath)

  function ReleaseRequest(allocationId: string): HttpRequest {
    HttpRequest(Delete, AllocationsPath + "/" + allocationId)
  }

  /** What a call did: how it settled, the requests it sent, the sleeps it took, the time it took. */
  datatype Run<T> = Run(result: Settled<T, Error>, log: seq<HttpRequest>, sleeps: seq<int>, elapsed: int)

  /** The acquire loop's state at the top of an iteration. */
  datatype State = State(retryDelay: int, clock: int, log: seq<HttpRequest>, sleeps: seq<int>)

  /** One iteration either goes round again or settles the call. */
  datatype Step = Retry(next: State) | Finish(run: Run<Body>)

  const Start: State := State(InitialRetryDelay, 0, [], [])

  /**
   * The states the loop can be in: one POST per sleep so far, the sleeps are
   * the backoff schedule's first delays, and the next delay is the following one.
   */
  predicate Valid(s: State) {
    && |s.log| == |s.sleeps|
    && (forall i | 0 <= i < |s.log| :: s.log[i] == AcquireRequest)
    && (forall i | 0 <= i < |s.sleeps| :: s.sleeps[i] == BackoffDelay(i))
    && s.retryDelay == BackoffDelay(|s.sleeps|)
  }

  /**
   * How an attempt's reply settles the call: a success returns the reply's
   * body, the timeout error is raised only on a 423 once the budget has run
   * out, and any other error is the reply's own classification, never a 423.
   */
  predicate Settles(reply: Reply, result: Settled<Body, Error>, timeoutMinutes: int, elapsed: int) {
    if result.Resolved? then
      Classify(reply) == result
    else if result.error.AcquireTimeout? then
      && IsLocked(reply)
      && result.error.timeoutMinutes == timeoutMinutes
      && elapsed >= TimeoutMs(timeoutMinutes)
    else
      Classify(reply) == result && !IsLocked(reply)
  }

  /**
   * The clock reading after attempt `i` of a run that was in state `s`
   * before attempt `|s.log|`: the sleeps since then and the attempts'
   * durations added on.
   */
  function ClockAfter(script: Script, s: State, i: nat): int {
    s.clock + TotalBackoff(i) - TotalBackoff(|s.sleeps|) + Durations(script, |s.log|, i + 1)
  }

  /** One pass through the body of `acquire`'s `while (true)`. */
  function AcquireStep(timeoutMinutes: int, script: Script, s: State): (st: Step)
    requires Valid(s)
    ensures var ex := script.Respond(|s.log|);
      st.Retry? <==> IsLocked(ex.reply) && s.clock + ex.duration < TimeoutMs(timeoutMinutes)
    ensures st.Retry? ==>
      && Valid(st.next)
      && |st.next.log| == |s.log| + 1
      && s.clock < TimeoutMs(timeoutMinutes)
      && st.next.clock >= s.clock + InitialRetryDelay
      && st.next.clock == s.clock + script.Respond(|s.log|).duration + s.retryDelay
    ensures st.Finish? ==>
      && st.run.log == s.log + [AcquireRequest]
      && st.run.sleeps == s.sleeps
      && st.run.elapsed == s.clock + script.Respond(|s.log|).duration
      && Settles(script.Respond(|s.log|).reply, st.run.result, timeoutMinutes, st.run.elapsed)
  {
    var ex := script.Respond(|s.log|);
    var log := s.log + [AcquireRequest];
    var elapsed := s.clock + ex.duration;
    match Classify(ex.reply)
    case Resolved(body) => Finish(Run(Resolved(body), log, s.sleeps, elapsed))
    case Rejected(error) =>
      if error.StatusCode() == Some(StatusLocked) then
        if elapsed >= TimeoutMs(timeoutMinutes) then
          Finish(Run(Rejected(AcquireTimeout(timeoutMinutes)), log, s.sleeps, elapsed))
        else
          BackoffStep(|s.sleeps|);
          Retry(State(NextDelay(s.retryDelay), elapsed + s.retryDelay, log, s.sleeps + [s.retryDelay]))
      else
        Finish(Run(Rejected(error), log, s.sleeps, elapsed))
  }

  /** Moving the reference state one retry forward does not change later clock readings. */
  lemma ClockAfterRetry(timeoutMinutes: int, script: Script, s: State)
    requires Valid(s)
    requires AcquireStep(timeoutMinutes, script, s).Retry?
    ensures var next := AcquireStep(timeoutMinutes, script, s).next;
      forall i: nat | |next.log| <= i :: ClockAfter(script, next, i) == ClockAfter(script, s, i)
    ensures ClockAfter(script, s, |s.log|) < TimeoutMs(timeoutMinutes)
  {
    ClockAfterFirst(script, s);
  }

  /** Read right after the attempt made in state `s`, the clock has only moved by that attempt. */
  lemma ClockAfterFirst(script: Script, s: State)
    requires Valid(s)
    ensures ClockAfter(script, s, |s.log|) == s.clock + script.Respond(|s.log|).duration
  {
    assert Durations(script, |s.log| + 1, |s.log| + 1) == 0;
  }

  /**
   * The loop from state `s` on. It ends (the budget minus the clock drops by
   * at least a second per retry), sends one more request than it sleeps, and
   * its sleeps are the backoff schedule.
   */
  function AcquireLoop(timeoutMinutes: int, script: Script, s: State): (run: Run<Body>)
    requires Valid(s)
    ensures |run.log| == |run.sleeps| + 1
    ensures |s.log| < |run.log|
    ensures forall i | 0 <= i < |run.log| :: run.log[i] == AcquireRequest
    ensures forall i | 0 <= i < |run.sleeps| :: run.sleeps[i] == BackoffDelay(i)
    decreases TimeoutMs(timeoutMinutes) - s.clock
  {
    match AcquireStep(timeoutMinutes, script, s)
    case Finish(run) => run
    case Retry(next) => AcquireLoop(timeoutMinutes, script, next)
  }

  /**
   * Why the loop went round: every attempt before the last got a 423 and
   * was retried within the budget.
   */
  lemma {:induction false} AcquireLoopRetries(timeoutMinutes: int, script: Script, s: State)
    requires Valid(s)
    ensures var run := AcquireLoop(timeoutMinutes, script, s);
      forall i | |s.log| <= i < |run.log| - 1 ::
        IsLocked(script.Respond(i).reply) && ClockAfter(script, s, i) < TimeoutMs(timeoutMinutes)
    decreases TimeoutMs(timeoutMinutes) - s.clock
  {
    var step := AcquireStep(timeoutMinutes, script, s);
    if step.Retry? {
      var next := step.next;
      var run := AcquireLoop(timeoutMinutes, script, next);
      assert run == AcquireLoop(timeoutMinutes, script, s);
      AcquireLoopRetries(timeoutMinutes, script, next);
      ClockAfterRetry(timeoutMinutes, script, s);
      forall i | |s.log| <= i < |run.log| - 1
        ensures IsLocked(script.Respond(i).reply) && ClockAfter(script, s, i) < TimeoutMs(timeoutMinutes)
      {
        if i > |s.log| {
          assert ClockAfter(script, next, i) == ClockAfter(script, s, i);
        }
      }
    }
  }

  /** Time is accounted for: the clock at the end is the clock read after the last attempt. */
  lemma {:induction false} AcquireLoopElapsed(timeoutMinutes: int, script: Script, s: State)
    requires Valid(s)
    ensures var run := AcquireLoop(timeoutMinutes, script, s);
      run.elapsed == ClockAfter(script, s, |run.log| - 1)
    decreases TimeoutMs(timeoutMinutes) - s.clock
  {
    var step := AcquireStep(timeoutMinutes, script, s);
    if step.Finish? {
      assert AcquireLoop(timeoutMinutes, script, s) == step.run;
      ClockAfterFirst(script, s);
    } else {
      var next := step.next;
      var run := AcquireLoop(timeoutMinutes, script, next);
      assert run == AcquireLoop(timeoutMinutes, script, s);
      AcquireLoopElapsed(timeoutMinutes, script, next);
      ClockAfterRetry(timeoutMinutes, script, s);
      assert ClockAfter(script, next, |run.log| - 1) == ClockAfter(script, s, |run.log| - 1);
    }
  }

  /** Why the loop stopped: the last attempt's reply settles the call. */
  lemma {:induction false} AcquireLoopSettles(timeoutMinutes: int, script: Script, s: State)
    requires Valid(s)
    ensures var run := AcquireLoop(timeoutMinutes, script, s);
      Settles(script.Respond(|run.log| - 1).reply, run.result, timeoutMinutes, run.elapsed)
    decreases TimeoutMs(timeoutMinutes) - s.clock
  {
    var step := AcquireStep(timeoutMinutes, script, s);
    if step.Finish? {
      assert AcquireLoop(timeoutMinutes, script, s) == step.run;
    } else {
      assert AcquireLoop(timeoutMinutes, script, s) == AcquireLoop(timeoutMinutes, script, step.next);
      AcquireLoopSettles(timeoutMinutes, script, step.next);
    }
  }

  /** `acquire(options)` against the scripted service. */
  function Acquire(options: AcquireOptions, script: Script): (run: Run<Body>)
    ensures |run.log| == |run.sleeps| + 1
    ensures forall i | 0 <= i < |run.log| :: run.log[i] == AcquireRequest
    ensures forall i | 0 <= i < |run.sleeps| :: run.sleeps[i] == BackoffDelay(i)
  {
    AcquireLoop(TimeoutMinutes(options), script, Start)
  }

  /**
   * The whole of `acquire`: only 423s are retried, each within the budget;
   * the time taken is the backoff slept plus the requests' durations; and
   * the last reply settles the call.
   */
  lemma AcquireSettles(options: AcquireOptions, script: Script)
    ensures var run := Acquire(options, script);
      && (forall i | 0 <= i < |run.log| - 1 ::
            && IsLocked(script.Respond(i).reply)
            && TotalBackoff(i) + Durations(script, 0, i + 1) < TimeoutMs(TimeoutMinutes(options)))
      && run.elapsed == TotalBackoff(|run.sleeps|) + Durations(script, 0, |run.log|)
      && Settles(script.Respond(|run.log| - 1).reply, run.result, TimeoutMinutes(options), run.elapsed)
  {
    AcquireLoopRetries(TimeoutMinutes(options), script, Start);
    AcquireLoopElapsed(TimeoutMinutes(options), script, Start);
    AcquireLoopSettles(TimeoutMinutes(options), script, Start);
  }

  /**
   * The loop of `acquire` written as the source writes it: local variables
   * updated in place inside `while (true)`.
   */
  method AcquireWithBackoff(options: AcquireOptions, script: Script) returns (run: Run<Body>)
    ensures run == Acquire(options, script)
  {
    var timeoutMinutes := TimeoutMinutes(options);
    var timeoutMs := TimeoutMs(timeoutMinutes);
    var retryDelay := InitialRetryDelay;
    var elapsed := 0;
    var log: seq<HttpRequest> := [];
    var sleeps: seq<int> := [];
    while true
      invariant Valid(State(retryDelay, elapsed, log, sleeps))
      invariant AcquireLoop(timeoutMinutes, script, State(retryDelay, elapsed, log, sleeps))
             == Acquire(options, script)
      decreases timeoutMs - elapsed
    {
      ghost var s := State(retryDelay, elapsed, log, sleeps);
      ghost var step := AcquireStep(timeoutMinutes, script, s);
      var exchange := script.Respond(|log|);
      log := log + [AcquireRequest];
      elapsed := elapsed + exchange.duration;
      var outcome := Classify(exchange.reply);
      if outcome.Resolved? {
        assert step == Finish(Run(outcome, log, sleeps, elapsed));
        return Run(outcome, log, sleeps, elapsed);
      }
      if outcome.error.StatusCode() == Some(StatusLocked) {
        if elapsed >= timeoutMs {
          assert step == Finish(Run(Rejected(AcquireTimeout(timeoutMinutes)), log, sleeps, elapsed));
          return Run(Rejected(AcquireTimeout(timeoutMinutes)), log, sleeps, elapsed);
        }
        BackoffStep(|sleeps|);
        elapsed := elapsed + retryDelay;
        sleeps := sleeps + [retryDelay];
        retryDelay := Min(retryDelay * 2, MaxRetryDelay);
        assert step == Retry(State(retryDelay, elapsed, log, sleeps));
        continue;
      }
      assert step == Finish(Run(outcome, log, sleeps, elapsed));
      return Run(outcome, log, sleeps, elapsed);
    }
  }

  /**
   * `release(allocationId)`: one `DELETE /allocations/{id}`, no retry and no
   * sleep whatever comes back; it resolves exactly when the reply is a 200
   * and otherwise rejects with the reply's own error.
   */
  function Release(allocationId: string, script: Script): (run: Run<()>)
    ensures run.log == [HttpRequest(Delete, "/allocations/" + allocationId)]
    ensures run.sleeps == []
    ensures run.result.Resolved? <==> Classify(script.Respond(0).reply).Resolved?
    ensures run.result.Rejected? ==> Classify(script.Respond(0).reply) == Rejected(run.result.error)
    ensures run.elapsed == script.Respond(0).duration
  {
    assert AllocationsPath + "/" + allocationId == "/allocations/" + allocationId;
    var exchange := script.Respond(0);
    var result := match Classify(exchange.reply)
      case Resolved(_) => Resolved(())
      case Rejected(error) => Rejected(error);
    Run(result, [ReleaseRequest(allocationId)], [], exchange.duration)
  }

  /** The release path names the allocation: distinct ids give distinct requests. */
  lemma ReleaseRequestIdentifies(a: string, b: string)
    requires ReleaseRequest(a) == ReleaseRequest(b)
    ensures a == b
  {
    var p := ReleaseRequest(a).path;
    assert a == p[|AllocationsPath| + 1..];
  }
}
