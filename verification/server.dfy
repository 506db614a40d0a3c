/**
 * The service as the client experiences it: a scripted sequence of replies,
 * one per request, and the time each request takes.
 */
module Server {
  import opened Http

  /** One request's answer and the milliseconds that pass while it is in flight. */
  datatype Exchange = Exchange(duration: nat, reply: Reply)

  /**
   * The k-th request of a call is answered by `responses[k]`; once they are
   * used up every further request gets `last`.
   */
  datatype Script = Script(responses: seq<Exchange>, last: Exchange) {

    function Respond(k: nat): Exchange {
      if k < |responses| then responses[k] else last
    }

    /** No time passes during requests: only sleeps move the clock. */
    ghost predicate Instantaneous() {
      forall k: nat :: Respond(k).duration == 0
    }
  }

  /** Milliseconds spent in flight by requests `lo` up to (not including) `hi`. */
  function Durations(script: Script, lo: nat, hi: nat): nat
    decreases hi - lo
  {
    if lo >= hi then 0 else script.Respond(lo).duration + Durations(script, lo + 1, hi)
  }

  lemma {:induction false} DurationsOfInstantRequests(script: Script, lo: nat, hi: nat)
    requires forall k | lo <= k < hi :: script.Respond(k).duration == 0
    ensures Durations(script, lo, hi) == 0
    decreases hi - lo
  {
    if lo < hi {
      DurationsOfInstantRequests(script, lo + 1, hi);
    }
  }
}
