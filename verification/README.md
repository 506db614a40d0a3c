# Atmosphere client: acquire with backoff, release, response classification

A Dafny model of `AtmosphereClient` from `src/client.ts`, the client of the
Atmosphere environment-allocation service. The model covers three things.

- **`request`** turns one HTTP outcome into exactly one result. A 200
  resolves with the parsed body. Any other status rejects with an error
  tagged with that `statusCode`, whose text is
  `<status> (<statusMessage>): <message>`. Here `<message>` is the body's
  `message` field, or `Unknown error` when the body has none. A failure of
  the request itself rejects unchanged.
- **`acquire`** re-issues `POST /allocations` while the service answers 423
  (Locked). Before each sleep it reads the elapsed time. Once that reaches
  `timeoutMinutes * 60000` ms (10 minutes by default), it throws
  `Failed to acquire environment within N minutes`. Otherwise it sleeps for
  the current delay. The delay starts at 1000 ms, doubles after every sleep
  and is capped at 60000 ms. Any other error is rethrown at once.
- **`release`** sends one `DELETE /allocations/{id}` and never retries.

The service is modelled as a `Script`. The k-th request of a call gets the
k-th scripted exchange. Once those run out, every further request gets the
script's `last` exchange. Each exchange is a reply plus the milliseconds the
request takes. Time is an abstract clock that starts at 0 when the call
starts. Only requests in flight and sleeps move it. A script is
`Instantaneous()` when no request takes any time, so only sleeps move the
clock.

Modules, one file each:

| file | module | models |
|---|---|---|
| `promise.dfy` | `Promise` | `Option` for absent fields and unset options, and `Settled` for a settled promise |
| `decimal.dfy` | `Decimal` | decimal rendering of integers, which is what `${n}` prints below 10^21, and a reader that inverts it |
| `http.dfy` | `Http` | requests, replies, errors, and the classification done by `request` |
| `server.dfy` | `Server` | the scripted service and request durations |
| `backoff.dfy` | `Backoff` | the delay schedule and its running total |
| `client.dfy` | `Client` | `acquire` as a step function, its loop, an in-place loop version, and `release` |
| `properties.dfy` | `AcquireProperties` | what `acquire` does for particular kinds of service behaviour |

The loop state is `State(retryDelay, clock, log, sleeps)`. `Valid` holds in
every reachable state: there is one `POST` per sleep so far. The k-th sleep
is `BackoffDelay(k) = min(1000 * 2^k, 60000)`. The next delay is the
following one. Every scripted exchange settles after a finite `duration`. Given that,
the loop terminates because each retry lowers `budget - clock` by at least
1000 ms, and retries happen only while that quantity is positive. A request
that never settles is outside the model (see below).

## Model

| member | source | states |
|---|---|---|
| `Http.Classify` | src/client.ts:155-176 | A reply resolves exactly when it is a 200, and then with its body unchanged. Any other status rejects with an error carrying that status code, with text `<status> (<statusMessage>): ` followed by the body's message or `Unknown error`. A failed request rejects with no status code and its own message. The error carries status 423 exactly when the reply is a 423. |
| `Http.ErrorTextParts` | src/client.ts:162-163 | The status code can be read back from the front of an error's text, and the service's message is the text's tail. |
| `Http.ErrorTextInjective` | src/client.ts:162-163 | For a fixed status message, two error texts are equal only if their status codes and messages are equal. |
| `Http.ClassifyBadRequest` | src/client.ts:157-166 | A 400 "BadRequest" with message "Invalid Input" reads `400 (BadRequest): Invalid Input`. Without a message it reads `400 (BadRequest): Unknown error`. |
| `Http.TimeoutTextNamesMinutes` | src/client.ts:109 | The timeout error names the configured minutes, and they can be read back from its text. |
| `Backoff.BackoffDelay` | src/client.ts:90-91 | Every delay lies between 1000 and 60000 ms. |
| `Backoff.BackoffStep` | src/client.ts:112-113 | Starting at 1000 and applying `min(2d, 60000)` after each sleep gives exactly the closed form `min(1000 * 2^k, 60000)`. |
| `Backoff.BackoffMonotone` | src/client.ts:113 | Delays never decrease. |
| `Backoff.BackoffSaturates` | src/client.ts:113 | The 6th delay is 32000 ms. From the 7th on, every delay is the 60000 ms cap. |
| `Backoff.TotalBackoff` | src/client.ts:112-113 | After k sleeps, the time slept lies between 1000k and 60000k ms. |
| `Backoff.TotalBackoffMonotone` | src/client.ts:112-113 | More sleeps never mean less total time slept. |
| `Backoff.TotalBackoffAfterSaturation` | src/client.ts:112-113 | After 6 + m sleeps, the time slept is 63000 + 60000m ms. |
| `Backoff.ReachesBudgetAtUnique` | src/client.ts:107-109 | Only one sleep count can be the first to bring the time slept up to the budget. |
| `Client.AcquireStep` | src/client.ts:98-118 | An iteration retries exactly when the reply is a 423 and the elapsed time is still below the budget. A retry keeps the state valid, adds one request, and moves the clock by at least 1000 ms from a point below the budget. Otherwise the iteration settles on its reply. |
| `Client.AcquireLoop` | src/client.ts:98-119 | When every request settles, the loop ends. It sends one more request than it sleeps, and every request is `POST /allocations`. The i-th sleep is `min(1000 * 2^i, 60000)`. |
| `Client.AcquireLoopRetries` | src/client.ts:105-114 | Every attempt before the last got a 423, and the clock read after it was below the budget. |
| `Client.AcquireLoopElapsed` | src/client.ts:107-112 | The clock at the end equals the start clock plus the time slept since then plus the requests' durations. |
| `Client.AcquireLoopSettles` | src/client.ts:99-117 | The last reply settles the call. A success returns its body. A timeout happens only on a 423 at or past the budget. Any other error is the reply's own error, and never a 423. |
| `Client.Acquire` | src/client.ts:84-120 | One more request than sleeps, all `POST /allocations`, and the sleeps follow the backoff schedule. |
| `Client.AcquireSettles` | src/client.ts:84-120 | Only 423s are retried, each within the budget. Elapsed time is the backoff slept plus the request durations. The last reply settles the call. |
| `Client.AcquireWithBackoff` | src/client.ts:84-120 | The source's in-place `while (true)` loop computes exactly `Acquire`. |
| `Client.Release` | src/client.ts:126-134 | For an id Node accepts in a path, one `DELETE /allocations/{id}` and no sleep, whatever the reply. It resolves exactly when the reply is a 200. Otherwise it rejects with the reply's own error. |
| `Client.ReleaseRequestIdentifies` | src/client.ts:128-131 | The release path identifies the allocation: different ids give different requests. |
| `AcquireProperties.AcquireSingleAttempt` | src/client.ts:99-117 | A first reply that is not a 423 settles the call after one request, no sleep and that request's duration. |
| `AcquireProperties.AcquireFirstReplyOk` | src/client.ts:99-101 | A first reply of 200 gives its body unchanged, after one request and no sleep. |
| `AcquireProperties.AcquireFailsFast` | src/client.ts:105-117 | Any other first rejection (a status other than 200 and 423, or a failed request) is rethrown unchanged, after one request and no sleep. |
| `AcquireProperties.AcquireReachesAttempt` | src/client.ts:105-114 | While replies are instant 423s and the budget lasts, `acquire` goes on to send request n. |
| `AcquireProperties.AcquireAfterLockedReplies` | src/client.ts:98-117 | Take n instant 423s, then a reply that is not a 423, with the budget not spent at the n-th 423. The call makes exactly n + 1 requests and n sleeps of `min(1000 * 2^k, 60000)`. It takes `TotalBackoff(n)` ms and settles on reply n. |
| `AcquireProperties.AcquireLockedThenOk` | src/client.ts:98-115 | n 423s and then a 200, within the budget, give n + 1 requests, n sleeps and the 200's body. |
| `AcquireProperties.AcquireThreeLockedThenOk` | test/client.test.ts:77-89 | Three 423s and then a 200 give four requests and sleeps of 1000, 2000 and 4000 ms. |
| `AcquireProperties.AcquireSleepsBounded` | src/client.ts:90-113 | Every sleep lies in [1000, 60000] ms. Sleeps never decrease. The first three are 1000, 2000 and 4000 ms. |
| `AcquireProperties.AcquireTimeoutWindow` | src/client.ts:107-113 | When only sleeps move the clock, `acquire` gives up with the timeout error only once the elapsed time is at least the budget. If it slept at all, the elapsed time is then still less than budget + 60000 ms. |
| `AcquireProperties.AcquireAlwaysLocked` | src/client.ts:105-114 | Against instant 423s forever, `acquire` rejects with the timeout error. It does so after the first sleep count whose total reaches the budget, with one request more than sleeps. |
| `AcquireProperties.AcquireDefaultBudgetAlwaysLocked` | src/client.ts:86-113 | Under the default budget, instant 423s forever give 16 requests and 15 sleeps, the 14th and 15th of 60000 ms. The call gives up at 603000 ms with "Failed to acquire environment within 10 minutes". |
| `AcquireProperties.DefaultTimeoutText` | src/client.ts:86-109 | The default timeout's error text is "Failed to acquire environment within 10 minutes". |

## Left out

- Client.Release: assumes the allocation id holds only characters Node accepts in a request path (U+0021 to U+00FF). For any other id, `https.request` throws `ERR_UNESCAPED_CHARACTERS` inside the promise executor. `release` then rejects with that error before any `DELETE` is sent, and this is not modelled.
- HTTPS plumbing is left out: hostname, port 443, the `Content-Type` header, streaming `data`/`end` events and `req.end()`. A request is one scripted exchange.
- JSON parsing is left out. A body is `Body(message, payload)`. A `message` that is `null` is treated like an absent one, as `??` does. A non-string `message` is not modelled. Nor is `JSON.parse` throwing inside the `end` handler. That listener runs on a later tick, so the throw is an uncaught exception, not a rejection. By default Node then ends the whole process. Only a host that installs an `uncaughtException` handler sees the call stay pending instead.
- A 200 both resolves and then builds and rejects an error. A settled promise ignores the second settlement, so a 200 is modelled as success only.
- `Date.now` and `setTimeout` become an abstract millisecond clock. It is moved by each exchange's `duration` and by each sleep.
- Every request settles. The source sets no request or socket timeout, so a stalled connection leaves `request` pending forever. `acquire` and `release` then stay pending past the budget, and this is not modelled.
- `timeoutMinutes` is an unbounded integer. Fractional, `NaN` or non-numeric values are not modelled. Neither is the double range of a JavaScript number. The budget `60 * timeoutMinutes * 1000` is exact in JavaScript only while its magnitude is at most 2^53. The timeout text prints `timeoutMinutes` in exponent form once its magnitude reaches 10^21, where the model prints every digit.
- Status codes are natural numbers. Node's possibly-undefined `statusCode` is not modelled. An absent `statusMessage` renders as `undefined`, as the template literal does.
- The shape of a 200 body (`EnvironmentAllocation`, `Environment`, `EnvironmentCredentials`) is not modelled. `acquire` returns the parsed body without checking it, so the model carries it through as an abstract `Body`.
- The constructor, which only stores the endpoint host, is not modelled.
- `test/client.test.ts` was written against a later API: `acquire({ pool, requester, timeoutSeconds })`, `release(id, outcome)`, aws4fetch request signing, and the text "within 600 seconds". The model follows `src/client.ts`. It retries only 423, only in `acquire`, and counts the budget in minutes.
- The scenario lemmas of `AcquireProperties` that fix counts, sleeps or the give-up point assume requests take no time (`duration == 0` for the requests involved, or `Instantaneous()`), as under the fake timers. These are `AcquireReachesAttempt`, `AcquireAfterLockedReplies`, `AcquireLockedThenOk`, `AcquireThreeLockedThenOk`, `AcquireTimeoutWindow`, `AcquireAlwaysLocked` and `AcquireDefaultBudgetAlwaysLocked`. With real request times, whether the budget lasts depends on the durations. `Client.AcquireSettles` states the general case.
- AcquireProperties.AcquireAfterLockedReplies: stated only when those requests take no time, as above.
- AcquireProperties.AcquireTimeoutWindow: the upper bound is stated only when requests take no time. With request times, the give-up point can also lag by the last request's duration.
