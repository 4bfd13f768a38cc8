# Resilient HTTP client: a verified model of its control layer

This project models the resilience layer of a Python HTTP client in Dafny
(`src/client.py`). The layer decides, for every outbound call, whether the call
may proceed, how it is throttled and how it is retried. It also decides what the
caller gets back when the call cannot succeed. The model has four parts:

- **Circuit breaker** (`breaker.dfy`, module `Breaker`). A class with the
  source's fields: `failMax`, `resetTimeout`, `failCount`, `state` and
  `openedAt`. Each method is one locked section of the original, so it is
  atomic here. The wall clock is the argument `now`. Each method is tied to a
  pure transition function on a `Snapshot`, which holds the three fields
  `circuit_state` reports. The lemmas prove multi-step properties of those
  functions:
  - the circuit opens on the `fail_max`-th consecutive failure and never
    before (on the first failure when `fail_max <= 0`);
  - a circuit opened by failures re-opens on a failed trial;
  - a circuit forced open with a count two or more below the threshold
    does not re-open on a failed trial (one below, the failed trial reaches
    the threshold and re-opens it).

  The class invariant (`Consistent`) says two things. A closed circuit is below
  its threshold, or its failure count is zero (with a threshold of zero or
  less: a fresh breaker, or one just after a success or a reset). An open or half-open circuit always
  carries its opening instant.
- **Rate limiter** (`limiter.dfy`, module `Limiter`). A token bucket with lazy
  refill, on exact `real` arithmetic. The two locked phases of `acquire` are
  two methods, `AcquireFast(now)` and `AcquireAfterWait()`, and the sleep
  between them is the returned wait. The invariant is
  `0 <= tokens <= capacity`. The pure functions `Acquired` and `Delay` give
  the effect of one complete acquisition. `BackToBack` is a caller that
  acquires repeatedly, and a budget lemma bounds how many tokens that caller
  receives.
- **Concurrency gate** (`gate.dfy`, module `Gate`). The semaphore is reduced
  to a permit counter. Waiting for a permit is the precondition that one is
  free.
- **Retry orchestration and facade** (`retry.dfy` and `client.dfy`, modules
  `Retry` and `Client`). The transport is a script of replies: a status with a
  body, a timeout or a transport error, each stamped with the instant it is
  reported to the breaker. `Retry.Request` specifies one request. It returns
  the response (`Ok`, `Err(fault)` or `CircuitOpen`), the number of transport
  calls, the backoff sleeps and the breaker's new fields.
  `ResilientClient.Request` is `_request`: it holds a semaphore permit for
  the whole request, takes a rate-limiter token and then runs
  `ResilientClient.Guarded`, the breaker check and the imperative
  `while true` retry loop, proved equal to that specification. The permit
  is released on every exit path. `Call` turns every response into a
  dictionary and never fails. `RunBatch` maps calls over the URLs and keeps
  the input order. The control helpers pass through to the breaker.

Three behaviours of the code a reader may not expect:

- `record_success` does not clear `opened_at` (`src/client.py:39-44`).
  `AfterSuccess` keeps it.
- In HALF_OPEN, `allow_request` admits every caller, not a single trial
  (`src/client.py:31-37`).
- The second phase of `acquire` takes its token without refilling and without
  advancing `last` (`src/client.py:91-92`). The next refill counts the time
  slept a second time, so sustained throughput does not converge to the fill
  rate. `Limiter.BackToBackBudget` proves that a caller acquiring back to
  back receives at most the initial stock, plus the refill credit, plus one
  token per slow acquisition. `Limiter.TwiceTheFillRate` shows that this
  bound is reached: with a capacity of one token and a fill rate of one token
  per second, an empty bucket hands out `2k` tokens in `k` seconds.

## Model

| member | source | states |
|---|---|---|
| `Breaker.CircuitBreaker.constructor` | src/client.py:21-27 | a new breaker is CLOSED with no failures and no opening instant, and keeps its threshold and reset timeout |
| `Breaker.CircuitBreaker.AllowRequest` | src/client.py:29-37 | when OPEN within the reset timeout it refuses and changes nothing; when OPEN past it, it moves to HALF_OPEN and admits; otherwise it admits and changes nothing; the breaker invariant is kept |
| `Breaker.CircuitBreaker.RecordSuccess` | src/client.py:39-44 | from any state: the count becomes 0 and the state CLOSED; the opening instant is untouched |
| `Breaker.CircuitBreaker.RecordFailure` | src/client.py:46-53 | the count grows by exactly one; the circuit becomes OPEN, stamped `now`, exactly when the new count reaches the threshold; otherwise the state and the opening instant are unchanged |
| `Breaker.CircuitBreaker.ForceOpen` | src/client.py:55-59 | OPEN, stamped `now`, with the failure count unchanged |
| `Breaker.CircuitBreaker.Reset` | src/client.py:61-66 | CLOSED, count 0 and no opening instant, whatever the state was |
| `Breaker.OpenedSince` | src/client.py:32 | the instant used by `allow_request`: the opening instant when there is one, else 0 (the `opened_at or 0` fallback) |
| `Breaker.Admits` | src/client.py:31-37 | a circuit that is not OPEN always admits; an OPEN circuit with an opening instant admits exactly when `now >= opened_at + reset_timeout` |
| `Breaker.AfterAllow` | src/client.py:31-37 | `allow_request` keeps the count and the opening instant, and changes the state only from OPEN to HALF_OPEN, exactly when the timeout has elapsed |
| `Breaker.AfterSuccess` | src/client.py:39-44 | CLOSED with count 0, the opening instant kept |
| `Breaker.AfterFailure` | src/client.py:46-53 | the count grows by one; at or above the threshold OPEN stamped `now`, below it state and stamp unchanged |
| `Breaker.AfterForceOpen` | src/client.py:55-59 | OPEN stamped `now`, the count kept |
| `Breaker.FailuresEffect` | src/client.py:46-53 | a run of n consecutive failures adds n to the count; the circuit ends OPEN, stamped with the last failure, exactly when the count reaches the threshold, and otherwise keeps its state and opening instant |
| `Breaker.OpensOnThresholdFailure` | src/client.py:46-53 | from a fresh breaker, after k failures the circuit is OPEN exactly when 1 <= k and k >= fail_max; it opens on the fail_max-th failure and never before |
| `Breaker.TrialFailureReopens` | src/client.py:31-53 | a circuit opened by a failure keeps count >= fail_max through the move to HALF_OPEN, so one failed trial re-opens it, stamped with the trial's instant |
| `Breaker.ForcedTrialFailureStaysHalfOpen` | src/client.py:31-59 | after force_open with a count two or more below the threshold, a failed trial leaves the circuit HALF_OPEN with its old opening instant |
| `Limiter.Refill` | src/client.py:80-83 | the refilled stock never decreases, never exceeds the capacity, never gains more than the elapsed time pays for, and is either the cap or the full refill |
| `Limiter.WaitFor` | src/client.py:87-88 | the wait is positive, and a refill over exactly that wait brings the stock to one token |
| `Limiter.Delay` | src/client.py:84-88 | no sleep exactly when the refilled stock holds a whole token; otherwise a positive sleep after which the refill reaches one token |
| `Limiter.Acquired` | src/client.py:78-92 | a complete acquisition keeps the stock within [0, capacity] and stamps the bucket with the acquisition's start; with at least one token after the refill it takes exactly one, otherwise (after the sleep) it leaves the bucket empty |
| `Limiter.BackToBack` | src/client.py:78-92 | a caller acquiring repeatedly keeps the bucket within its bounds, and at most as many acquisitions are slow as are made |
| `Limiter.BackToBackBudget` | src/client.py:78-92 | n acquisitions back to back cost at most the initial stock, plus the refill credit of the elapsed time, plus one token per slow acquisition |
| `Limiter.TwiceTheFillRate` | src/client.py:78-92 | with capacity 1 and fill rate 1, an empty bucket yields 2k tokens in k seconds (k of them slow), meeting the budget bound with equality |
| `Limiter.RateLimiter.constructor` | src/client.py:71-76 | the bucket starts full: capacity = tokens = max_rate, and fill_rate = max_rate / per_seconds |
| `Limiter.RateLimiter.AcquireFast` | src/client.py:79-88 | refills up to `now` and stamps `last`; with at least one token it takes exactly one and reports no wait; otherwise it takes nothing and reports the positive wait; 0 <= tokens <= capacity is kept |
| `Limiter.RateLimiter.AcquireAfterWait` | src/client.py:91-92 | takes one token after the wait, clamped at zero, so the stock never goes negative |
| `Limiter.RateLimiter.Acquire` | src/client.py:78-92 | a whole `acquire`: the bucket afterwards is `Acquired` (within [0, capacity], stamped with the start, one token taken or the bucket emptied) and the sleep is `Delay` (none when a token was there, else the positive wait for one) |
| `Gate.Semaphore.constructor` | src/client.py:111 | a semaphore with max_concurrency permits, all free |
| `Gate.Semaphore.Acquire` | src/client.py:132 | takes a free permit; never more than the limit are held |
| `Gate.Semaphore.Release` | src/client.py:132 | returns a held permit |
| `Retry.FaultOf` | src/client.py:146-162 | the fault re-raised is the one caught: a server error exactly when the reply was a status (then one >= 500, with its code), a timeout exactly when it timed out, and a transport error exactly when the transport failed |
| `Retry.Succeeds` | src/client.py:146 | only a status can succeed, and a status succeeds exactly when it is below 500 |
| `Retry.MaxCalls` | src/client.py:140-162 | a request makes at most max(1, retry_attempts + 1) transport calls: retry_attempts + 1 for a non-negative count, exactly one for a negative count |
| `Retry.Backoff` | src/client.py:164 | the sleep after the first failed attempt is backoff_factor itself |
| `Retry.BackoffDoubles` | src/client.py:164 | each backoff is twice the one before it: backoff_factor * 2^(attempt-1) |
| `Retry.Attempts` | src/client.py:140-166 | the retry loop from a given attempt makes between that attempt and max(1, retry_attempts + 1) calls, and never reports an open circuit |
| `Retry.Request` | src/client.py:131-166 | `_request` behind the limiter: refused (CircuitOpen) exactly when the breaker does not admit, and then with no call and the breaker unchanged; never more than max(1, retry_attempts + 1) calls |
| `Retry.AttemptsShape` | src/client.py:140-162 | the retry loop stops at the first status below 500 or when the attempts are spent; every earlier reply was a failure; a failed request has made all its calls and reports the fault of its last reply |
| `Retry.AttemptsSleeps` | src/client.py:164-166 | the sleep after failed attempt number a is backoff_factor * 2^(a-1) |
| `Retry.AttemptsReport` | src/client.py:148-162 | each failed attempt calls record_failure once, at its reply's instant, and a success calls record_success once; nothing else touches the breaker |
| `Retry.RequestBounds` | src/client.py:131-166 | refused by the breaker: CircuitOpen with no transport call, no sleep and the breaker unchanged; admitted: between 1 and max(1, retry_attempts + 1) calls, one sleep fewer than calls with the k-th sleep backoff_factor * 2^k; success leaves the breaker CLOSED with count 0; failure adds one to the count per call |
| `Retry.RetriesUntilSuccess` | src/client.py:140-166 | if the first n attempts fail and attempt n + 1 (still allowed) succeeds, the response is that reply, with exactly n + 1 calls and the sleeps bf, 2bf, ..., 2^(n-1) bf |
| `Retry.RetriesExhausted` | src/client.py:154-162 | if every allowed attempt fails, the request makes max(1, retry_attempts + 1) calls, sleeps one time fewer and fails with the last reply's fault |
| `Retry.SleepsIncrease` | src/client.py:164 | with a positive backoff factor the sleeps strictly increase |
| `Retry.TwoFailuresThenSuccess` | src/client.py:140-166 | with two retries, a timeout, then a 503, then a 200 give Ok with exactly 3 transport calls and the sleeps [bf, 2bf], and a closed breaker |
| `Client.DefaultFallback` | src/client.py:114 | the configured fallback when it is truthy, else exactly {"ok": False, "reason": "fallback"} and nothing more; never empty |
| `Client.SuccessPayload` | src/client.py:172 | exactly the keys ok, status_code and text, with ok = True and the response's status code and text |
| `Client.Present` | src/client.py:169-178 | `call`'s result: a success is exactly the three entries ok = True, status_code and text; an error of any kind (open circuit or final failure) is the call's fallback when truthy, else the default; never empty when the default is not |
| `Client.OkFlagReportsSuccess` | src/client.py:169-178 | with no fallback given or configured, the `ok` entry of a call's result is true exactly when the request succeeded, and a success carries its status code and text |
| `Client.Batch` | src/client.py:181-183 | a batch yields exactly one outcome per URL |
| `Client.Throttled` | src/client.py:78-92 | the bucket after one acquisition per call of a batch, in order, stays within [0, capacity] and is stamped with the last call's clock reading |
| `Client.BatchOutcomeAt` | src/client.py:181-183 | the i-th outcome of a batch is the i-th URL's call, made with the breaker as the calls before it left it |
| `Client.BatchInOrder` | src/client.py:181-183 | a batch's outcomes are in the order of its URLs |
| `Client.ThirdFailureOpensCircuit` | src/client.py:131-178 | with fail_max 3 and no retries, four calls made one after another: the three failing ones open the circuit, and the fourth, made before the reset timeout, is refused without a transport call; all four outcomes are the default fallback |
| `Client.ResilientClient.constructor` | src/client.py:96-115 | keeps the retry settings; builds the semaphore, the full bucket and a fresh breaker from the configuration; the default fallback is the given one when truthy, else the built-in one |
| `Client.ResilientClient.Request` | src/client.py:131-166 | the response, the call count, the sleeps and the new breaker fields are those of `Retry.Request`; the rate limiter has made one complete acquisition; the semaphore permit is released on every exit |
| `Client.ResilientClient.Guarded` | src/client.py:135-166 | the breaker check and the retry loop give the response, call count, sleeps and breaker fields of `Retry.Request`; the loop invariant ties each attempt to the rest of the specification's trace |
| `Client.ResilientClient.Call` | src/client.py:169-178 | never fails: a success becomes {ok: True, status_code, text}; any other response becomes the given fallback when truthy, else the client's default; the breaker ends as `Retry.Request` says, the rate limiter has made one `Acquired` step at the call's clock, and the permit is returned |
| `Client.ResilientClient.RunBatch` | src/client.py:181-183 | the outcomes and the breaker afterwards are those of `Client.Batch`: one call per URL, in input order, with no call-specific fallback; the rate limiter's bucket is `Client.Throttled`, one acquisition per call at its clock |
| `Client.ResilientClient.ForceOpenCircuit` | src/client.py:186-187 | the breaker's force_open |
| `Client.ResilientClient.ResetCircuit` | src/client.py:189-190 | the breaker's reset |
| `Client.ResilientClient.CircuitState` | src/client.py:192-193 | reports exactly the breaker's state, failure count and opening instant |

## Left out

- The HTTP transport (`httpx.AsyncClient`) and its lifecycle, `start` and `close` (`src/client.py:118-128`). The transport is a script of replies. The method, the URL, the timeout and the extra keyword arguments are passed only to the transport, so the model keeps only the URL, as a label.
- Exceptions other than a timeout, a transport error or a 5xx status. An example is an `AttributeError` from a client that was never started. Such an exception leaves `_request` without reporting to the breaker, and `call` then returns the fallback. This path is not modelled.
- `Client.ResilientClient.Request`: requires that the script holds at least `max(1, retry_attempts + 1)` replies, because a script stands for a transport that always answers.
- `Client.ResilientClient.Request`: requires a free semaphore permit. The blocking wait for one, and the bound on in-flight requests, need real interleaving, which the model does not have.
- Concurrency: `asyncio.Lock`, the semaphore's waiting, `asyncio.sleep`, `create_task` and `gather`. Each locked section is atomic, and sleeps are returned as durations. `Client.ResilientClient.RunBatch` runs its calls one after another in input order, so the breaker and limiter states that interleaved calls would share are not modelled.
- `Limiter.Acquired`: describes a caller that nobody overtakes during its sleep. Refills by other callers between the two phases are not modelled.
- Clocks: `time.time()` and `time.monotonic()` are the `now`/`clock` parameters. The limiter's methods require the monotonic reading to be no earlier than `last`.
- Floating point: all arithmetic is on exact reals, so IEEE rounding is not modelled.
- `Gate.Semaphore.constructor`: requires a non-negative number of permits. `asyncio.Semaphore` raises `ValueError` for a negative `max_concurrency`, so the client's constructor then fails. That error path is not modelled.
- `Limiter.RateLimiter.constructor`: requires `max_rate >= 1` and `per_seconds > 0`. Otherwise the original divides by zero (`per_seconds == 0`), works with a zero or negative capacity (`max_rate <= 0`), or, for `max_rate >= 1` and a negative `per_seconds`, refills at a negative rate: the refill can then take the stock below zero and the computed wait is negative. None of these buckets is modelled.
- `Client.ResilientClient.constructor`: requires `rate_limit >= 1` and `rate_period > 0`, as the limiter does, and `max_concurrency >= 0`. The original builds a client with the other values. With `rate_period == 0` its constructor raises `ZeroDivisionError`. With `rate_limit == 0` the fill rate is zero, so every `acquire` raises `ZeroDivisionError` when it computes its wait, and every `call` returns the fallback through its `except Exception` branch without consulting the breaker. With a negative `rate_limit` the capacity is negative, so no acquisition ever finds a whole token. Every acquisition then takes the sleep path, and when the fill rate is also negative that sleep is negative and returns at once. With a negative `rate_period` and `rate_limit >= 1` the bucket refills at a negative rate, as described above. None of these configurations is modelled.
- Logging: every `logger` call.
- `src/main.py` (web endpoints, log files, a random URL mix) and `scripts/run_demo.py` (a demo driver) are not part of this model.
