/**
 * The retry orchestration of one request: after the breaker admits it, the
 * transport is invoked at most `retry_attempts + 1` times, every outcome is
 * reported to the breaker, and failed attempts are separated by exponentially
 * growing backoff sleeps.
 *
 * The transport is a script: `replies[k]` is what the (k+1)-th invocation
 * yields, together with the wall-clock instant at which the outcome is
 * reported to the breaker.
 */
module Retry {
  import opened Breaker

  /** What one transport invocation yields. */
  datatype Outcome = Status(code: int, body: string) | Timeout | TransportError

  datatype Reply = Reply(outcome: Outcome, at: real)

  /** The error a request fails with once its attempts are spent. */
  datatype Fault = TimedOut | Unreachable | ServerError(code: int)

  datatype Response = Ok(status: int, body: string) | Err(fault: Fault) | CircuitOpen

  /** The retry settings of the client and the settings of its breaker. */
  datatype Policy = Policy(retryAttempts: int, backoffFactor: real, failMax: int, resetTimeout: real)

  /** Everything one request produces: its response, how many times it invoked the transport, the backoff sleeps, and the breaker afterwards. */
  datatype Trace = Trace(response: Response, calls: nat, sleeps: seq<real>, breaker: Snapshot)

  /** A status below 500 is a success; 5xx, timeouts and transport errors are failures. */
  predicate Succeeds(o: Outcome)
    ensures Succeeds(o) ==> o.Status?
    ensures o.Status? ==> (Succeeds(o) <==> o.code < 500)
  {
    o.Status? && o.code < 500
  }

  function FaultOf(o: Outcome): (f: Fault)
    requires !Succeeds(o)
    ensures f.ServerError? <==> o.Status?
    ensures f.TimedOut? <==> o.Timeout?
    ensures f.Unreachable? <==> o.TransportError?
    ensures f.ServerError? ==> f.code == o.code && f.code >= 500
  {
    match o
    case Status(code, _) => ServerError(code)
    case Timeout => TimedOut
    case TransportError => Unreachable
  }

  /** The most transport invocations one request makes: `retry_attempts + 1`, and at least one. */
  function MaxCalls(retryAttempts: int): (n: nat)
    ensures n >= 1 && n >= retryAttempts + 1
    ensures retryAttempts >= 0 ==> n == retryAttempts + 1
    ensures retryAttempts < 0 ==> n == 1
  {
    if retryAttempts < 0 then 1 else retryAttempts + 1
  }

  function Pow2(k: nat): (r: real)
    ensures r >= 1.0
  {
    if k == 0 then 1.0 else 2.0 * Pow2(k - 1)
  }

  /** The sleep after failed attempt number `attempt` (counted from 1): `backoff_factor * 2**(attempt - 1)`. */
  function Backoff(factor: real, attempt: nat): (r: real)
    requires attempt >= 1
    ensures attempt == 1 ==> r == factor
  {
    factor * Pow2(attempt - 1)
  }

  /** Each backoff is twice the one before it. */
  lemma BackoffDoubles(factor: real, attempt: nat)
    requires attempt > 1
    ensures Backoff(factor, attempt) == 2.0 * Backoff(factor, attempt - 1)
  {
    assert Pow2(attempt - 1) == 2.0 * Pow2(attempt - 2);
  }

  /** The sequence of failure instants of a run of replies. */
  function FailureTimes(replies: seq<Reply>): (times: seq<real>)
    ensures |times| == |replies|
    ensures forall k :: 0 <= k < |replies| ==> times[k] == replies[k].at
  {
    if replies == [] then [] else [replies[0].at] + FailureTimes(replies[1..])
  }

  /** The retry loop from attempt number `attempt` on, with the breaker in state `b`. */
  function Attempts(p: Policy, b: Snapshot, replies: seq<Reply>, attempt: nat): (t: Trace)
    requires 1 <= attempt <= MaxCalls(p.retryAttempts) <= |replies|
    ensures attempt <= t.calls <= MaxCalls(p.retryAttempts)
    ensures !t.response.CircuitOpen?
    decreases MaxCalls(p.retryAttempts) - attempt
  {
    var reply := replies[attempt - 1];
    if Succeeds(reply.outcome) then
      Trace(Ok(reply.outcome.code, reply.outcome.body), attempt, [], AfterSuccess(b))
    else
      var failed := AfterFailure(b, p.failMax, reply.at);
      if attempt > p.retryAttempts then
        Trace(Err(FaultOf(reply.outcome)), attempt, [], failed)
      else
        var rest := Attempts(p, failed, replies, attempt + 1);
        rest.(sleeps := [Backoff(p.backoffFactor, attempt)] + rest.sleeps)
  }

  /** One request: ask the breaker at `now`, then run the retry loop if admitted. */
  function Request(p: Policy, b: Snapshot, now: real, replies: seq<Reply>): (t: Trace)
    requires MaxCalls(p.retryAttempts) <= |replies|
    ensures t.calls <= MaxCalls(p.retryAttempts)
    ensures t.response.CircuitOpen? <==> !Admits(b, p.resetTimeout, now)
    ensures t.response.CircuitOpen? ==> t.calls == 0 && t.breaker == b
  {
    if !Admits(b, p.resetTimeout, now) then Trace(CircuitOpen, 0, [], b)
    else Attempts(p, AfterAllow(b, p.resetTimeout, now), replies, 1)
  }

  /**
   * The shape of the retry loop from attempt `attempt`: it stops at the first
   * success or when the attempts are spent, every earlier reply was a
   * failure, it sleeps once between consecutive attempts, and a failed
   * request reports the fault of its last reply.
   */
  lemma {:induction false} AttemptsShape(p: Policy, b: Snapshot, replies: seq<Reply>, attempt: nat)
    requires 1 <= attempt <= MaxCalls(p.retryAttempts) <= |replies|
    ensures var t := Attempts(p, b, replies, attempt);
      && attempt <= t.calls <= MaxCalls(p.retryAttempts)
      && |t.sleeps| == t.calls - attempt
      && (forall k :: attempt - 1 <= k < t.calls - 1 ==> !Succeeds(replies[k].outcome))
      && !t.response.CircuitOpen?
      && (t.response.Ok? <==> Succeeds(replies[t.calls - 1].outcome))
      && (t.response.Ok? ==> t.response == Ok(replies[t.calls - 1].outcome.code, replies[t.calls - 1].outcome.body))
      && (t.response.Err? ==> t.calls == MaxCalls(p.retryAttempts) && t.response.fault == FaultOf(replies[t.calls - 1].outcome))
    decreases MaxCalls(p.retryAttempts) - attempt
  {
    var reply := replies[attempt - 1];
    if !Succeeds(reply.outcome) && attempt <= p.retryAttempts {
      AttemptsShape(p, AfterFailure(b, p.failMax, reply.at), replies, attempt + 1);
    }
  }

  /** The sleeps of the retry loop from attempt `attempt` are the backoffs of attempts `attempt`, `attempt + 1`, ... */
  lemma {:induction false} AttemptsSleeps(p: Policy, b: Snapshot, replies: seq<Reply>, attempt: nat)
    requires 1 <= attempt <= MaxCalls(p.retryAttempts) <= |replies|
    ensures var t := Attempts(p, b, replies, attempt);
      forall k :: 0 <= k < |t.sleeps| ==> t.sleeps[k] == Backoff(p.backoffFactor, attempt + k)
    decreases MaxCalls(p.retryAttempts) - attempt
  {
    var reply := replies[attempt - 1];
    if !Succeeds(reply.outcome) && attempt <= p.retryAttempts {
      var failed := AfterFailure(b, p.failMax, reply.at);
      AttemptsSleeps(p, failed, replies, attempt + 1);
      var rest := Attempts(p, failed, replies, attempt + 1);
      var t := Attempts(p, b, replies, attempt);
      assert t.sleeps == [Backoff(p.backoffFactor, attempt)] + rest.sleeps;
      // The recursive call's ensures, restated over its own let-bound trace so
      // that its quantifier is available for `rest`.
      assert var tt := Attempts(p, failed, replies, attempt + 1); forall j :: 0 <= j < |tt.sleeps| ==> tt.sleeps[j] == Backoff(p.backoffFactor, (attempt + 1) + j);
      forall k | 0 <= k < |t.sleeps|
        ensures t.sleeps[k] == Backoff(p.backoffFactor, attempt + k)
      {
        if k > 0 {
          assert t.sleeps[k] == rest.sleeps[k - 1];
        }
      }
    }
  }

  /**
   * Every attempt reports to the breaker exactly once: each failed attempt
   * is one `record_failure` at its reply's instant, and a successful last
   * attempt is one `record_success`.
   */
  lemma {:induction false} AttemptsReport(p: Policy, b: Snapshot, replies: seq<Reply>, attempt: nat)
    requires 1 <= attempt <= MaxCalls(p.retryAttempts) <= |replies|
    ensures var t := Attempts(p, b, replies, attempt);
      && attempt <= t.calls <= |replies|
      && (t.response.Ok? ==> t.breaker == AfterSuccess(Failures(b, p.failMax, FailureTimes(replies[attempt - 1..t.calls - 1]))))
      && (!t.response.Ok? ==> t.breaker == Failures(b, p.failMax, FailureTimes(replies[attempt - 1..t.calls])))
    decreases MaxCalls(p.retryAttempts) - attempt
  {
    AttemptsShape(p, b, replies, attempt);
    var t := Attempts(p, b, replies, attempt);
    var reply := replies[attempt - 1];
    if Succeeds(reply.outcome) {
      assert replies[attempt - 1..t.calls - 1] == [];
    } else if attempt > p.retryAttempts {
      assert replies[attempt - 1..t.calls] == [reply];
    } else {
      var failed := AfterFailure(b, p.failMax, reply.at);
      AttemptsReport(p, failed, replies, attempt + 1);
      var upTo := if t.response.Ok? then t.calls - 1 else t.calls;
      assert replies[attempt - 1..upTo][1..] == replies[attempt..upTo];
    }
  }

  lemma {:induction false} Pow2Increasing(i: nat, j: nat)
    requires i < j
    ensures Pow2(i) < Pow2(j)
    decreases j
  {
    if i + 1 < j {
      Pow2Increasing(i, j - 1);
    }
  }

  /**
   * The request as a whole: refused by the breaker, it makes no transport
   * call, sleeps nothing and leaves the breaker as it found it; admitted, it
   * makes between one and `retry_attempts + 1` calls, sleeps
   * `backoff_factor * 2**k` before retry `k + 1`, and leaves the breaker
   * closed with no failures when it succeeds, or with one more failure per
   * call when it fails.
   */
  lemma RequestBounds(p: Policy, b: Snapshot, now: real, replies: seq<Reply>)
    requires MaxCalls(p.retryAttempts) <= |replies|
    ensures var t := Request(p, b, now, replies);
      && (t.response.CircuitOpen? <==> !Admits(b, p.resetTimeout, now))
      && (t.response.CircuitOpen? ==> t.calls == 0 && t.sleeps == [] && t.breaker == b)
      && (!t.response.CircuitOpen? ==>
            && 1 <= t.calls <= MaxCalls(p.retryAttempts)
            && |t.sleeps| == t.calls - 1
            && (forall k :: 0 <= k < |t.sleeps| ==> t.sleeps[k] == p.backoffFactor * Pow2(k)))
      && (t.response.Ok? ==> t.breaker.state == Closed && t.breaker.failCount == 0)
      && (t.response.Err? ==> t.breaker.failCount == b.failCount + t.calls)
  {
    if Admits(b, p.resetTimeout, now) {
      var b1 := AfterAllow(b, p.resetTimeout, now);
      AttemptsShape(p, b1, replies, 1);
      AttemptsSleeps(p, b1, replies, 1);
      AttemptsReport(p, b1, replies, 1);
      var t := Attempts(p, b1, replies, 1);
      FailuresEffect(b1, p.failMax, FailureTimes(replies[0..t.calls]));
    }
  }

  /**
   * When the first `n` attempts fail and attempt `n + 1` is still allowed and
   * succeeds, the request succeeds with that reply after exactly `n + 1`
   * calls and the sleeps `bf, 2bf, ..., 2**(n-1) bf`.
   */
  lemma RetriesUntilSuccess(p: Policy, b: Snapshot, now: real, replies: seq<Reply>, n: nat)
    requires MaxCalls(p.retryAttempts) <= |replies|
    requires Admits(b, p.resetTimeout, now)
    requires n + 1 <= MaxCalls(p.retryAttempts)
    requires forall k :: 0 <= k < n ==> !Succeeds(replies[k].outcome)
    requires Succeeds(replies[n].outcome)
    ensures var t := Request(p, b, now, replies);
      && t.response == Ok(replies[n].outcome.code, replies[n].outcome.body)
      && t.calls == n + 1
      && |t.sleeps| == n
      && (forall k :: 0 <= k < n ==> t.sleeps[k] == p.backoffFactor * Pow2(k))
  {
    RequestBounds(p, b, now, replies);
    AttemptsShape(p, AfterAllow(b, p.resetTimeout, now), replies, 1);
  }

  /**
   * When every allowed attempt fails, the request makes all
   * `retry_attempts + 1` calls, sleeps `retry_attempts` times and fails with
   * the fault of the last reply.
   */
  lemma RetriesExhausted(p: Policy, b: Snapshot, now: real, replies: seq<Reply>)
    requires MaxCalls(p.retryAttempts) <= |replies|
    requires Admits(b, p.resetTimeout, now)
    requires forall k :: 0 <= k < MaxCalls(p.retryAttempts) ==> !Succeeds(replies[k].outcome)
    ensures var t := Request(p, b, now, replies);
      && t.calls == MaxCalls(p.retryAttempts)
      && t.response == Err(FaultOf(replies[t.calls - 1].outcome))
      && |t.sleeps| == MaxCalls(p.retryAttempts) - 1
  {
    RequestBounds(p, b, now, replies);
    AttemptsShape(p, AfterAllow(b, p.resetTimeout, now), replies, 1);
  }

  /** With a positive backoff factor every sleep is strictly longer than the one before. */
  lemma SleepsIncrease(p: Policy, b: Snapshot, now: real, replies: seq<Reply>)
    requires MaxCalls(p.retryAttempts) <= |replies|
    requires p.backoffFactor > 0.0
    ensures var t := Request(p, b, now, replies);
      forall i, j :: 0 <= i < j < |t.sleeps| ==> t.sleeps[i] < t.sleeps[j]
  {
    RequestBounds(p, b, now, replies);
    var t := Request(p, b, now, replies);
    forall i, j | 0 <= i < j < |t.sleeps|
      ensures t.sleeps[i] < t.sleeps[j]
    {
      Pow2Increasing(i, j);
    }
  }

  /**
   * With two retries allowed, a transport that fails twice and then answers
   * is invoked exactly three times, and the request sleeps `bf` and then
   * `2 bf` before succeeding.
   */
  lemma TwoFailuresThenSuccess(bf: real, failMax: int, resetTimeout: real, b: Snapshot, now: real,
                               t1: real, t2: real, t3: real, body: string)
    requires Admits(b, resetTimeout, now)
    ensures var t := Request(Policy(2, bf, failMax, resetTimeout), b, now,
                             [Reply(Timeout, t1), Reply(Status(503, ""), t2), Reply(Status(200, body), t3)]);
      && t.response == Ok(200, body)
      && t.calls == 3
      && t.sleeps == [bf, 2.0 * bf]
      && t.breaker.state == Closed && t.breaker.failCount == 0
  {
    var replies := [Reply(Timeout, t1), Reply(Status(503, ""), t2), Reply(Status(200, body), t3)];
    var p := Policy(2, bf, failMax, resetTimeout);
    var t := Request(p, b, now, replies);
    assert t.response == Ok(replies[2].outcome.code, replies[2].outcome.body) && t.calls == 3 && |t.sleeps| == 2
        && t.sleeps[0] == bf * Pow2(0) && t.sleeps[1] == bf * Pow2(1) by {
      RetriesUntilSuccess(p, b, now, replies, 2);
    }
    assert replies[2].outcome == Status(200, body);
    assert bf * Pow2(0) == bf && bf * Pow2(1) == 2.0 * bf by {
      assert Pow2(0) == 1.0 && Pow2(1) == 2.0;
    }
    assert t.sleeps == [t.sleeps[0], t.sleeps[1]];
    assert t.breaker.state == Closed && t.breaker.failCount == 0 by {
      RequestBounds(p, b, now, replies);
    }
  }

}
