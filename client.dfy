/**
 * The resilient client: its configuration, the orchestration of one request
 * through the semaphore, the rate limiter and the circuit breaker, the
 * fallback facade `call`, the batch fan-out and the control helpers.
 *
 * A request is described by a `Script`: the URL it targets, the wall-clock
 * instant at which the breaker is asked, the monotonic clock reading at which
 * the rate limiter is consulted, and the transport's replies in order.
 */
module Client {
  import opened Common
  import opened Breaker
  import opened Limiter
  import opened Gate
  import opened Retry

  /** The values the dictionaries returned by `call` hold. */
  datatype Value = Bool(b: bool) | Int(i: int) | Text(s: string)

  /** A dictionary as `call` returns it. */
  type Payload = map<string, Value>

  datatype Script = Script(url: string, now: real, clock: real, replies: seq<Reply>)

  /** Python truthiness of an optional dictionary: present and not empty. */
  predicate Truthy(d: Option<Payload>)
  {
    d.Some? && |d.value| > 0
  }

  const BUILTIN_FALLBACK: Payload := map["ok" := Bool(false), "reason" := Text("fallback")]

  /**
   * The client's default fallback: the configured dictionary when it is
   * truthy, otherwise `{"ok": False, "reason": "fallback"}`; it is never
   * empty, so a call that falls back to it never returns a falsy value.
   */
  function DefaultFallback(configured: Option<Payload>): (r: Payload)
    ensures |r| > 0
    ensures Truthy(configured) ==> r == configured.value
    ensures !Truthy(configured) ==> r == map["ok" := Bool(false), "reason" := Text("fallback")]
  {
    if Truthy(configured) then configured.value else BUILTIN_FALLBACK
  }

  /** The dictionary `call` returns for a successful request. */
  function SuccessPayload(status: int, body: string): (r: Payload)
    ensures r.Keys == {"ok", "status_code", "text"}
    ensures r["ok"] == Bool(true) && r["status_code"] == Int(status) && r["text"] == Text(body)
  {
    map["ok" := Bool(true), "status_code" := Int(status), "text" := Text(body)]
  }

  /** What `call` makes of a request's response: every error becomes a fallback. */
  function Present(response: Response, fallback: Option<Payload>, default: Payload): (r: Payload)
    ensures response.Ok? ==>
      && |r| == 3
      && "ok" in r && r["ok"] == Bool(true)
      && "status_code" in r && r["status_code"] == Int(response.status)
      && "text" in r && r["text"] == Text(response.body)
    ensures !response.Ok? && Truthy(fallback) ==> r == fallback.value
    ensures !response.Ok? && !Truthy(fallback) ==> r == default
    ensures |default| > 0 ==> |r| > 0
  {
    if response.Ok? then SuccessPayload(response.status, response.body)
    else if Truthy(fallback) then fallback.value
    else default
  }

  /**
   * With no fallback given to the call and none configured, the `ok` entry of
   * what `call` returns says whether the request succeeded; a successful
   * request also reports its status code and body.
   */
  lemma OkFlagReportsSuccess(response: Response)
    ensures var r := Present(response, None, DefaultFallback(None));
      && "ok" in r
      && r["ok"] == Bool(response.Ok?)
      && (response.Ok? ==> r["status_code"] == Int(response.status) && r["text"] == Text(response.body))
  {
  }

  /** Every script gives the transport enough replies for a full run of retries. */
  predicate Answered(retryAttempts: int, scripts: seq<Script>)
  {
    forall i :: 0 <= i < |scripts| ==> MaxCalls(retryAttempts) <= |scripts[i].replies|
  }

  datatype BatchTrace = BatchTrace(outcomes: seq<Payload>, breaker: Snapshot)

  /** The calls of a batch, one after another, each without a call-specific fallback. */
  function Batch(p: Policy, default: Payload, b: Snapshot, scripts: seq<Script>): (r: BatchTrace)
    requires Answered(p.retryAttempts, scripts)
    ensures |r.outcomes| == |scripts|
    decreases |scripts|
  {
    if scripts == [] then BatchTrace([], b)
    else
      var before := Batch(p, default, b, scripts[..|scripts| - 1]);
      var last := scripts[|scripts| - 1];
      var t := Retry.Request(p, before.breaker, last.now, last.replies);
      BatchTrace(before.outcomes + [Present(t.response, None, default)], t.breaker)
  }

  /**
   * The rate limiter's bucket after the calls of a batch, one after another,
   * each making one complete acquisition at its own clock reading. The bucket
   * stays within its bounds and is stamped with the last call's reading.
   */
  function Throttled(capacity: real, fillRate: real, b: Bucket, scripts: seq<Script>): (r: Bucket)
    requires Sound(capacity, fillRate, b)
    requires forall i :: 0 <= i < |scripts| ==> b.last <= scripts[i].clock
    requires forall i, j :: 0 <= i < j < |scripts| ==> scripts[i].clock <= scripts[j].clock
    ensures Sound(capacity, fillRate, r)
    ensures r.last == if scripts == [] then b.last else scripts[|scripts| - 1].clock
    decreases |scripts|
  {
    if scripts == [] then b
    else Acquired(capacity, fillRate, Throttled(capacity, fillRate, b, scripts[..|scripts| - 1]), scripts[|scripts| - 1].clock)
  }

  /** The i-th outcome of a batch, with the batch cut after any later call. */
  lemma {:induction false} BatchOutcomeAt(p: Policy, default: Payload, b: Snapshot, scripts: seq<Script>, i: nat)
    requires Answered(p.retryAttempts, scripts)
    requires i < |scripts|
    ensures var t := Retry.Request(p, Batch(p, default, b, scripts[..i]).breaker, scripts[i].now, scripts[i].replies);
      Batch(p, default, b, scripts).outcomes[i] == Present(t.response, None, default)
    decreases |scripts|
  {
    var n := |scripts| - 1;
    var before := Batch(p, default, b, scripts[..n]);
    var t := Retry.Request(p, before.breaker, scripts[n].now, scripts[n].replies);
    assert Batch(p, default, b, scripts).outcomes == before.outcomes + [Present(t.response, None, default)];
    if i < n {
      BatchOutcomeAt(p, default, b, scripts[..n], i);
      assert scripts[..n][..i] == scripts[..i];
      assert scripts[..n][i] == scripts[i];
    }
  }

  /**
   * A batch keeps the input order: its i-th outcome is what calling the i-th
   * URL yields, with the breaker as the calls before it left it.
   */
  lemma BatchInOrder(p: Policy, default: Payload, b: Snapshot, scripts: seq<Script>)
    requires Answered(p.retryAttempts, scripts)
    ensures forall i :: 0 <= i < |scripts| ==>
      var t := Retry.Request(p, Batch(p, default, b, scripts[..i]).breaker, scripts[i].now, scripts[i].replies);
      Batch(p, default, b, scripts).outcomes[i] == Present(t.response, None, default)
  {
    forall i | 0 <= i < |scripts|
      ensures var t := Retry.Request(p, Batch(p, default, b, scripts[..i]).breaker, scripts[i].now, scripts[i].replies);
        Batch(p, default, b, scripts).outcomes[i] == Present(t.response, None, default)
    {
      BatchOutcomeAt(p, default, b, scripts, i);
    }
  }

  /**
   * With a threshold of three failures and no retries, four calls made one
   * after another: the three failing ones open the circuit, and the fourth,
   * made before the reset timeout has elapsed, is refused without invoking
   * the transport; all four outcomes are the default fallback.
   */
  lemma ThirdFailureOpensCircuit(default: Payload, bf: real, u1: string, u2: string, u3: string, u4: string, body: string)
    ensures var p := Policy(0, bf, 3, 8.0);
      var scripts := [Script(u1, 1.0, 1.0, [Reply(TransportError, 1.0)]),
                      Script(u2, 2.0, 2.0, [Reply(Timeout, 2.0)]),
                      Script(u3, 3.0, 3.0, [Reply(Status(500, body), 3.0)]),
                      Script(u4, 4.0, 4.0, [Reply(Status(200, body), 4.0)])];
      var tripped := Batch(p, default, INITIAL, scripts[..3]).breaker;
      && tripped == Snapshot(Open, 3, Some(3.0))
      && Retry.Request(p, tripped, 4.0, scripts[3].replies) == Trace(CircuitOpen, 0, [], tripped)
      && Batch(p, default, INITIAL, scripts).outcomes == [default, default, default, default]
  {
    var p := Policy(0, bf, 3, 8.0);
    var scripts := [Script(u1, 1.0, 1.0, [Reply(TransportError, 1.0)]),
                    Script(u2, 2.0, 2.0, [Reply(Timeout, 2.0)]),
                    Script(u3, 3.0, 3.0, [Reply(Status(500, body), 3.0)]),
                    Script(u4, 4.0, 4.0, [Reply(Status(200, body), 4.0)])];
    assert scripts[..3][..2] == scripts[..2];
    assert scripts[..2][..1] == scripts[..1];
    assert scripts[..1][..0] == [];
    assert scripts[..4] == scripts;
    assert Batch(p, default, INITIAL, scripts[..1]).breaker == Snapshot(Closed, 1, None);
    assert Batch(p, default, INITIAL, scripts[..2]).breaker == Snapshot(Closed, 2, None);
    assert Batch(p, default, INITIAL, scripts[..3]).breaker == Snapshot(Open, 3, Some(3.0));
  }

  class ResilientClient {
    const timeout: real
    const retryAttempts: int
    const backoffFactor: real
    const semaphore: Semaphore
    const rateLimiter: RateLimiter
    const circuit: CircuitBreaker
    const fallbackResponse: Payload

    ghost predicate Valid()
      reads semaphore, rateLimiter, circuit
    {
      semaphore.Valid() && rateLimiter.Valid() && circuit.Valid()
    }

    /** The retry settings together with those of the breaker. */
    function Settings(): Policy
    {
      Policy(retryAttempts, backoffFactor, circuit.failMax, circuit.resetTimeout)
    }

    constructor (timeout: real, retryAttempts: int, backoffFactor: real, maxConcurrency: int,
                 rateLimit: int, ratePeriod: real, cbFailMax: int, cbResetTimeout: real,
                 fallbackResponse: Option<Payload>, clock: real)
      requires maxConcurrency >= 0 && rateLimit >= 1 && ratePeriod > 0.0
      ensures Valid() && fresh(semaphore) && fresh(rateLimiter) && fresh(circuit)
      ensures this.timeout == timeout && this.retryAttempts == retryAttempts && this.backoffFactor == backoffFactor
      ensures semaphore.permits == maxConcurrency && semaphore.held == 0
      ensures rateLimiter.capacity == rateLimit as real && rateLimiter.tokens == rateLimiter.capacity
      ensures rateLimiter.fillRate == rateLimit as real / ratePeriod && rateLimiter.last == clock
      ensures circuit.failMax == cbFailMax && circuit.resetTimeout == cbResetTimeout && circuit.Fields() == INITIAL
      ensures this.fallbackResponse == DefaultFallback(fallbackResponse)
    {
      this.timeout := timeout;
      this.retryAttempts := retryAttempts;
      this.backoffFactor := backoffFactor;
      semaphore := new Semaphore(maxConcurrency);
      rateLimiter := new RateLimiter(rateLimit, ratePeriod, clock);
      circuit := new CircuitBreaker(cbFailMax, cbResetTimeout);
      this.fallbackResponse := DefaultFallback(fallbackResponse);
    }

    /**
     * One request: hold a permit for its whole duration and give it back on
     * every exit, take a rate-limiter token (sleeping `throttle` first when
     * the bucket is short), then ask the breaker and retry. The response, the
     * number of transport calls, the sleeps and the new breaker fields are
     * those of the request specification.
     */
    method Request(s: Script) returns (response: Response, calls: nat, sleeps: seq<real>, throttle: Option<real>)
      requires Valid()
      requires semaphore.held < semaphore.permits
      requires rateLimiter.last <= s.clock
      requires MaxCalls(retryAttempts) <= |s.replies|
      modifies semaphore, rateLimiter, circuit
      ensures Valid()
      ensures semaphore.held == old(semaphore.held)
      ensures rateLimiter.State() == Acquired(rateLimiter.capacity, rateLimiter.fillRate, old(rateLimiter.State()), s.clock)
      ensures throttle == Delay(rateLimiter.capacity, rateLimiter.fillRate, old(rateLimiter.State()), s.clock)
      ensures var t := Retry.Request(Settings(), old(circuit.Fields()), s.now, s.replies);
        response == t.response && calls == t.calls && sleeps == t.sleeps && circuit.Fields() == t.breaker
    {
      semaphore.Acquire();
      throttle := rateLimiter.Acquire(s.clock);
      response, calls, sleeps := Guarded(s);
      semaphore.Release();
    }

    /**
     * The part of a request behind the rate limiter: ask the breaker, then
     * call the transport until a reply below 500 or until the attempts are
     * spent, reporting every attempt to the breaker and sleeping the
     * exponential backoff between attempts.
     */
    method Guarded(s: Script) returns (response: Response, calls: nat, sleeps: seq<real>)
      requires circuit.Valid()
      requires MaxCalls(retryAttempts) <= |s.replies|
      modifies circuit
      ensures circuit.Valid()
      ensures var t := Retry.Request(Settings(), old(circuit.Fields()), s.now, s.replies);
        response == t.response && calls == t.calls && sleeps == t.sleeps && circuit.Fields() == t.breaker
    {
      var allowed := circuit.AllowRequest(s.now);
      if !allowed {
        return CircuitOpen, 0, [];
      }

      ghost var goal := Retry.Request(Settings(), old(circuit.Fields()), s.now, s.replies);
      var attempt: nat := 0;
      sleeps := [];
      while true
        invariant circuit.Valid()
        invariant attempt < MaxCalls(retryAttempts)
        invariant var t := Attempts(Settings(), circuit.Fields(), s.replies, attempt + 1);
          && goal.response == t.response && goal.calls == t.calls
          && goal.sleeps == sleeps + t.sleeps && goal.breaker == t.breaker
        decreases MaxCalls(retryAttempts) - attempt
      {
        attempt := attempt + 1;
        var reply := s.replies[attempt - 1];
        if Succeeds(reply.outcome) {
          circuit.RecordSuccess();
          return Ok(reply.outcome.code, reply.outcome.body), attempt, sleeps;
        }
        circuit.RecordFailure(reply.at);
        if attempt > retryAttempts {
          return Err(FaultOf(reply.outcome)), attempt, sleeps;
        }
        sleeps := sleeps + [Backoff(backoffFactor, attempt)];
      }
    }

    /**
     * The facade: never fails. A successful request yields
     * `{ok: True, status_code, text}`; any other outcome yields the given
     * fallback when it is truthy, and the client's default otherwise.
     */
    method Call(s: Script, fallback: Option<Payload>) returns (outcome: Payload)
      requires Valid()
      requires semaphore.held < semaphore.permits
      requires rateLimiter.last <= s.clock
      requires MaxCalls(retryAttempts) <= |s.replies|
      modifies semaphore, rateLimiter, circuit
      ensures Valid()
      ensures semaphore.held == old(semaphore.held)
      ensures rateLimiter.State() == Acquired(rateLimiter.capacity, rateLimiter.fillRate, old(rateLimiter.State()), s.clock)
      ensures var t := Retry.Request(Settings(), old(circuit.Fields()), s.now, s.replies);
        outcome == Present(t.response, fallback, fallbackResponse) && circuit.Fields() == t.breaker
    {
      var response, _, _, _ := Request(s);
      match response
      case Ok(status, body) =>
        outcome := SuccessPayload(status, body);
      case _ =>
        outcome := if Truthy(fallback) then fallback.value else fallbackResponse;
    }

    /**
     * One call per URL, with no call-specific fallback, and the outcomes in
     * the order of the input.
     */
    method RunBatch(scripts: seq<Script>) returns (outcomes: seq<Payload>)
      requires Valid()
      requires semaphore.held < semaphore.permits
      requires Answered(retryAttempts, scripts)
      requires forall i :: 0 <= i < |scripts| ==> rateLimiter.last <= scripts[i].clock
      requires forall i, j :: 0 <= i < j < |scripts| ==> scripts[i].clock <= scripts[j].clock
      modifies semaphore, rateLimiter, circuit
      ensures Valid()
      ensures semaphore.held == old(semaphore.held)
      ensures var r := Batch(Settings(), fallbackResponse, old(circuit.Fields()), scripts);
        outcomes == r.outcomes && circuit.Fields() == r.breaker
      ensures rateLimiter.State() == Throttled(rateLimiter.capacity, rateLimiter.fillRate, old(rateLimiter.State()), scripts)
    {
      outcomes := [];
      for i := 0 to |scripts|
        invariant Valid()
        invariant semaphore.held == old(semaphore.held)
        invariant forall j :: i <= j < |scripts| ==> rateLimiter.last <= scripts[j].clock
        invariant var r := Batch(Settings(), fallbackResponse, old(circuit.Fields()), scripts[..i]);
          outcomes == r.outcomes && circuit.Fields() == r.breaker
        invariant rateLimiter.State() == Throttled(rateLimiter.capacity, rateLimiter.fillRate, old(rateLimiter.State()), scripts[..i])
      {
        assert scripts[..i + 1][..i] == scripts[..i];
        var outcome := Call(scripts[i], None);
        outcomes := outcomes + [outcome];
      }
      assert scripts[..|scripts|] == scripts;
    }

    /** `force_open_circuit`: the breaker's `force_open` at `now`. */
    method ForceOpenCircuit(now: real)
      requires Valid()
      modifies circuit
      ensures Valid()
      ensures circuit.Fields() == AfterForceOpen(old(circuit.Fields()), now)
    {
      circuit.ForceOpen(now);
    }

    /** `reset_circuit`: the breaker's `reset`. */
    method ResetCircuit()
      requires Valid()
      modifies circuit
      ensures Valid()
      ensures circuit.Fields() == INITIAL
    {
      circuit.Reset();
    }

    /** `circuit_state`: exactly the breaker's state, failure count and opening instant. */
    function CircuitState(): (r: Snapshot)
      reads circuit
      ensures r.state == circuit.state && r.failCount == circuit.failCount && r.openedAt == circuit.openedAt
    {
      circuit.Fields()
    }
  }
}
