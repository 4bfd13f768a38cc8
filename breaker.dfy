/**
 * The circuit breaker of the resilient client: a three-state machine
 * (CLOSED, OPEN, HALF_OPEN) driven by failure and success reports.
 *
 * Each method of `CircuitBreaker` is one locked critical section of the
 * original and is therefore atomic here; the wall-clock reading the original
 * takes inside the section is the parameter `now`.
 */
module Breaker {
  import opened Common

  datatype State = Closed | Open | HalfOpen

  /** The three mutable fields of the breaker, as the client's `circuit_state` reports them. */
  datatype Snapshot = Snapshot(state: State, failCount: nat, openedAt: Option<real>)

  /** A fresh breaker, and the result of `reset`. */
  const INITIAL: Snapshot := Snapshot(Closed, 0, None)

  /** The instant an open circuit is timed from: `opened_at`, or 0 when it is unset. */
  function OpenedSince(s: Snapshot): (t: real)
    ensures s.openedAt == Some(t) || (s.openedAt == None && t == 0.0)
  {
    if s.openedAt.Some? then s.openedAt.value else 0.0
  }

  /** The answer `allow_request` gives at time `now`. */
  predicate Admits(s: Snapshot, resetTimeout: real, now: real)
    ensures s.state != Open ==> Admits(s, resetTimeout, now)
    ensures s.state == Open && s.openedAt.Some? ==>
      (Admits(s, resetTimeout, now) <==> now >= s.openedAt.value + resetTimeout)
  {
    s.state != Open || now - OpenedSince(s) >= resetTimeout
  }

  /** The fields after `allow_request` at time `now`. */
  function AfterAllow(s: Snapshot, resetTimeout: real, now: real): (r: Snapshot)
    ensures r.failCount == s.failCount && r.openedAt == s.openedAt
    ensures r.state != s.state <==> s.state == Open && Admits(s, resetTimeout, now)
    ensures r.state != s.state ==> r.state == HalfOpen
  {
    if s.state == Open && now - OpenedSince(s) >= resetTimeout then s.(state := HalfOpen) else s
  }

  /** The fields after `record_success`: the opening instant is kept. */
  function AfterSuccess(s: Snapshot): (r: Snapshot)
    ensures r.state == Closed && r.failCount == 0 && r.openedAt == s.openedAt
  {
    s.(state := Closed, failCount := 0)
  }

  /** The fields after `record_failure` at time `now`. */
  function AfterFailure(s: Snapshot, failMax: int, now: real): (r: Snapshot)
    ensures r.failCount == s.failCount + 1
    ensures r.failCount >= failMax ==> r.state == Open && r.openedAt == Some(now)
    ensures r.failCount < failMax ==> r.state == s.state && r.openedAt == s.openedAt
  {
    var n := s.failCount + 1;
    if n >= failMax then Snapshot(Open, n, Some(now)) else s.(failCount := n)
  }

  /** The fields after `force_open` at time `now`: the failure count is kept. */
  function AfterForceOpen(s: Snapshot, now: real): (r: Snapshot)
    ensures r.state == Open && r.openedAt == Some(now) && r.failCount == s.failCount
  {
    s.(state := Open, openedAt := Some(now))
  }

  /**
   * What every reachable breaker satisfies: a closed circuit has not yet
   * reached its threshold (or its failure count is zero, when the threshold
   * is not positive: a fresh breaker, or one just after a success or a reset), and a circuit that is not closed carries the instant it
   * was opened, so `opened_at or 0` never falls back to 0 while it is open.
   */
  predicate Consistent(s: Snapshot, failMax: int)
  {
    && (s.state == Closed ==> s.failCount == 0 || s.failCount < failMax)
    && (s.state != Closed ==> s.openedAt.Some?)
  }

  /** The fields after consecutive `record_failure` calls at the given instants. */
  function Failures(s: Snapshot, failMax: int, times: seq<real>): Snapshot
    decreases |times|
  {
    if times == [] then s else Failures(AfterFailure(s, failMax, times[0]), failMax, times[1..])
  }

  /**
   * A run of consecutive failures adds exactly one to the count per failure;
   * the circuit ends up open, stamped with the last failure's instant, exactly
   * when the count reaches the threshold, and otherwise keeps its state and
   * its opening instant.
   */
  lemma {:induction false} FailuresEffect(s: Snapshot, failMax: int, times: seq<real>)
    ensures var r := Failures(s, failMax, times);
      && r.failCount == s.failCount + |times|
      && (times == [] ==> r == s)
      && (times != [] && s.failCount + |times| >= failMax ==>
            r.state == Open && r.openedAt == Some(times[|times| - 1]))
      && (s.failCount + |times| < failMax ==> r.state == s.state && r.openedAt == s.openedAt)
    decreases |times|
  {
    if times != [] {
      FailuresEffect(AfterFailure(s, failMax, times[0]), failMax, times[1..]);
      if |times| > 1 {
        assert times[1..][|times| - 2] == times[|times| - 1];
      }
    }
  }

  /**
   * Starting from a fresh breaker, the circuit is open after k consecutive
   * failures exactly when k has reached the threshold (and k is at least one):
   * it opens on the `failMax`-th failure and never before.
   */
  lemma OpensOnThresholdFailure(failMax: int, times: seq<real>)
    ensures forall k :: 0 <= k <= |times| ==>
      var r := Failures(INITIAL, failMax, times[..k]);
      && r.failCount == k
      && (r.state == Open <==> 1 <= k && failMax <= k)
      && (r.state != Open ==> r.state == Closed && r.openedAt == None)
  {
    forall k | 0 <= k <= |times|
      ensures var r := Failures(INITIAL, failMax, times[..k]);
        && r.failCount == k
        && (r.state == Open <==> 1 <= k && failMax <= k)
        && (r.state != Open ==> r.state == Closed && r.openedAt == None)
    {
      FailuresEffect(INITIAL, failMax, times[..k]);
    }
  }

  /**
   * A circuit opened by a failure keeps its count at or above the threshold
   * through the move to HALF_OPEN, so the first failed trial re-opens it.
   */
  lemma TrialFailureReopens(s: Snapshot, failMax: int, resetTimeout: real, t0: real, t1: real, t2: real)
    requires s.state != Open
    requires AfterFailure(s, failMax, t0).state == Open
    requires t1 - t0 >= resetTimeout
    ensures var tripped := AfterFailure(s, failMax, t0);
      var trial := AfterAllow(tripped, resetTimeout, t1);
      && Admits(tripped, resetTimeout, t1)
      && trial.state == HalfOpen
      && trial.failCount >= failMax
      && AfterFailure(trial, failMax, t2) == Snapshot(Open, trial.failCount + 1, Some(t2))
  {
  }

  /**
   * A circuit forced open with a count two or more below the threshold does
   * not re-open on a failed trial: the failure only raises the count and the
   * circuit stays HALF_OPEN. (One below, the trial's failure reaches the
   * threshold and the circuit re-opens, as `TrialFailureReopens` describes.)
   */
  lemma ForcedTrialFailureStaysHalfOpen(s: Snapshot, failMax: int, resetTimeout: real, t0: real, t1: real, t2: real)
    requires s.failCount + 1 < failMax
    requires t1 - t0 >= resetTimeout
    ensures var trial := AfterAllow(AfterForceOpen(s, t0), resetTimeout, t1);
      && trial.state == HalfOpen
      && AfterFailure(trial, failMax, t2) == Snapshot(HalfOpen, s.failCount + 1, Some(t0))
  {
  }

  class CircuitBreaker {
    const failMax: int
    const resetTimeout: real
    var failCount: nat
    var state: State
    var openedAt: Option<real>

    function Fields(): Snapshot
      reads this
    {
      Snapshot(state, failCount, openedAt)
    }

    ghost predicate Valid()
      reads this
    {
      Consistent(Fields(), failMax)
    }

    constructor (failMax: int, resetTimeout: real)
      ensures Valid()
      ensures this.failMax == failMax && this.resetTimeout == resetTimeout
      ensures Fields() == INITIAL
    {
      this.failMax := failMax;
      this.resetTimeout := resetTimeout;
      failCount := 0;
      state := Closed;
      openedAt := None;
    }

    /**
     * Open and still within the reset timeout: refuse and change nothing.
     * Open and past it: move to HALF_OPEN and admit one trial.
     * Closed or half-open: admit and change nothing.
     */
    method AllowRequest(now: real) returns (allowed: bool)
      requires Valid()
      modifies this
      ensures Valid()
      ensures allowed == Admits(old(Fields()), resetTimeout, now)
      ensures Fields() == AfterAllow(old(Fields()), resetTimeout, now)
    {
      if state == Open {
        var since := if openedAt.Some? then openedAt.value else 0.0;
        if now - since >= resetTimeout {
          state := HalfOpen;
          return true;
        }
        return false;
      }
      return true;
    }

    /** From any state: count back to zero and CLOSED; `openedAt` untouched. */
    method RecordSuccess()
      requires Valid()
      modifies this
      ensures Valid()
      ensures Fields() == AfterSuccess(old(Fields()))
    {
      failCount := 0;
      state := Closed;
    }

    /**
     * One more failure; the circuit opens, stamped `now`, exactly when the
     * new count reaches the threshold, and is otherwise left as it was.
     */
    method RecordFailure(now: real)
      requires Valid()
      modifies this
      ensures Valid()
      ensures Fields() == AfterFailure(old(Fields()), failMax, now)
      ensures failCount == old(failCount) + 1
      ensures state == Open <==> failCount >= failMax || old(state) == Open
    {
      failCount := failCount + 1;
      if failCount >= failMax {
        state := Open;
        openedAt := Some(now);
      }
    }

    /** OPEN, stamped `now`, whatever the count. */
    method ForceOpen(now: real)
      requires Valid()
      modifies this
      ensures Valid()
      ensures Fields() == AfterForceOpen(old(Fields()), now)
    {
      state := Open;
      openedAt := Some(now);
    }

    /** Back to the state of a fresh breaker. */
    method Reset()
      requires Valid()
      modifies this
      ensures Valid()
      ensures Fields() == INITIAL
    {
      state := Closed;
      failCount := 0;
      openedAt := None;
    }
  }
}
