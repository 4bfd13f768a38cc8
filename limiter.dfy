/**
 * The token-bucket rate limiter of the resilient client, with lazy refill.
 *
 * `acquire` runs in two locked phases with a sleep between them; here they are
 * the methods `AcquireFast` (refill, then take a token or report how long to
 * wait) and `AcquireAfterWait` (take a token after the wait, never going below
 * zero). The monotonic clock reading of the first phase is the parameter `now`.
 */
module Limiter {
  import opened Common

  /**
   * Lazy refill: the stock grows in proportion to the elapsed time and is
   * capped at the capacity; it never decreases and never gains more than the
   * elapsed time pays for.
   */
  function Refill(capacity: real, fillRate: real, tokens: real, elapsed: real): (r: real)
    requires 0.0 <= tokens <= capacity && 0.0 <= elapsed && 0.0 < fillRate
    ensures tokens <= r <= capacity
    ensures r <= tokens + elapsed * fillRate
    ensures r == capacity || r == tokens + elapsed * fillRate
  {
    Min(capacity, tokens + elapsed * fillRate)
  }

  /**
   * How long a caller short of a token sleeps: a positive time after which
   * the refill would have brought the stock to exactly one token.
   */
  function WaitFor(fillRate: real, tokens: real): (w: real)
    requires 0.0 < fillRate && tokens < 1.0
    ensures w > 0.0
    ensures tokens + w * fillRate == 1.0
  {
    (1.0 - tokens) / fillRate
  }

  /** The accounting fields of the bucket. */
  datatype Bucket = Bucket(tokens: real, last: real)

  predicate Sound(capacity: real, fillRate: real, b: Bucket)
  {
    0.0 < fillRate && 0.0 <= b.tokens <= capacity
  }

  /** The stock seen by an acquisition at `now`, after the refill. */
  function Available(capacity: real, fillRate: real, b: Bucket, now: real): real
    requires Sound(capacity, fillRate, b) && b.last <= now
  {
    Refill(capacity, fillRate, b.tokens, now - b.last)
  }

  /** The sleep a complete `acquire` started at `now` performs, if any. */
  function Delay(capacity: real, fillRate: real, b: Bucket, now: real): (d: Option<real>)
    requires Sound(capacity, fillRate, b) && b.last <= now
    ensures d.None? <==> Available(capacity, fillRate, b, now) >= 1.0
    ensures d.Some? ==> d.value > 0.0 && Available(capacity, fillRate, b, now) + d.value * fillRate == 1.0
  {
    var r := Available(capacity, fillRate, b, now);
    if r >= 1.0 then None else Some(WaitFor(fillRate, r))
  }

  /**
   * The bucket after a complete `acquire` started at `now` by a caller that
   * nobody overtakes during its sleep: both phases, in order. It stays within
   * its bounds, and is stamped with the start of the acquisition, not its end.
   */
  function Acquired(capacity: real, fillRate: real, b: Bucket, now: real): (r: Bucket)
    requires Sound(capacity, fillRate, b) && b.last <= now
    ensures Sound(capacity, fillRate, r) && r.last == now
    ensures Available(capacity, fillRate, b, now) >= 1.0 ==> r.tokens == Available(capacity, fillRate, b, now) - 1.0
    ensures Available(capacity, fillRate, b, now) < 1.0 ==> r.tokens == 0.0
  {
    var a := Available(capacity, fillRate, b, now);
    Bucket(if a >= 1.0 then a - 1.0 else Max(0.0, a - 1.0), now)
  }

  /** What a caller that acquires `n` tokens back to back observes. */
  datatype Run = Run(bucket: Bucket, end: real, slow: nat)

  /**
   * One caller acquires `n` tokens in a row, starting at `now`: each
   * acquisition begins when the previous one has returned, after its sleep.
   */
  function BackToBack(capacity: real, fillRate: real, b: Bucket, now: real, n: nat): (r: Run)
    requires Sound(capacity, fillRate, b) && b.last <= now
    ensures Sound(capacity, fillRate, r.bucket) && r.bucket.last <= r.end
    ensures r.slow <= n
    decreases n
  {
    if n == 0 then Run(b, now, 0)
    else
      var d := Delay(capacity, fillRate, b, now);
      var next := if d.Some? then now + d.value else now;
      var rest := BackToBack(capacity, fillRate, Acquired(capacity, fillRate, b, now), next, n - 1);
      rest.(slow := rest.slow + if d.Some? then 1 else 0)
  }

  /** The tokens the refill accrues between two instants. */
  function Credit(fillRate: real, from: real, to: real): real
  {
    (to - from) * fillRate
  }

  lemma CreditSplits(fillRate: real, t0: real, t1: real, t2: real)
    ensures Credit(fillRate, t0, t2) == Credit(fillRate, t0, t1) + Credit(fillRate, t1, t2)
  {
  }

  /**
   * The budget a back-to-back caller can draw on: the initial stock, what the
   * elapsed time refills, and one extra token per acquisition that had to
   * sleep. The second phase takes its token without charging the sleep, and
   * the next refill counts that sleep again, so each slow acquisition is one
   * token the refill never paid for.
   */
  lemma {:induction false} BackToBackBudget(capacity: real, fillRate: real, b: Bucket, now: real, n: nat)
    requires Sound(capacity, fillRate, b) && b.last <= now
    ensures var r := BackToBack(capacity, fillRate, b, now, n);
      n as real + r.bucket.tokens <= b.tokens + Credit(fillRate, b.last, r.bucket.last) + r.slow as real
    decreases n
  {
    if n > 0 {
      var b1 := Acquired(capacity, fillRate, b, now);
      var d := Delay(capacity, fillRate, b, now);
      var next := if d.Some? then now + d.value else now;
      var rest := BackToBack(capacity, fillRate, b1, next, n - 1);
      BackToBackBudget(capacity, fillRate, b1, next, n - 1);
      AcquireCharge(capacity, fillRate, b, now);
      CreditSplits(fillRate, b.last, b1.last, rest.bucket.last);
      BudgetStep(n as real, rest.bucket.tokens, b1.tokens, Credit(fillRate, b1.last, rest.bucket.last),
        rest.slow as real, b.tokens, Credit(fillRate, b.last, b1.last), if d.Some? then 1.0 else 0.0);
    }
  }

  /**
   * One acquisition against the refill budget: a fast one leaves a token
   * less than the refill paid for, a slow one leaves the bucket empty.
   */
  lemma AcquireCharge(capacity: real, fillRate: real, b: Bucket, now: real)
    requires Sound(capacity, fillRate, b) && b.last <= now
    ensures var r := Acquired(capacity, fillRate, b, now);
      && r.last == now
      && 0.0 <= Credit(fillRate, b.last, r.last)
      && (Delay(capacity, fillRate, b, now).None? ==> r.tokens + 1.0 <= b.tokens + Credit(fillRate, b.last, r.last))
      && (Delay(capacity, fillRate, b, now).Some? ==> r.tokens == 0.0)
  {
    NonNegativeProduct(now - b.last, fillRate);
  }

  lemma NonNegativeProduct(x: real, y: real)
    requires 0.0 <= x && 0.0 <= y
    ensures 0.0 <= x * y
  {
  }

  /** The arithmetic of one step of `BackToBackBudget`, with the credits named. */
  lemma BudgetStep(n: real, tokensEnd: real, tokensNext: real, later: real, slowRest: real,
                   tokens: real, refilled: real, extra: real)
    requires (n - 1.0) + tokensEnd <= tokensNext + later + slowRest
    requires 0.0 <= tokens && 0.0 <= refilled
    requires extra == 0.0 ==> tokensNext + 1.0 <= tokens + refilled
    requires extra != 0.0 ==> tokensNext == 0.0 && extra == 1.0
    ensures n + tokensEnd <= tokens + (refilled + later) + (slowRest + extra)
  {
  }

  /**
   * With one token of capacity refilled at one token per second, an empty
   * bucket makes a back-to-back caller alternate: it sleeps one second for a
   * token, and the refill then pays for that same second again.
   */
  lemma AlternatingSteps(t: real)
    ensures Delay(1.0, 1.0, Bucket(0.0, t), t) == Some(1.0)
    ensures Acquired(1.0, 1.0, Bucket(0.0, t), t) == Bucket(0.0, t)
    ensures Delay(1.0, 1.0, Bucket(0.0, t), t + 1.0) == None
    ensures Acquired(1.0, 1.0, Bucket(0.0, t), t + 1.0) == Bucket(0.0, t + 1.0)
  {
  }

  /**
   * The code lets such a caller through at twice the fill rate: it receives
   * `2k` tokens in `k` seconds from an empty bucket, one of them slow per
   * second, which meets the bound of `BackToBackBudget` with equality.
   */
  lemma {:induction false} TwiceTheFillRate(t: real, k: nat)
    ensures var r := BackToBack(1.0, 1.0, Bucket(0.0, t), t, 2 * k);
      && r == Run(Bucket(0.0, t + k as real), t + k as real, k)
      && (2 * k) as real == 0.0 + Credit(1.0, t, r.end) + r.slow as real
    decreases k
  {
    if k > 0 {
      var m := 2 * (k - 1);
      TwiceTheFillRate(t + 1.0, k - 1);
      AlternatingPair(t, m);
      var rest := BackToBack(1.0, 1.0, Bucket(0.0, t + 1.0), t + 1.0, m);
      assert rest == Run(Bucket(0.0, t + k as real), t + k as real, k - 1);
      assert BackToBack(1.0, 1.0, Bucket(0.0, t), t, 2 * k) == rest.(slow := k) by {
        assert m + 2 == 2 * k;
      }
      assert Credit(1.0, t, t + k as real) == k as real;
    }
  }

  /** Two acquisitions of the alternation: one slow, one fast, one second later. */
  lemma AlternatingPair(t: real, m: nat)
    ensures var r := BackToBack(1.0, 1.0, Bucket(0.0, t + 1.0), t + 1.0, m);
      BackToBack(1.0, 1.0, Bucket(0.0, t), t, m + 2) == r.(slow := r.slow + 1)
  {
    AlternatingSteps(t);
    var b := Bucket(0.0, t);
    assert BackToBack(1.0, 1.0, b, t + 1.0, m + 1)
        == BackToBack(1.0, 1.0, Bucket(0.0, t + 1.0), t + 1.0, m);
  }

  class RateLimiter {
    const capacity: real
    const fillRate: real
    var tokens: real
    var last: real

    function State(): Bucket
      reads this
    {
      Bucket(tokens, last)
    }

    /** The stock stays between zero and the capacity. */
    ghost predicate Valid()
      reads this
    {
      Sound(capacity, fillRate, State())
    }

    /** A full bucket of `maxRate` tokens refilling at `maxRate / perSeconds` per second. */
    constructor (maxRate: int, perSeconds: real, now: real)
      requires maxRate >= 1 && perSeconds > 0.0
      ensures Valid()
      ensures capacity == maxRate as real && tokens == capacity
      ensures fillRate == maxRate as real / perSeconds && last == now
    {
      capacity := maxRate as real;
      tokens := maxRate as real;
      fillRate := maxRate as real / perSeconds;
      last := now;
    }

    /**
     * First locked phase: refill up to `now`; with a whole token available,
     * take exactly one and report no wait; otherwise take nothing and report
     * the positive time to sleep.
     */
    method AcquireFast(now: real) returns (wait: Option<real>)
      requires Valid() && last <= now
      modifies this
      ensures Valid() && last == now
      ensures var a := Available(capacity, fillRate, old(State()), now);
        if a >= 1.0 then wait == None && tokens == a - 1.0
        else wait == Some(WaitFor(fillRate, a)) && tokens == a
    {
      var elapsed := now - last;
      tokens := Min(capacity, tokens + elapsed * fillRate);
      last := now;
      if tokens >= 1.0 {
        tokens := tokens - 1.0;
        return None;
      }
      var needed := 1.0 - tokens;
      return Some(needed / fillRate);
    }

    /** Second locked phase, after the sleep: take one token, clamped at zero. */
    method AcquireAfterWait()
      requires Valid()
      modifies this
      ensures Valid() && last == old(last)
      ensures tokens == Max(0.0, old(tokens) - 1.0)
    {
      tokens := Max(0.0, tokens - 1.0);
    }

    /**
     * `acquire`: the first locked phase, then, when the bucket was short,
     * the sleep (returned as `wait`) and the second locked phase. Nobody
     * overtakes the caller between the two phases.
     */
    method Acquire(now: real) returns (wait: Option<real>)
      requires Valid() && last <= now
      modifies this
      ensures Valid()
      ensures State() == Acquired(capacity, fillRate, old(State()), now)
      ensures wait == Delay(capacity, fillRate, old(State()), now)
    {
      wait := AcquireFast(now);
      if wait.Some? {
        AcquireAfterWait();
      }
    }
  }
}
