/**
 * The concurrency gate of the resilient client: the semaphore that bounds
 * how many requests are in flight. Only its permit count is modelled; the
 * blocking wait of `acquire` becomes the precondition that a permit is free.
 */
module Gate {

  class Semaphore {
    const permits: int
    var held: nat

    ghost predicate Valid()
      reads this
    {
      held <= permits
    }

    /** A semaphore with all of its (non-negative number of) permits free. */
    constructor (permits: int)
      requires permits >= 0
      ensures Valid() && this.permits == permits && held == 0
    {
      this.permits := permits;
      held := 0;
    }

    /** Take a free permit; never more than `permits` are held. */
    method Acquire()
      requires Valid() && held < permits
      modifies this
      ensures Valid() && held == old(held) + 1
    {
      held := held + 1;
    }

    /** Give back a permit that was taken. */
    method Release()
      requires Valid() && held > 0
      modifies this
      ensures Valid() && held == old(held) - 1
    {
      held := held - 1;
    }
  }
}
