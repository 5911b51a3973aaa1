/** The retry policy of one WriteBatch call: an exponential backoff capped at a
    maximum number of retries (backoff.WithMaxRetries). Only the count of retries
    is modelled; the delays between them are not. */
module Backoff {

  class RetryBudget {
    /** How many retries the policy allows before it answers Stop. */
    const maxRetries: nat
    /** How many retries it has granted so far. */
    var tries: nat

    ghost predicate Valid()
      reads this
    {
      tries <= maxRetries
    }

    /** The retries still available. */
    function Remaining(): (n: nat)
      reads this
      requires Valid()
      ensures n + tries == maxRetries
    {
      maxRetries - tries
    }

    /** A fresh policy, as the writer's backoff constructor makes one per call. */
    constructor (maxRetries: nat)
      ensures Valid()
      ensures this.maxRetries == maxRetries && tries == 0
    {
      this.maxRetries := maxRetries;
      tries := 0;
    }

    /** Asked after every imperfect attempt: answers Stop once all retries are
        used, and otherwise grants one more retry. */
    method NextBackOff() returns (stop: bool)
      requires Valid()
      modifies this
      ensures Valid()
      ensures stop <==> old(Remaining()) == 0
      ensures Remaining() == if stop then 0 else old(Remaining()) - 1
    {
      if tries >= maxRetries {
        stop := true;
      } else {
        tries := tries + 1;
        stop := false;
      }
    }
  }
}
