/** Exponential backoff, as the outboxes, the scheduler and the reconciler use it. */
module Backoffs {
  const MINUTE := 60

  function Power2(n: nat): nat {
    if n == 0 then 1 else 2 * Power2(n - 1)
  }

  lemma {:induction false} PowerPositive(n: nat)
    ensures Power2(n) >= 1
  {
    if n > 0 {
      PowerPositive(n - 1);
    }
  }

  /** LEAST(POWER(2, attempts), 60) minutes, with the attempts before the failure. */
  function MinutesBackoff(attempts: nat): nat {
    (if Power2(attempts) < 60 then Power2(attempts) else 60) * MINUTE
  }

  /** The next attempt is one minute to one hour away. */
  lemma MinutesBackoffBounds(attempts: nat)
    ensures MINUTE <= MinutesBackoff(attempts) <= 60 * MINUTE
  {
    PowerPositive(attempts);
  }
}
