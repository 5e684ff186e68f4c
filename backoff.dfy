/**
 * The reconnect policy of WebSocketTransport: RetryStrategy and the interval it reports.
 * Kotlin computes `minTimeout * factor^retryCount` in double precision; for the integer
 * results in play that is exact, so the model uses integer exponentiation.
 */
module Backoff {

  /** The parameters the transport instantiates its strategy with. */
  const Retries := 10
  const Factor := 2
  const MinTimeout := 1000
  const MaxTimeout := 8000

  function Pow(base: int, exp: nat): int
  {
    if exp == 0 then 1 else base * Pow(base, exp - 1)
  }

  function Min(a: int, b: int): int
  {
    if a <= b then a else b
  }

  /** RetryStrategy.reconnectInterval: -1 means "give up". */
  function Interval(retries: int, factor: int, minTimeout: int, maxTimeout: int, retryCount: nat): int
  {
    if retryCount > retries then -1
    else Min(minTimeout * Pow(factor, retryCount), maxTimeout)
  }

  /** The interval of the strategy the transport builds. */
  function DefaultInterval(retryCount: nat): int
  {
    Interval(Retries, Factor, MinTimeout, MaxTimeout, retryCount)
  }

  lemma {:induction false} PowMonotone(base: int, e1: nat, e2: nat)
    requires base >= 1 && e1 <= e2
    ensures 1 <= Pow(base, e1) <= Pow(base, e2)
  {
    if e2 > e1 {
      PowMonotone(base, e1, e2 - 1);
      assert Pow(base, e2) == base * Pow(base, e2 - 1);
      assert base * Pow(base, e2 - 1) >= Pow(base, e2 - 1);
    } else if e1 > 0 {
      PowMonotone(base, e1 - 1, e1 - 1);
      assert Pow(base, e1) == base * Pow(base, e1 - 1);
      assert base * Pow(base, e1 - 1) >= Pow(base, e1 - 1);
    }
  }

  /**
   * The interval is -1 exactly when the retry count exceeds the retry budget; otherwise it is
   * the capped exponential and lies between the two timeouts.
   */
  lemma IntervalBounds(retries: int, factor: int, minTimeout: int, maxTimeout: int, retryCount: nat)
    requires factor >= 1 && 0 <= minTimeout <= maxTimeout
    ensures (Interval(retries, factor, minTimeout, maxTimeout, retryCount) == -1) <==> retryCount > retries
    ensures retryCount <= retries ==>
      && minTimeout <= Interval(retries, factor, minTimeout, maxTimeout, retryCount) <= maxTimeout
      && Interval(retries, factor, minTimeout, maxTimeout, retryCount)
         == Min(minTimeout * Pow(factor, retryCount), maxTimeout)
  {
    PowMonotone(factor, 0, retryCount);
    assert minTimeout * Pow(factor, retryCount) >= minTimeout * 1;
  }

  /** The default strategy: 1000 ms at count 0, 2000, 4000, then 8000 up to count 10, then give up. */
  lemma DefaultSchedule(retryCount: nat)
    ensures retryCount == 0 ==> DefaultInterval(retryCount) == 1000
    ensures retryCount == 1 ==> DefaultInterval(retryCount) == 2000
    ensures retryCount == 2 ==> DefaultInterval(retryCount) == 4000
    ensures 3 <= retryCount <= 10 ==> DefaultInterval(retryCount) == 8000
    ensures retryCount > 10 ==> DefaultInterval(retryCount) == -1
  {
    if 3 <= retryCount <= 10 {
      PowMonotone(Factor, 3, retryCount);
      assert Pow(Factor, 3) == 8;
    }
  }

  /**
   * Starting from the initial count 1, a failure after k reconnect jobs gives up exactly when
   * k >= 10; after a reset to 0 it gives up exactly when k >= 11.
   */
  lemma GivesUpAfterRetries(k: nat)
    ensures DefaultInterval(1 + k) == -1 <==> k >= 10
    ensures DefaultInterval(0 + k) == -1 <==> k >= 11
  {
    IntervalBounds(Retries, Factor, MinTimeout, MaxTimeout, 1 + k);
    IntervalBounds(Retries, Factor, MinTimeout, MaxTimeout, k);
  }

  /** RetryStrategy: fixed parameters and a mutable retry count that starts at 1. */
  class RetryStrategy {
    const retries: int
    const factor: int
    const minTimeout: int
    const maxTimeout: int
    var retryCount: nat

    constructor (retries: int, factor: int, minTimeout: int, maxTimeout: int)
      ensures this.retries == retries && this.factor == factor
      ensures this.minTimeout == minTimeout && this.maxTimeout == maxTimeout
      ensures retryCount == 1
    {
      this.retries := retries;
      this.factor := factor;
      this.minTimeout := minTimeout;
      this.maxTimeout := maxTimeout;
      retryCount := 1;
    }

    /** retried(): called when a reconnect job runs. */
    method Retried()
      modifies this
      ensures retryCount == old(retryCount) + 1
    {
      retryCount := retryCount + 1;
    }

    function ReconnectInterval(): int
      reads this
    {
      Interval(retries, factor, minTimeout, maxTimeout, retryCount)
    }

    method Reset()
      modifies this
      ensures retryCount == 0
    {
      if retryCount != 0 {
        retryCount := 0;
      }
    }
  }
}
