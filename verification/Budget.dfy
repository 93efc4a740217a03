/** The time one execution may take against the lease it runs under. */
module Budget {
  import opened Rows
  import opened System

  /** `overhead` bounds everything around the wait for the container: creating and starting it,
      stopping it beyond the five seconds granted, and the database calls. */
  datatype Config = Config(maxTimeout: int, overhead: int)

  /** The environment may set any duration; these leave a margin (see MarginExactly). */
  predicate MarginOk(maxTimeout: int) {
    maxTimeout >= 0 || (maxTimeout >= -10 * SECOND && maxTimeout % SECOND == 0)
  }

  predicate ValidConfig(c: Config) {
    MarginOk(c.maxTimeout) && 0 <= c.overhead < 15 * SECOND
  }

  /** int(MaxTimeout.Seconds()), which truncates toward zero. */
  function TimeoutSec(maxTimeout: int): int {
    if maxTimeout >= 0 then maxTimeout / SECOND else -(-maxTimeout / SECOND)
  }

  /** The deadline of ContainerWait; a deadline in the past fires at once. */
  function WaitLimit(timeoutSec: int): nat {
    if timeoutSec + 10 > 0 then (timeoutSec + 10) * SECOND else 0
  }

  const STOP_GRACE: int := 5 * SECOND

  function Longest(c: Config): int {
    WaitLimit(TimeoutSec(c.maxTimeout)) + STOP_GRACE + c.overhead
  }

  function Lease(c: Config): int {
    LeaseEnd(0, c.maxTimeout)
  }

  /** The wait stays within ten seconds of the timeout exactly if no fraction below zero is cut off. */
  lemma WaitWithinLease(maxTimeout: int)
    ensures WaitLimit(TimeoutSec(maxTimeout)) <= maxTimeout + 10 * SECOND <==> MarginOk(maxTimeout)
  {
  }

  /** The lease outlasts the execution. */
  lemma LeaseOutlastsRun(c: Config)
    requires ValidConfig(c)
    ensures 0 < Longest(c) < Lease(c)
  {
  }

  /** An overhead below fifteen seconds is always covered by the lease exactly for these timeouts. */
  lemma MarginExactly(maxTimeout: int)
    ensures (forall overhead: int | 0 <= overhead < 15 * SECOND ::
               Longest(Config(maxTimeout, overhead)) < Lease(Config(maxTimeout, overhead)))
            <==> MarginOk(maxTimeout)
  {
    WaitWithinLease(maxTimeout);
    var worst := Config(maxTimeout, 15 * SECOND - 1);
    assert Longest(worst) == WaitLimit(TimeoutSec(maxTimeout)) + 20 * SECOND - 1;
  }
}
