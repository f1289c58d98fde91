/** Readings of a monotonic clock, in nanoseconds. */
module Clock {
  type Instant = nat

  const SECOND: nat := 1_000_000_000

  function Elapsed(now: Instant, since: Instant): nat {
    if now >= since then now - since else 0
  }
}
