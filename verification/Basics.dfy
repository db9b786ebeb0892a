/** What several of the modules share: optional values and instants. */
module Basics {
  datatype Option<+T> = None | Some(value: T)

  /** Instants and durations are nanoseconds. */
  const SECOND: nat := 1_000_000_000
  const MICROSECOND: nat := 1_000

  /** `Instant::duration_since`, which is zero for an instant in the future. */
  function Since(now: nat, start: nat): nat {
    if now < start then 0 else now - start
  }
}
