/** Shared vocabulary. */
module Prelude {

  datatype Option<+T> = None | Some(value: T)

  /** A transaction commits, fails without effect, or is durable although its caller is told it failed. */
  datatype Io = Commits | FailsBefore | FailsAfter

  /** Go's int64, the type of every Telegram identifier. */
  const MIN_INT64 := -0x8000_0000_0000_0000
  const MAX_INT64 := 0x7FFF_FFFF_FFFF_FFFF

  predicate IsInt64(n: int) {
    MIN_INT64 <= n <= MAX_INT64
  }
}
