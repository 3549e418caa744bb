/** Datatypes and small functions shared by every module. */
module Base {

  datatype Option<+T> = None | Some(value: T)

  datatype Result<+T, +E> = Ok(value: T) | Err(error: E)

  type byte = b: int | 0 <= b < 256

  /** Instants and durations, in nanoseconds on one monotone clock. */
  type Time = nat

  const SECOND: Time := 1_000_000_000

  /** The longest representable duration: 2^64 - 1 seconds and 999999999 nanoseconds. */
  const MAX_DURATION: Time := 0xFFFF_FFFF_FFFF_FFFF * SECOND + 999_999_999

  /** The identity of a bounded packet channel; `same_channel` is equality. */
  type Chan = nat

  /** Equality at an arbitrary type: a proof about it does not compare collections element by element. */
  ghost predicate Same<T>(a: T, b: T) {
    a == b
  }

  function Min(a: int, b: int): int {
    if a <= b then a else b
  }

  function Max(a: int, b: int): int {
    if a <= b then b else a
  }
}
