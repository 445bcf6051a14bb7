/** Small shared vocabulary: optional values, results, instants and trimmed text. */
module Basics {

  datatype Option<+T> = None | Some(value: T)

  datatype Result<+T, +E> = Ok(value: T) | Err(error: E)

  /** An optional instant: Go's zero `time.Time` is `Never`. */
  datatype Deadline = Never | At(instant: int)

  // Instants and durations are integers counting nanoseconds.
  const MILLISECOND: int := 1_000_000
  const SECOND: int := 1_000_000_000
  const MINUTE: int := 60 * SECOND

  function Min(a: int, b: int): int {
    if a <= b then a else b
  }

  predicate HasPrefix(s: string, prefix: string) {
    prefix <= s
  }
}
