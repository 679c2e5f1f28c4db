/** Types shared by every part of the model. */
module Common {
  // Durations are in nanoseconds.
  const MILLISECOND := 1_000_000
  const SECOND := 1_000_000_000

  datatype Option<+T> = None | Some(value: T)

  function Min(a: int, b: int): int { if a <= b then a else b }

  function Max(a: int, b: int): int { if a >= b then a else b }
}
