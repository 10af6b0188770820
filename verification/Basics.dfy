/** Types shared by every part of the model. */
module Basics {

  datatype Option<+T> = None | Some(value: T)

  /** Nanoseconds on the wall clock, and nanoseconds between two instants. */
  type Time = int
  type Duration = int

  const SECOND: int := 1_000_000_000
}
