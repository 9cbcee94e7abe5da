/** Small result types shared by the radar modules. */
module Wrappers {

  /** A value that may be absent (Python's `None`, or a missing environment value). */
  datatype Option<+T> = None | Some(value: T)

  /**
   * The result of a Python computation that either produces a value or raises.
   * `Raised` stands for any exception; which one it is never changes what the
   * scripts do next.
   */
  datatype Outcome<+T> = Done(value: T) | Raised
}
