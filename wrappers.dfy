/** Failure-compatible optional value, used where the source panics on a miss. */
module Wrappers {
  datatype Option<+T> = None | Some(value: T)
}
