/** Failure-compatible optional value, used where the source raises on a missing key. */
module Wrappers {

  datatype Option<+T> = None | Some(value: T)
}
