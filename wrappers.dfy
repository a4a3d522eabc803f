/** Option, the one failure-compatible wrapper the model needs. */
module Wrappers {

  /** A value that may be absent: JavaScript's `undefined`, a lookup miss, a parse failure. */
  datatype Option<+T> = None | Some(value: T)
}
