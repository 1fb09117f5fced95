/** Shared value types. */
module Wrappers {

  /** A reference or boxed value that may be absent (`null`, `nil`). */
  datatype Option<+T> = None | Some(value: T)
}
