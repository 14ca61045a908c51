/** An optional value, used where the source has `None` or a sentinel. */
module Wrappers {
  datatype Option<T> = None | Some(value: T)
}
