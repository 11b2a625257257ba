/** Optional values, standing in for Python's `None`. */
module Wrappers {

  /** `None` models an absent (falsy) Python value, `Some(v)` a present one. */
  datatype Option<+T> = None | Some(value: T)
}
