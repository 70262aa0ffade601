/** Optional values, standing in for Python's `None`-or-value. */
module Wrappers {

  /** `None` models Python's `None`; `Some(v)` a present value. */
  datatype Option<+T> = None | Some(value: T)
}
