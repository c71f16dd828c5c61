/** Optional values: the model's stand-in for Python's `None` and for pandas' NaN cells. */
module Wrappers {

  datatype Option<+T> = None | Some(value: T)
}
