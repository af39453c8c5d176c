/** Optional values, shared by every module of the model (Python's `None`). */
module Wrappers {
  datatype Option<T> = None | Some(value: T)
}
