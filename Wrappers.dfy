/** Optional values: the model's stand-in for `null`, `undefined` and a thrown exception. */
module Wrappers {
  datatype Option<+T> = None | Some(value: T)
}
