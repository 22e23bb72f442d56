/** Optional values: the model's stand-in for `undefined` / `null` in the original. */
module Wrappers {

  datatype Option<+T> = None | Some(value: T)
}
