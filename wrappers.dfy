/** Optional values: the model's stand-in for a Go interface value that may be nil. */
module Wrappers {

  datatype Option<+T> = None | Some(value: T)
}
