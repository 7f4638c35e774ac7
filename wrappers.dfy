/** Optional values: Go's `(value, ok)` and `(value, err)` pairs become `Option`. */
module Wrappers {

  datatype Option<+T> = None | Some(value: T)
}
