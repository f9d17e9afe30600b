/** Optional values: Go's nil pointer and "no match" outcomes. */
module Wrappers {

  datatype Option<+T> = None | Some(value: T)
}
