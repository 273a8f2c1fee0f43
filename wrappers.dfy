/** Optional values, standing for the `(value, ok)` pairs of the oVirt SDK getters. */
module Wrappers {

  datatype Option<+T> = None | Some(value: T)
}
