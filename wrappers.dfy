/** Optional values, for the places where the C++ code can hold a value outside
    the set of named cases. */
module Wrappers {
  datatype Option<+T> = None | Some(value: T)
}
