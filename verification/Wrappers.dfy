/** Optional values, standing for the program's `None`. */
module Wrappers {
  datatype Option<+T> = None | Some(value: T)
}
