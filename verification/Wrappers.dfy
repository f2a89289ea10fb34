/** Optional values: a nullable reference or a nullable number of the program. */
module Wrappers {
  datatype Option<+T> = None | Some(value: T)
}
