/** Optional values, for fields and results the program leaves nil. */
module Wrappers {
  datatype Option<+T> = None | Some(value: T)
}
