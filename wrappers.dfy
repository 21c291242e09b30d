/** Optional values, standing for SQL NULL, a missing row or Python's None. */
module Wrappers {

  datatype Option<+T> = None | Some(value: T)
}
