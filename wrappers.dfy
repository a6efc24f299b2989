/** Optional values: the outcome of a sensor query that may fail. */
module Wrappers {

  datatype Option<+T> = None | Some(value: T)
}
