/** Optional values: a DOM reference whose `current` may be null, a query that may find nothing. */
module Wrappers {

  datatype Option<+T> = None | Some(value: T)
}
