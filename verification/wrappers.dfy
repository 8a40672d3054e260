/** Optional values: the `?` fields of the source's record types. */
module Wrappers {

  datatype Option<+T> = None | Some(value: T)
}
