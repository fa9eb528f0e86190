/** Optional values, standing for Kotlin's nullable types and for `lateinit` fields not yet set. */
module Wrappers {
  datatype Option<+T> = None | Some(value: T)
}
