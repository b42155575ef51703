/** Optional values: the `T | undefined` and `T | null` of the storefront's records and state. */
module Wrappers {

  datatype Option<+T> = None | Some(value: T)
}
