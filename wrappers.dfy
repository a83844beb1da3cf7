/** Optional values: a storage entry that may be absent (`null` in the browser API). */
module Wrappers {

  datatype Option<+T> = None | Some(value: T)
}
