/** Optional values: Java's nullable results and absent preferences. */
module Wrappers {

  datatype Option<+T> = None | Some(value: T)
}
