/** Optional values, standing in for Java and Kotlin references that may be null. */
module Wrappers {

  datatype Option<+T> = None | Some(value: T)
}
