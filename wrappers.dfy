/** Optional values: a nullable pointer, a boxed object that may not hold an int,
    a registry read that may fail. */
module Wrappers {
  datatype Option<+T> = None | Some(value: T)
}
