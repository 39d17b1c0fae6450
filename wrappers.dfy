/** Optional values, used where the source either yields a value or fails. */
module Wrappers {

  datatype Option<+T> = None | Some(value: T)

}
