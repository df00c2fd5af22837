/** Optional values, used where the modelled code either produces a value or does not. */
module Wrappers {

  datatype Option<+T> = None | Some(value: T)
}
