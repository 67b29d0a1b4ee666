/** Optional values: a missing dictionary key, an absent document, `None`. */
module Wrappers {

  datatype Option<+T> = None | Some(value: T)
}
