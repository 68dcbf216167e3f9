/** Optional values: a missing session, an unset template identifier, a missing message body. */
module Wrappers {

  datatype Option<+T> = None | Some(value: T)
}
