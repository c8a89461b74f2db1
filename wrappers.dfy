/** Optional values: a request field or header that may be absent, a token
    that may fail to verify, a completion that may fail upstream. */
module Wrappers {
  datatype Option<+T> = None | Some(value: T)
}
