/** Optional values: a JavaScript property that may be absent, or a host reply that carries no value. */
module Wrappers {

  datatype Option<+T> = None | Some(value: T)
}
