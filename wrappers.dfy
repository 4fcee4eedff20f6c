/** A value that may be absent: an optional JSON field, or a `JSON.parse` result that is falsy. */
module Wrappers {
  datatype Option<+T> = None | Some(value: T)
}
