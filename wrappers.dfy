/** An optional value: JavaScript's `null`/missing versus present. */
module Wrappers {
  datatype Option<T> = None | Some(value: T)
}
