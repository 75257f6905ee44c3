/** The optional value used for PHP's nullable strings. */
module Wrappers {

  datatype Option<T> = None | Some(value: T)
}
