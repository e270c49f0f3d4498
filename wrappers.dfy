/** Python's "attribute possibly not set yet" and "optional keyword argument",
    as a value. */
module Wrappers {

  datatype Option<T> = None | Some(value: T)
}
