/** The optional value used wherever the analysis code works with `None` or
    with a floating-point NaN that it tests for explicitly. */
module Wrappers {
  datatype Option<T> = None | Some(value: T)
}
