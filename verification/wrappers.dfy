/** The optional-value wrapper used for Go's nil-able values (pointers, maps, errors). */
module Wrappers {

  /** `None` stands for Go's `nil`; `Some(v)` for a present value. */
  datatype Option<+T> = None | Some(value: T)
}
