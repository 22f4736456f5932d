/** Java's nullable reference as an `Option`, with `None` standing for
    `null`. */
module Wrappers {

  /** `Some(value)` for a present reference, `None` for `null`. */
  datatype Option<+T> = None | Some(value: T)
}
