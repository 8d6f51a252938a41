/** An optional value, and the positive numbers. */
module Wrappers {
  datatype Option<+T> = None | Some(value: T)

  type Pos = n: nat | n > 0 witness 1
}
