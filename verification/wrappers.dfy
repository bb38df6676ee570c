/** The optional-value type used for Go's nil-able results (`error`, `*big.Int`). */
module Wrappers {

  datatype Option<+T> = None | Some(value: T)
}
