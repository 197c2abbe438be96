/** Stock optional-value datatype, used for the Python operations that can fail
    (an `int()` that raises, an unpacking that raises, a queue `get` that times out). */
module Wrappers {
  datatype Option<+T> = None | Some(value: T)
}
