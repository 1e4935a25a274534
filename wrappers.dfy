/** An optional value: the `None` that the analyzer returns for a missing
    subscriber count, a failed fetch or a failed run. */
module Wrappers {

  datatype Option<+T> = None | Some(value: T)
}
