/** Option and Result, the two wrappers the rest of the model uses for
    "maybe absent" lookups and for operations that can fail. */
module Wrappers {

  datatype Option<+T> = None | Some(value: T)

  datatype Result<+T, +E> = Ok(value: T) | Err(error: E)
}
