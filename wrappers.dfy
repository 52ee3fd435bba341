/** Plain option and result types used throughout the model: Option stands for
    Go's "value or nil" and for the two-result "v, ok" lookups; Result for the
    "value, error" returns of strconv. */
module Wrappers {

  datatype Option<+T> = None | Some(value: T)

  datatype Result<+T, +E> = Ok(value: T) | Err(error: E)
}
