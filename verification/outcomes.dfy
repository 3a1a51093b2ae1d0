/** Failure-aware return types. Python code in this system signals errors by
    raising (IndexError, a numpy shape mismatch, ZeroDivisionError) or by
    falling off the end of a function and returning None; the model returns
    these values instead. */
module Outcomes {

  datatype Option<+T> = None | Some(value: T)

  datatype Result<+T, +E> = Ok(value: T) | Err(error: E)
}
