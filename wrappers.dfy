/** Option and Result, used for the Python code's `None` returns and raised errors. */
module Wrappers {

  datatype Option<+T> = None | Some(value: T)

  /** An HTTP error the FastAPI handlers raise, by status code. */
  datatype Result<+R> = Ok(value: R) | Err(status: int)
}
