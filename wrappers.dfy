/** Optional values and results with an error, for the absent elements and the
    uncaught exceptions of the scraper. */
module Wrappers {
  datatype Option<+T> = None | Some(value: T)

  datatype Result<+T, +E> = Ok(value: T) | Err(error: E)
}
