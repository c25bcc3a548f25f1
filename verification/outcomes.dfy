/** Optional values and results with an error, used wherever the ranking
    engine can find nothing or abort. */
module Outcomes {

  /** A value that may be absent. */
  datatype Option<+T> = None | Some(value: T)

  /** The outcome of a step that can abort the whole run. */
  datatype Result<+T, +E> = Success(value: T) | Failure(error: E)
}
