/** Optional values and results with an error, for the engine's two error kinds. */
module Outcomes {

  datatype Option<+T> = None | Some(value: T)

  /** The two error kinds the engine reports to its callers. */
  datatype Error =
    | NotFound(path: string)       // the corpus file cannot be opened
    | InvalidArgument(reason: string)  // e.g. a negative maximum distance

  datatype Result<+T> = Success(value: T) | Failure(error: Error)
}
