/** Optional values and results with an error, used where the application
    produces `undefined`/`NaN` or rejects an input. */
module Options {

  datatype Option<+T> = None | Some(value: T)

  datatype Result<+T, +E> = Success(value: T) | Failure(error: E)
}
