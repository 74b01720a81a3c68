/** The two wrappers the model uses: `Option` for a value that may be absent
    (an optional property, a request that was never issued) and `Result` for
    an operation that either returns or throws. */
module Results {

  datatype Option<+T> = None | Some(value: T)

  datatype Result<+T, +E> = Success(value: T) | Failure(error: E)
}
