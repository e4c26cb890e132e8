/** Small wrapper datatypes shared by the model. */
module Common {

  /** A value that may be absent (JavaScript's `undefined`/`null`). */
  datatype Option<+T> = None | Some(value: T)

  /** The outcome of an operation that can fail with an error value. */
  datatype Result<+T, +E> = Success(value: T) | Failure(error: E)

  /** What a network read hands back: the decoded JSON body, or a failure of
      `fetch`, of `response.json()`, or of the shape the code expects. */
  datatype Response<+T> = Received(value: T) | Failed
}
