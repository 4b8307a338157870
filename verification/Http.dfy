/** Outcomes of a request handler: the value sent with a 2xx status, or the
    error status it answers with. */
module Http {

  /** 400 (a validation message), 404 (unknown id) and 500 (an exception
      caught by the handler or by the server's error handler). */
  datatype Failure = BadRequest | NotFound | ServerError

  datatype Result<+T> = Ok(value: T) | Err(failure: Failure)
}
