/** The exceptions the backend raises and the results of operations that may
    raise one. */
module Outcomes {

  /** A raised exception: a werkzeug `HTTPException`, which carries its own
      status code and description, or any other Python exception, of which
      only its string form matters here. */
  datatype Error =
    | HttpException(code: int, description: string)
    | Exception(message: string)

  /** The value an operation returns, or the exception it raises. */
  datatype Result<T> = Success(value: T) | Failure(error: Error)

  /** Completion of an operation that returns nothing. */
  datatype Outcome = Pass | Fail(error: Error)

  /** Raised by `lock` when the lock file already exists. */
  const AlreadyLocked := Exception("Already locked")

  /** Raised by `unlock` when there is no lock file. */
  const NotLocked := Exception("Not locked")

  /** Raised by `json.load` (Python 2) when a file holds no JSON at all, such
      as the text of a lock marker. */
  const NotJson := Exception("No JSON object could be decoded")

  /** Raised by `dict.update(None)`, which is what a handler does when the
      request carries no JSON body. */
  const NoneNotIterable := Exception("'NoneType' object is not iterable")

  /** werkzeug's `BadRequest`, raised by `request.get_json()` when the body is
      declared as JSON but does not parse (the application runs without debug,
      so the default description is kept). */
  const BadRequest := HttpException(400, "The browser (or proxy) sent a request that this server could not understand.")
}
