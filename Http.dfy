/** What a route handler produces: a value, or an `HTTPException` with its
    status code and detail text. An exception that escapes a handler
    unhandled is answered as status 500. */
module Http {

  datatype Outcome<T> = Ok(value: T) | Raise(code: int, detail: string)

  /** The answer to an exception no handler catches. */
  function InternalError<T>(): Outcome<T>
  {
    Raise(500, "Internal Server Error")
  }
}
