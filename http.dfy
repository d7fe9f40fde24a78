/** What a failed HTTP call hands to the error normalisers. */
module Http {
  import opened Wrappers

  /**
   * `error.response.data` of a failed call. `Falsy` is a body that is null,
   * undefined, an empty string, 0 or false; every other body is a `Value`,
   * whose properties are undefined when the body does not carry them (a
   * non-empty text body is a `Value` with every property absent).
   * `errors` holds `Object.values(errors)`, in the object's key order.
   */
  datatype Body =
    | Falsy
    | Value(
        title: Option<string>,
        detail: Option<string>,
        errors: Option<seq<seq<string>>>,
        messages: Option<seq<string>>,
        message: Option<string>)

  /** `data?.messages`: undefined unless the body is a truthy value. */
  function MessagesOf(data: Body): Option<seq<string>> {
    if data.Value? then data.messages else None
  }

  /** `data?.message`. */
  function MessageOf(data: Body): Option<string> {
    if data.Value? then data.message else None
  }

  /**
   * A rejected call. `response` is None when the error is not an HTTP
   * error or no response arrived; `message` is the error's own message.
   */
  datatype HttpError = HttpError(response: Option<Body>, message: string)

  /** What the HTTP client resolves or rejects with. */
  datatype Response<+T> = Success(data: T) | Failure(error: HttpError)
}
