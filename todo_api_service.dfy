/** The error normaliser of the resource API client (js-exam/src/services/todoApiService.ts). */
module TodoApiService {
  import opened Wrappers
  import opened Js
  import opened Http

  /**
   * `getApiErrorMessage`. The code tests the `messages` list and the
   * `message` property only after a truthy body has already returned, so on
   * the paths that reach them the body is falsy and neither test can pass;
   * they are written out here as the code has them.
   */
  function ErrorMessage(error: HttpError, defaultMessage: string): (r: string)
    ensures defaultMessage != "" ==> r != ""
  {
    match error.response
    case None => Or(error.message, defaultMessage)
    case Some(data) =>
      if data.Value? then
        if Truthy(data.title) && data.errors.Some? then
          data.title.value + ": " + Join(Flatten(data.errors.value), " ")
        else
          OrOpt(data.title, OrOpt(data.detail, defaultMessage))
      else
        // `apiMessage && apiMessage.messages && apiMessage.messages.length > 0`
        match MessagesOf(data)
        case Some(messages) =>
          if |messages| > 0 then Join(messages, " ")
          else OrOpt(MessageOf(data), Or(error.message, defaultMessage))
        case None =>
          OrOpt(MessageOf(data), Or(error.message, defaultMessage))
  }

  /** Without a response the error's own message is used, else the default. */
  lemma NoResponse(error: HttpError, defaultMessage: string)
    requires error.response.None?
    ensures ErrorMessage(error, defaultMessage) == Or(error.message, defaultMessage)
  {
  }

  /** A problem payload with a title and field errors: the title, a colon, then every field message in order. */
  lemma ProblemWithFieldErrors(error: HttpError, defaultMessage: string)
    requires error.response.Some? && error.response.value.Value?
    requires Truthy(error.response.value.title) && error.response.value.errors.Some?
    ensures var body := error.response.value;
      ErrorMessage(error, defaultMessage) == body.title.value + ": " + Join(Flatten(body.errors.value), " ")
  {
  }

  /** An empty `errors` object still produces the title followed by ": ". */
  lemma EmptyFieldErrors(error: HttpError, defaultMessage: string)
    requires error.response.Some? && error.response.value.Value?
    requires Truthy(error.response.value.title) && error.response.value.errors == Some([])
    ensures ErrorMessage(error, defaultMessage) == error.response.value.title.value + ": "
  {
  }

  /** Any other truthy body: its title, else its detail, else the default. */
  lemma OtherBody(error: HttpError, defaultMessage: string)
    requires error.response.Some? && error.response.value.Value?
    requires !(Truthy(error.response.value.title) && error.response.value.errors.Some?)
    ensures var body := error.response.value;
      ErrorMessage(error, defaultMessage) == OrOpt(body.title, OrOpt(body.detail, defaultMessage))
  {
  }

  /** A falsy body falls through to the error's own message, else the default. */
  lemma FalsyBody(error: HttpError, defaultMessage: string)
    requires error.response == Some(Falsy)
    ensures ErrorMessage(error, defaultMessage) == Or(error.message, defaultMessage)
  {
  }

  /** The `messages` list and the `message` property never influence the result. */
  lemma MessageFieldsIgnored(error: HttpError, defaultMessage: string, messages: Option<seq<string>>, message: Option<string>)
    requires error.response.Some? && error.response.value.Value?
    ensures var other := error.(response := Some(error.response.value.(messages := messages, message := message)));
      ErrorMessage(other, defaultMessage) == ErrorMessage(error, defaultMessage)
  {
  }
}
