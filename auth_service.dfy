/**
 * The account API client (app/src/services/authService.ts): its error
 * normaliser and the default message each endpoint hands to it. The HTTP
 * requests themselves are inputs: each endpoint is given what the client
 * resolved or rejected with.
 */
module AuthService {
  import opened Wrappers
  import opened Js
  import opened Http
  import opened Types
  import TodoApiService

  const LoginDefault := "Login failed"
  const RegisterDefault := "Registration failed"
  const RefreshDefault := "Session refresh failed. Please log in again."

  /** `getApiErrorMessage`: the same chain as the resource client's copy, without the `messages` test. */
  function ErrorMessage(error: HttpError, defaultMessage: string): (r: string)
    ensures defaultMessage != "" ==> r != ""
  {
    match error.response
    case None => Or(error.message, defaultMessage)
    case Some(data) =>
      if data.Value? then
        if Truthy(data.title) && data.errors.Some? then
          data.title.value + ": " + Join(Flatten(data.errors.value), " ")
        else
          OrOpt(data.title, OrOpt(data.detail, defaultMessage))
      else
        OrOpt(MessageOf(data), Or(error.message, defaultMessage))
  }

  /** The two copies of the normaliser return the same string for every error and default. */
  lemma CopiesAgree(error: HttpError, defaultMessage: string)
    ensures ErrorMessage(error, defaultMessage) == TodoApiService.ErrorMessage(error, defaultMessage)
  {
  }

  /** A falsy body yields the error's own message, else the default. */
  lemma FalsyBody(error: HttpError, defaultMessage: string)
    requires error.response == Some(Falsy)
    ensures ErrorMessage(error, defaultMessage) == Or(error.message, defaultMessage)
  {
  }

  /** An endpoint's `catch`: rethrow with the normalised message. */
  function Call(response: Response<JwtResponse>, defaultMessage: string): (r: Outcome<JwtResponse>)
    requires defaultMessage != ""
    ensures r.Ok? <==> response.Success?
    ensures r.Ok? ==> r.value == response.data
    ensures r.Err? ==> r.msg != ""
  {
    match response
    case Success(data) => Ok(data)
    case Failure(error) => Err(ErrorMessage(error, defaultMessage))
  }

  /** `login`; its failures always carry a non-empty message. */
  function Login(response: Response<JwtResponse>): (r: Outcome<JwtResponse>)
    ensures response.Failure? ==> r == Err(ErrorMessage(response.error, LoginDefault)) && r.msg != ""
  {
    Call(response, LoginDefault)
  }

  function Register(response: Response<JwtResponse>): (r: Outcome<JwtResponse>)
    ensures response.Failure? ==> r == Err(ErrorMessage(response.error, RegisterDefault)) && r.msg != ""
  {
    Call(response, RegisterDefault)
  }

  function RefreshToken(response: Response<JwtResponse>): (r: Outcome<JwtResponse>)
    ensures response.Failure? ==> r == Err(ErrorMessage(response.error, RefreshDefault)) && r.msg != ""
  {
    Call(response, RefreshDefault)
  }
}
