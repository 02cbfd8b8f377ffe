/**
 * `AuthService` of src/features/auth/services/authService.ts: the decision
 * each call takes on the `{code, message, data}` envelope the backend
 * answers with. The POST itself is not modelled.
 */
module AuthService {
  import opened Wrappers
  import opened ApiTypes

  const Ok: int := 200
  const LoginFailed: string := "Login failed"
  const RegistrationFailed: string := "Registration failed"

  /** The user view a successful login returns. */
  datatype LoginResponse = LoginResponse(userId: int, email: string, username: string)

  /**
   * `login` (lines 9-18): the user exactly when the code is 200 and data is
   * present; otherwise an `Error` with the envelope's message, or
   * "Login failed" when that is empty.
   */
  function Login(response: Envelope<LoginResponse>): (r: Result<LoginResponse, Thrown>)
    ensures r.Success? <==> response.code == Ok && response.data.Some?
    ensures r.Success? ==> r.value == response.data.value
    ensures r.Failure? ==> r.error == ErrorObject(if response.message != "" then response.message else LoginFailed)
  {
    if response.code == Ok && response.data.Some? then Success(response.data.value)
    else Failure(ErrorObject(if response.message != "" then response.message else LoginFailed))
  }

  /**
   * `register` (lines 23-33): succeeds exactly when the code is 200,
   * whatever the data; otherwise an `Error` with the message or
   * "Registration failed".
   */
  function Register<T>(response: Envelope<T>): (r: Result<(), Thrown>)
    ensures r.Success? <==> response.code == Ok
    ensures r.Failure? ==> r.error == ErrorObject(if response.message != "" then response.message else RegistrationFailed)
  {
    if response.code == Ok then Success(())
    else Failure(ErrorObject(if response.message != "" then response.message else RegistrationFailed))
  }

  /**
   * Both calls fail with an `Error` whose message is never empty, so a
   * caller's own `err.message || fallback` keeps it.
   */
  lemma FailuresCarryMessage<T>(login: Envelope<LoginResponse>, register: Envelope<T>, fallback: string)
    ensures Login(login).Failure? ==>
      Login(login).error.ErrorObject? && Login(login).error.message != "" && MessageOr(Login(login).error, fallback) == Login(login).error.message
    ensures Register(register).Failure? ==>
      Register(register).error.ErrorObject? && Register(register).error.message != "" && MessageOr(Register(register).error, fallback) == Register(register).error.message
  {
  }

  /** A code of 200 without data is still a failed login. */
  lemma LoginNeedsData(response: Envelope<LoginResponse>)
    requires response.code == Ok && response.data.None?
    ensures Login(response) == Failure(ErrorObject(if response.message != "" then response.message else LoginFailed))
  {
  }
}
