/**
 * The persisted login store of src/features/auth/stores/authStore.ts. Each
 * asynchronous action is split at its `await`: `...Start` is the first
 * `set`, `...Settled` applies the service's outcome and returns the path it
 * navigates to, if any.
 */
module AuthStore {
  import opened Wrappers
  import opened ApiTypes
  import opened AuthService

  const ChatPath: string := "/chat"
  const LoginPath: string := "/login"

  /** What `partialize` keeps in `auth-storage`. */
  datatype Persisted = Persisted(isAuthenticated: bool, user: Option<LoginResponse>)

  class AuthStore {
    var isAuthenticated: bool
    var user: Option<LoginResponse>
    var isLoading: bool
    var error: Option<string>

    /** Lines 20-23. */
    constructor ()
      ensures !isAuthenticated && user == None && !isLoading && error == None
    {
      isAuthenticated := false;
      user := None;
      isLoading := false;
      error := None;
    }

    /** `partialize` (line 60): only the login outcome is persisted, never the loading flag or the error. */
    function Partialize(): (r: Persisted)
      reads this
      ensures r.isAuthenticated == isAuthenticated && r.user == user
    {
      Persisted(isAuthenticated, user)
    }

    /** The first `set` of `login` and `register` (lines 26, 37). */
    method Start()
      modifies this
      ensures isLoading && error == None
      ensures Partialize() == old(Partialize())
    {
      isLoading := true;
      error := None;
    }

    /**
     * The rest of `login` (lines 27-33): a user signs in and the page goes
     * to /chat; a failure shows its message, or "Login failed", and leaves
     * the signed-in state and the page as they were.
     */
    method LoginSettled(outcome: Result<LoginResponse, Thrown>) returns (navigate: Option<string>)
      modifies this
      ensures !isLoading
      ensures outcome.Success? ==>
        isAuthenticated && user == Some(outcome.value) && error == old(error) && navigate == Some(ChatPath)
      ensures outcome.Failure? ==>
        && Partialize() == old(Partialize()) && error == Some(MessageOr(outcome.error, LoginFailed)) && navigate == None
    {
      match outcome {
        case Success(userData) =>
          isAuthenticated := true;
          user := Some(userData);
          isLoading := false;
          navigate := Some(ChatPath);
        case Failure(thrown) =>
          error := Some(MessageOr(thrown, LoginFailed));
          isLoading := false;
          navigate := None;
      }
    }

    /**
     * The rest of `register` (lines 38-44): success only clears the loading
     * flag and goes to /login; a failure shows its message, or
     * "Registration failed". Neither signs anyone in.
     */
    method RegisterSettled(outcome: Result<(), Thrown>) returns (navigate: Option<string>)
      modifies this
      ensures !isLoading && Partialize() == old(Partialize())
      ensures outcome.Success? ==> error == old(error) && navigate == Some(LoginPath)
      ensures outcome.Failure? ==> error == Some(MessageOr(outcome.error, RegistrationFailed)) && navigate == None
    {
      match outcome {
        case Success(_) =>
          isLoading := false;
          navigate := Some(LoginPath);
        case Failure(thrown) =>
          error := Some(MessageOr(thrown, RegistrationFailed));
          isLoading := false;
          navigate := None;
      }
    }

    /** `logout` (lines 47-51): back to the initial state, then to /login. */
    method Logout() returns (navigate: string)
      modifies this
      ensures !isAuthenticated && user == None && !isLoading && error == None
      ensures Partialize() == Persisted(false, None) && navigate == LoginPath
    {
      isAuthenticated := false;
      user := None;
      isLoading := false;
      error := None;
      navigate := LoginPath;
    }

    /**
     * `login` (lines 25-33) end to end against the service's answer: the
     * store signs in exactly when the envelope has code 200 and data, and a
     * failed envelope's message, or "Login failed" when it is empty, is the
     * error it shows.
     */
    method LoginWith(response: Envelope<LoginResponse>) returns (navigate: Option<string>)
      modifies this
      ensures !isLoading
      ensures isAuthenticated <==> old(isAuthenticated) || (response.code == Ok && response.data.Some?)
      ensures response.code == Ok && response.data.Some? ==>
        user == response.data && error == None && navigate == Some(ChatPath)
      ensures !(response.code == Ok && response.data.Some?) ==>
        && Partialize() == old(Partialize()) && navigate == None
        && error == Some(if response.message != "" then response.message else LoginFailed)
    {
      Start();
      navigate := LoginSettled(Login(response));
    }

    /** `clearError` (lines 53-55): changes only the error. */
    method ClearError()
      modifies this
      ensures error == None && isLoading == old(isLoading)
      ensures Partialize() == old(Partialize())
    {
      error := None;
    }
  }
}
