/**
 * The persisted token store of src/stores/authStore.ts, generic in the user
 * record it holds (`@/types/auth` is not part of this model).
 */
module TokenStore {
  import opened Wrappers

  /** What `partialize` keeps in `auth-storage`. */
  datatype Persisted<U> = Persisted(token: Option<string>, user: Option<U>, isAuthenticated: bool)

  class TokenStore<U> {
    var token: Option<string>
    var user: Option<U>
    var isAuthenticated: bool
    var isLoading: bool
    var error: Option<string>

    /** The store counts as signed in exactly when it holds a token. */
    predicate Valid()
      reads this
    {
      isAuthenticated <==> token.Some?
    }

    /** Lines 21-25. */
    constructor ()
      ensures Valid()
      ensures token == None && user == None && !isAuthenticated && !isLoading && error == None
    {
      token := None;
      user := None;
      isAuthenticated := false;
      isLoading := false;
      error := None;
    }

    /** `setAuthDetails` (lines 26-34): signed in with this token and user, not loading, no error. */
    method SetAuthDetails(t: string, u: U)
      modifies this
      ensures Valid()
      ensures token == Some(t) && user == Some(u) && isAuthenticated && !isLoading && error == None
    {
      token := Some(t);
      user := Some(u);
      isAuthenticated := true;
      isLoading := false;
      error := None;
    }

    /** `clearAuthDetails` (lines 35-43): every field back to null or false. */
    method ClearAuthDetails()
      modifies this
      ensures Valid()
      ensures token == None && user == None && !isAuthenticated && !isLoading && error == None
    {
      token := None;
      user := None;
      isAuthenticated := false;
      isLoading := false;
      error := None;
    }

    /** `setLoading` (line 44): changes only the loading flag. */
    method SetLoading(loading: bool)
      requires Valid()
      modifies this
      ensures Valid()
      ensures isLoading == loading
      ensures token == old(token) && user == old(user) && isAuthenticated == old(isAuthenticated) && error == old(error)
    {
      isLoading := loading;
    }

    /** `setError` (line 45): sets the error and stops loading. */
    method SetError(e: Option<string>)
      requires Valid()
      modifies this
      ensures Valid()
      ensures error == e && !isLoading
      ensures token == old(token) && user == old(user) && isAuthenticated == old(isAuthenticated)
    {
      error := e;
      isLoading := false;
    }

    /** `selectIsAuthenticated` (line 56). */
    function SelectIsAuthenticated(): (r: bool)
      reads this
      requires Valid()
      ensures r <==> token.Some?
    {
      isAuthenticated
    }

    /** `selectCurrentUser` (line 59). */
    function SelectCurrentUser(): (r: Option<U>)
      reads this
      ensures r == user
    {
      user
    }

    /** `selectAuthToken` (line 62). */
    function SelectAuthToken(): (r: Option<string>)
      reads this
      ensures r == token
    {
      token
    }

    /** `partialize` (line 50): token, user and the signed-in flag; what is persisted keeps the invariant. */
    function Partialize(): (r: Persisted<U>)
      reads this
      requires Valid()
      ensures r.token == SelectAuthToken() && r.user == SelectCurrentUser() && r.isAuthenticated == SelectIsAuthenticated()
      ensures r.isAuthenticated <==> r.token.Some?
    {
      Persisted(token, user, isAuthenticated)
    }
  }
}
