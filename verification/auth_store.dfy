/**
 * The client's session store: the signed-in user, whether the session is
 * authenticated, a loading flag and the last error, plus the two tokens the
 * browser keeps in local storage. Only the user and the authenticated flag
 * are persisted across reloads.
 */
module AuthStore {
  import opened Outcomes
  import Security
  import Models
  import AuthApi

  /** A user as the API returns it (UserResponse): everything but the password hash. */
  datatype ClientUser = ClientUser(id: int, email: string, firstName: string, lastName: string, role: string,
                                   teamId: Option<int>, createdAt: int, lastLogin: Option<int>, isActive: bool)

  /** The serialisation of a user row through UserResponse. */
  function UserResponseOf(u: Models.User): (c: ClientUser)
    ensures c.id == u.id && c.email == u.email && c.role == u.role && c.teamId == u.teamId && c.isActive == u.isActive
    ensures c.firstName == u.firstName && c.lastName == u.lastName
    ensures c.createdAt == u.createdAt && c.lastLogin == u.lastLogin
  {
    ClientUser(u.id, u.email, u.firstName, u.lastName, u.role, u.teamId, u.createdAt, u.lastLogin, u.isActive)
  }

  /** Two rows with the same response differ at most in their password hashes. */
  lemma ResponseHidesOnlyTheHash(a: Models.User, b: Models.User)
    requires UserResponseOf(a) == UserResponseOf(b)
    ensures a.(passwordHash := b.passwordHash) == b
  {
  }

  /** The part of the state the persist middleware writes to storage. */
  datatype Persisted = Persisted(user: Option<ClientUser>, isAuthenticated: bool)

  class Store {
    var user: Option<ClientUser>
    var isAuthenticated: bool
    var isLoading: bool
    var error: Option<string>
    /** localStorage "access_token" and "refresh_token"; None when absent. */
    var accessToken: Option<Security.Token>
    var refreshToken: Option<Security.Token>
    /** typeof window !== 'undefined': whether local storage exists at all. */
    const hasWindow: bool

    /** A session is authenticated exactly when it holds a user. */
    ghost predicate Valid()
      reads this
    {
      isAuthenticated <==> user.Some?
    }

    /** partialize: user and isAuthenticated only. */
    function Partialize(): (p: Persisted)
      reads this
      ensures p.user == user && p.isAuthenticated == isAuthenticated
    {
      Persisted(user, isAuthenticated)
    }

    /** The initial state, over whatever local storage already holds. */
    constructor (hasWindow: bool, storedAccess: Option<Security.Token>, storedRefresh: Option<Security.Token>)
      ensures Valid() && this.hasWindow == hasWindow
      ensures user.None? && !isAuthenticated && !isLoading && error.None?
      ensures accessToken == (if hasWindow then storedAccess else None)
      ensures refreshToken == (if hasWindow then storedRefresh else None)
    {
      this.hasWindow := hasWindow;
      user, isAuthenticated, isLoading, error := None, false, false, None;
      accessToken := if hasWindow then storedAccess else None;
      refreshToken := if hasWindow then storedRefresh else None;
    }

    /**
     * The body shared by login and register: on success keep both tokens
     * (where there is storage) and the user; on failure drop the session,
     * keep the message and rethrow.
     */
    method Authenticate(response: Settled<AuthApi.AuthResponse>) returns (threw: bool)
      requires Valid()
      modifies this
      ensures Valid() && !isLoading
      ensures threw <==> response.Rejected?
      ensures response.Resolved? ==>
        && user == Some(UserResponseOf(response.body.user)) && isAuthenticated && error.None?
        && accessToken == (if hasWindow then Some(response.body.accessToken) else old(accessToken))
        && refreshToken == (if hasWindow then Some(response.body.refreshToken) else old(refreshToken))
      ensures response.Rejected? ==>
        && user.None? && !isAuthenticated && error == Some(response.message)
        && accessToken == old(accessToken) && refreshToken == old(refreshToken)
    {
      isLoading, error := true, None;
      match response
      case Resolved(body) =>
        if hasWindow {
          accessToken, refreshToken := Some(body.accessToken), Some(body.refreshToken);
        }
        user, isAuthenticated, isLoading, error := Some(UserResponseOf(body.user)), true, false, None;
        return false;
      case Rejected(message) =>
        isLoading, error, isAuthenticated, user := false, Some(message), false, None;
        return true;
    }

    method Login(response: Settled<AuthApi.AuthResponse>) returns (threw: bool)
      requires Valid()
      modifies this
      ensures Valid() && !isLoading
      ensures threw <==> response.Rejected?
      ensures response.Resolved? ==>
        && user == Some(UserResponseOf(response.body.user)) && isAuthenticated && error.None?
        && accessToken == (if hasWindow then Some(response.body.accessToken) else old(accessToken))
        && refreshToken == (if hasWindow then Some(response.body.refreshToken) else old(refreshToken))
      ensures response.Rejected? ==>
        && user.None? && !isAuthenticated && error == Some(response.message)
        && accessToken == old(accessToken) && refreshToken == old(refreshToken)
    {
      threw := Authenticate(response);
    }

    method Register(response: Settled<AuthApi.AuthResponse>) returns (threw: bool)
      requires Valid()
      modifies this
      ensures Valid() && !isLoading
      ensures threw <==> response.Rejected?
      ensures response.Resolved? ==>
        && user == Some(UserResponseOf(response.body.user)) && isAuthenticated && error.None?
        && accessToken == (if hasWindow then Some(response.body.accessToken) else old(accessToken))
        && refreshToken == (if hasWindow then Some(response.body.refreshToken) else old(refreshToken))
      ensures response.Rejected? ==>
        && user.None? && !isAuthenticated && error == Some(response.message)
        && accessToken == old(accessToken) && refreshToken == old(refreshToken)
    {
      threw := Authenticate(response);
    }

    /** logout: clear stored tokens (where there is storage) and the whole session. */
    method Logout()
      modifies this
      ensures Valid()
      ensures user.None? && !isAuthenticated && !isLoading && error.None?
      ensures accessToken == (if hasWindow then None else old(accessToken))
      ensures refreshToken == (if hasWindow then None else old(refreshToken))
    {
      if hasWindow {
        accessToken, refreshToken := None, None;
      }
      user, isAuthenticated, isLoading, error := None, false, false, None;
    }

    /**
     * refreshUser: nothing happens without a session; otherwise the fetched
     * user replaces the stored one, and a failed fetch logs out.
     */
    method RefreshUser(response: Settled<ClientUser>)
      requires Valid()
      modifies this
      ensures Valid()
      ensures !old(isAuthenticated) ==>
        && user == old(user) && !isAuthenticated && isLoading == old(isLoading) && error == old(error)
        && accessToken == old(accessToken) && refreshToken == old(refreshToken)
      ensures old(isAuthenticated) && response.Resolved? ==>
        && user == Some(response.body) && isAuthenticated && !isLoading && error.None?
        && accessToken == old(accessToken) && refreshToken == old(refreshToken)
      ensures old(isAuthenticated) && response.Rejected? ==>
        && user.None? && !isAuthenticated && !isLoading && error.None?
        && accessToken == (if hasWindow then None else old(accessToken))
        && refreshToken == (if hasWindow then None else old(refreshToken))
    {
      if !isAuthenticated {
        return;
      }
      isLoading := true;
      match response
      case Resolved(fetched) =>
        user, isAuthenticated, isLoading, error := Some(fetched), true, false, None;
      case Rejected(_) =>
        Logout();
        isLoading := false;
    }

    method ClearError()
      modifies this
      ensures error.None? && Partialize() == old(Partialize())
      ensures isLoading == old(isLoading) && accessToken == old(accessToken) && refreshToken == old(refreshToken)
    {
      error := None;
    }

    method SetLoading(loading: bool)
      modifies this
      ensures isLoading == loading && Partialize() == old(Partialize())
      ensures error == old(error) && accessToken == old(accessToken) && refreshToken == old(refreshToken)
    {
      isLoading := loading;
    }
  }
}
