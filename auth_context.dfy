/** The session context (src/contexts/AuthContext.tsx): the provider's two
    state fields, `user` and `isLoading`, the four operations that change
    them, the derived `isAuthenticated`, and the `useAuth` guard. */
module Auth {
  import opened Common
  import Api

  /** The identity the provider assumes when a token is already stored; the
      token itself is not inspected. */
  const PlaceholderUser := Api.User("1", "user", "user@example.com")

  const NoProviderMessage := "useAuth must be used within an AuthProvider"

  /** The user the start-up check settles on, given the stored token. */
  function UserAtStartup(token: Option<string>): (u: Option<Api.User>)
    ensures u.Some? <==> Truthy(token)
    ensures u.Some? ==> u.value == PlaceholderUser
  {
    if Truthy(token) then Some(PlaceholderUser) else None
  }

  /** `response.user` of a settled login or registration: absent when the
      body was text or had no user. */
  function ResponseUser(p: Api.Payload<Api.AuthResponse>): (u: Option<Api.User>)
    ensures p.TextBody? ==> u.None?
    ensures p.JsonBody? ==> u == p.value.user
  {
    match p
    case JsonBody(r) => r.user
    case TextBody(_) => None
  }

  /** The value the provider hands to its consumers. */
  datatype AuthView = AuthView(user: Option<Api.User>, isAuthenticated: bool, isLoading: bool)

  /** The sign-in and sign-up calls take the build's `VITE_API_URL`, which
      picks the address the request goes to. */
  class AuthProvider {
    var user: Option<Api.User>
    var isLoading: bool
    const store: Api.TokenStore

    /** A freshly mounted provider: nobody signed in yet, still loading. */
    constructor(store: Api.TokenStore)
      ensures user == None && isLoading && this.store == store
    {
      user := None;
      isLoading := true;
      this.store := store;
    }

    /** The context value; `isAuthenticated` is `!!user`. */
    function View(): (v: AuthView)
      reads this
      ensures v.isAuthenticated <==> v.user.Some?
      ensures v.user == user && v.isLoading == isLoading
    {
      AuthView(user, user.Some?, isLoading)
    }

    /** The start-up check: a stored, non-empty token sets the placeholder
      user, otherwise the user is left as it was; loading ends either way. */
    method Initialize()
      modifies this
      ensures UserAtStartup(store.token).Some? ==> user == UserAtStartup(store.token)
      ensures UserAtStartup(store.token).None? ==> user == old(user)
      ensures !isLoading
    {
      var token := store.GetToken();
      if Truthy(token) {
        user := Some(PlaceholderUser);
      }
      isLoading := false;
    }

    /** Signs in: on success the user becomes the response's user; on failure
      the user is unchanged and the error is passed on. Loading ends in both
      cases, and the token and the page move exactly as the request layer
      moves them: a 401 sends the page to the login screen. */
    method Login(apiUrl: Option<string>, username: string, password: string, reply: Api.Reply<Api.AuthResponse>)
      returns (result: Result<Api.Payload<Api.AuthResponse>>, redirect: Option<string>)
      modifies this, store
      ensures result == Api.Settle(reply)
      ensures redirect == (if Api.Unauthorized(reply) then Some(LoginRoute) else None)
      ensures result.Ok? ==> user == ResponseUser(result.value) && store.token == Some(Api.StoredToken(result.value))
      ensures result.Err? ==> user == old(user)
      ensures result.Err? ==> store.token == (if Api.Unauthorized(reply) then None else old(store.token))
      ensures !isLoading
    {
      isLoading := true;
      var config;
      config, result, redirect := Api.Login(store, apiUrl, Api.AuthData(username, password, None), reply);
      if result.Ok? {
        user := ResponseUser(result.value);
      }
      isLoading := false;
    }

    /** Registers, with the same effects as `Login`. */
    method Register(apiUrl: Option<string>, username: string, email: string, password: string, reply: Api.Reply<Api.AuthResponse>)
      returns (result: Result<Api.Payload<Api.AuthResponse>>, redirect: Option<string>)
      modifies this, store
      ensures result == Api.Settle(reply)
      ensures redirect == (if Api.Unauthorized(reply) then Some(LoginRoute) else None)
      ensures result.Ok? ==> user == ResponseUser(result.value) && store.token == Some(Api.StoredToken(result.value))
      ensures result.Err? ==> user == old(user)
      ensures result.Err? ==> store.token == (if Api.Unauthorized(reply) then None else old(store.token))
      ensures !isLoading
    {
      isLoading := true;
      var config;
      config, result, redirect := Api.Register(store, apiUrl, Api.AuthData(username, password, Some(email)), reply);
      if result.Ok? {
        user := ResponseUser(result.value);
      }
      isLoading := false;
    }

    /** Signs out without a request. The end state does not depend on the
      state before, so signing out twice ends where signing out once does. */
    method Logout()
      modifies this, store
      ensures user == None && store.token == None
      ensures isLoading == old(isLoading)
    {
      Api.Logout(store);
      user := None;
    }
  }

  /** `useAuth`: the context value inside a provider, an error outside one. */
  function UseAuth(provider: Option<AuthView>): (r: Result<AuthView>)
    ensures r.Ok? <==> provider.Some?
    ensures r.Ok? ==> r.value == provider.value
    ensures r.Err? ==> r.message == NoProviderMessage
  {
    match provider
    case Some(v) => Ok(v)
    case None => Err(NoProviderMessage)
  }
}
