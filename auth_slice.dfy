/** frontend/src/store/authSlice.js: the client's authentication state and
    the reducers that update it in place. The browser's stored token
    (`localStorage.token`) is a field, since two reducers remove it. `user`
    and `token` are `None` for null or undefined; a token is read from a
    payload only when it is a string. */
module AuthSlice {
  import opened Common

  /** `payload.user`, with a null user read as no user. */
  function PayloadUser(payload: Json): (u: Option<Json>)
    ensures u.Some? <==> Member(payload, "user").Some? && Member(payload, "user") != Some(JNull)
    ensures u.Some? ==> u == Member(payload, "user")
  {
    match Member(payload, "user")
    case Some(JNull) => None
    case m => m
  }

  /** `payload.token`. */
  function PayloadToken(payload: Json): Option<string>
  {
    match Member(payload, "token")
    case Some(JStr(t)) => Some(t)
    case _ => None
  }

  class AuthState {
    var user: Option<Json>
    var token: Option<string>
    var isAuthenticated: bool
    var loading: bool
    var error: Option<string>
    var storedToken: Option<string>

    /** A user is only ever present while the state says it is
        authenticated. */
    ghost predicate Valid()
      reads this
    {
      user.Some? ==> isAuthenticated
    }

    /** `initialState`, built from the stored token: authenticated exactly
        when a non-empty token is stored, with no user yet. */
    constructor (stored: Option<string>)
      ensures Valid()
      ensures user.None? && token == stored && storedToken == stored
      ensures isAuthenticated == (stored.Some? && stored.value != "")
      ensures !loading && error.None?
    {
      user := None;
      token := stored;
      storedToken := stored;
      isAuthenticated := stored.Some? && stored.value != "";
      loading := false;
      error := None;
    }

    /** `logout`: clears the user, the token (also the stored one) and the
        error; `loading` is left as it is. */
    method Logout()
      requires Valid()
      modifies this
      ensures Valid()
      ensures user.None? && token.None? && storedToken.None? && !isAuthenticated && error.None?
      ensures loading == old(loading)
    {
      storedToken := None;
      user := None;
      token := None;
      isAuthenticated := false;
      error := None;
    }

    /** `clearError`: only the error changes. */
    method ClearError()
      requires Valid()
      modifies this`error
      ensures Valid()
      ensures error.None?
    {
      error := None;
    }

    /** The `pending` case of `signUp` and of `signIn`. */
    method CredentialsPending()
      requires Valid()
      modifies this`loading, this`error
      ensures Valid()
      ensures loading && error.None?
    {
      loading := true;
      error := None;
    }

    /** The `fulfilled` case of `signUp` and of `signIn`: authenticated
        whatever the payload holds, even with no token in it. */
    method CredentialsFulfilled(payload: Json)
      requires Valid()
      modifies this`loading, this`user, this`token, this`isAuthenticated
      ensures Valid()
      ensures !loading && isAuthenticated
      ensures user == PayloadUser(payload) && token == PayloadToken(payload)
    {
      loading := false;
      user := PayloadUser(payload);
      token := PayloadToken(payload);
      isAuthenticated := true;
    }

    /** The `rejected` case of `signUp` and of `signIn`: the message becomes
        the error; user, token and authentication are kept. */
    method CredentialsRejected(message: string)
      requires Valid()
      modifies this`loading, this`error
      ensures Valid()
      ensures !loading && error == Some(message)
    {
      loading := false;
      error := Some(message);
    }

    /** `loadUser.pending`: the error is kept. */
    method LoadUserPending()
      requires Valid()
      modifies this`loading
      ensures Valid()
      ensures loading
    {
      loading := true;
    }

    /** `loadUser.fulfilled`: the token is kept. */
    method LoadUserFulfilled(payload: Json)
      requires Valid()
      modifies this`loading, this`user, this`isAuthenticated
      ensures Valid()
      ensures !loading && isAuthenticated && user == PayloadUser(payload)
    {
      loading := false;
      user := PayloadUser(payload);
      isAuthenticated := true;
    }

    /** `loadUser.rejected`: signed out, and the stored token removed; the
        error is kept. */
    method LoadUserRejected()
      requires Valid()
      modifies this`loading, this`user, this`token, this`isAuthenticated, this`storedToken
      ensures Valid()
      ensures !loading && user.None? && token.None? && !isAuthenticated && storedToken.None?
    {
      loading := false;
      user := None;
      token := None;
      isAuthenticated := false;
      storedToken := None;
    }
  }

  /** The body `signUp` answers with carries no token, so the state it
      leads to is authenticated and holds no token. */
  lemma SignUpReplyHasNoToken(message: string)
    ensures PayloadToken(JObj([("message", JStr(message))])).None?
    ensures PayloadUser(JObj([("message", JStr(message))])).None?
  {
  }
}
