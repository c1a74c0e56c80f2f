/** The client's session state (frontend/src/context/AuthContext.jsx):
    `user`, `loading`, `error` and `isAuthenticated`, changed in sequence by
    `checkAuth`, `login`, `register` and `logout`. Each API call's outcome
    is a parameter: the value it resolves with, or the object it rejects
    with. The stored token is browser storage and also a parameter;
    `CheckAuth` reports whether it removes it. `*Step` functions are the
    transitions, and the `AuthProvider` class's methods are proved to make
    exactly them. */
module AuthContext {
  import opened Common
  import opened Http

  /** What an API call rejects with: `err.error` and the `message` of each
      entry of `err.details`, the empty string standing for a missing or
      falsy value. */
  datatype ApiError = ApiError(error: string, details: seq<string>)

  datatype AuthState = AuthState(
    user: Option<PublicUser>,
    loading: bool,
    error: Option<string>,
    isAuthenticated: bool)

  /** The state the provider mounts with. */
  const Mounted := AuthState(None, true, None, false)

  const LoginFallback := "Login failed"
  const RegisterFallback := "Registration failed"
  const LogoutFallback := "Logout failed"

  /** `err.error || err.details?.[0]?.message || fallback` */
  function ErrorMessage(err: ApiError, fallback: string): (m: string)
    ensures m == err.error || (|err.details| > 0 && m == err.details[0]) || m == fallback
    ensures err.error != "" ==> m == err.error
    ensures err.error == "" && |err.details| > 0 && err.details[0] != "" ==> m == err.details[0]
    ensures err.error == "" && (|err.details| == 0 || err.details[0] == "") ==> m == fallback
    ensures fallback != "" ==> m != ""
  {
    if err.error != "" then err.error
    else if |err.details| > 0 && err.details[0] != "" then err.details[0]
    else fallback
  }

  /** The body of an error response, as the API client rethrows it. */
  function Rejection(b: Body): (err: ApiError)
    ensures b.ErrorBody? || b.LimitBody? || b.ValidationBody? ==> err.error == b.error
    ensures b.ValidationBody? ==> |err.details| == |b.details|
    ensures b.ValidationBody? ==> forall i :: 0 <= i < |b.details| ==> err.details[i] == b.details[i].message
    ensures !b.ValidationBody? ==> err.details == []
    ensures !(b.ErrorBody? || b.LimitBody? || b.ValidationBody?) ==> err.error == ""
  {
    match b
    case ErrorBody(error, _, _, _) => ApiError(error, [])
    case LimitBody(error, _) => ApiError(error, [])
    case ValidationBody(error, details) => ApiError(error, seq(|details|, i requires 0 <= i < |details| => details[i].message))
    case _ => ApiError("", [])
  }

  /** A validation failure shows "Validation failed", never a field's own
      message: the body's `error` is always set, so `details` is never
      consulted. */
  lemma ValidationDetailsNeverShown(details: seq<FieldError>)
    ensures ErrorMessage(Rejection(ValidationBody("Validation failed", details)), LoginFallback) == "Validation failed"
    ensures ErrorMessage(Rejection(ValidationBody("Validation failed", details)), RegisterFallback) == "Validation failed"
  {
  }

  /** `checkAuth`: without a stored token no request is made; otherwise
      `/me` decides, and a rejection removes the token. Returns the new
      state, whether the request was made and whether the token is
      removed. */
  function CheckAuthStep(st: AuthState, storedToken: Option<string>, api: Result<PublicUser, ApiError>)
    : (r: (AuthState, bool, bool))
    ensures !r.0.loading && r.0.error in {st.error, None}
    ensures r.1 <==> Truthy(storedToken)
    ensures r.2 <==> r.1 && api.Failure?
    ensures r.0.isAuthenticated <==> r.1 && api.Success?
    ensures r.1 ==> Synced(r.0)
  {
    if !Truthy(storedToken) then (st.(loading := false, isAuthenticated := false), false, false)
    else
      match api
      case Success(u) => (st.(user := Some(u), isAuthenticated := true, error := None, loading := false), true, false)
      case Failure(_) => (st.(user := None, isAuthenticated := false, loading := false), true, true)
  }

  /** `login`: clears the error, then takes the response's user, or sets the
      message and rethrows. */
  function LoginStep(st: AuthState, api: Result<PublicUser, ApiError>): (r: (AuthState, Result<PublicUser, ApiError>))
    ensures r.1 == api && !r.0.loading
    ensures api.Success? ==> r.0.user == Some(api.value) && r.0.isAuthenticated && r.0.error.None?
    ensures api.Failure? ==> r.0.user == st.user && r.0.isAuthenticated == st.isAuthenticated
    ensures api.Failure? ==> r.0.error == Some(ErrorMessage(api.error, LoginFallback)) && r.0.error.value != ""
  {
    match api
    case Success(u) => (st.(loading := false, error := None, user := Some(u), isAuthenticated := true), Success(u))
    case Failure(err) => (st.(loading := false, error := Some(ErrorMessage(err, LoginFallback))), Failure(err))
  }

  /** `register`: clears the error and, on a rejection, sets the message and
      rethrows; the session itself is not touched. */
  function RegisterStep(st: AuthState, api: Option<ApiError>): (r: (AuthState, Option<ApiError>))
    ensures r.1 == api && !r.0.loading
    ensures r.0.user == st.user && r.0.isAuthenticated == st.isAuthenticated
    ensures r.0.error.None? <==> api.None?
  {
    match api
    case None => (st.(loading := false, error := None), None)
    case Some(err) => (st.(loading := false, error := Some(ErrorMessage(err, RegisterFallback))), Some(err))
  }

  /** `logout`: ends the session, or on a rejection only records
      `err.error || 'Logout failed'`; it does not rethrow. */
  function LogoutStep(st: AuthState, api: Option<ApiError>): (r: AuthState)
    ensures !r.loading
    ensures api.None? ==> r.user.None? && !r.isAuthenticated && r.error.None?
    ensures api.Some? ==> r.user == st.user && r.isAuthenticated == st.isAuthenticated
    ensures api.Some? ==> r.error == Some(if api.value.error != "" then api.value.error else LogoutFallback)
  {
    match api
    case None => st.(loading := false, user := None, isAuthenticated := false, error := None)
    case Some(err) => st.(loading := false, error := Some(ErrorMessage(err.(details := []), LogoutFallback)))
  }

  /** No operation leaves `loading` set, whatever the outcome. */
  lemma LoadingAlwaysCleared(st: AuthState, token: Option<string>, who: Result<PublicUser, ApiError>,
                             rejection: Option<ApiError>)
    ensures !CheckAuthStep(st, token, who).0.loading
    ensures !LoginStep(st, who).0.loading
    ensures !RegisterStep(st, rejection).0.loading
    ensures !LogoutStep(st, rejection).loading
  {
  }

  /** Without a stored token `checkAuth` makes no request, removes nothing
      and leaves the client signed out; a rejected request signs it out and
      removes the token. */
  lemma CheckAuthOutcomes(st: AuthState, token: Option<string>, api: Result<PublicUser, ApiError>)
    ensures var (st', called, removed) := CheckAuthStep(st, token, api);
      && (called <==> Truthy(token))
      && (!called ==> !st'.isAuthenticated && !removed && st'.user == st.user && st'.error == st.error)
      && (called && api.Failure? ==> removed && st'.user.None? && !st'.isAuthenticated && st'.error == st.error)
      && (called && api.Success? ==> !removed && st'.user == Some(api.value) && st'.isAuthenticated && st'.error.None?)
  {
  }

  /** A failed login or registration leaves the session as it was, shows
      the server's message (or the fallback) and rethrows the same error. */
  lemma FailuresRethrow(st: AuthState, err: ApiError)
    ensures var (st', r) := LoginStep(st, Failure(err));
      && r == Failure(err) && st'.user == st.user && st'.isAuthenticated == st.isAuthenticated
      && st'.error == Some(ErrorMessage(err, LoginFallback)) && st'.error.value != ""
    ensures var (st', r) := RegisterStep(st, Some(err));
      && r == Some(err) && st'.user == st.user && st'.isAuthenticated == st.isAuthenticated
      && st'.error == Some(ErrorMessage(err, RegisterFallback)) && st'.error.value != ""
  {
  }

  /** Registration never signs anyone in or out. */
  lemma RegisterKeepsSession(st: AuthState, api: Option<ApiError>)
    ensures RegisterStep(st, api).0.user == st.user
    ensures RegisterStep(st, api).0.isAuthenticated == st.isAuthenticated
  {
  }

  /** A failed logout changes nothing but the message; a successful one
      clears the user, the flag and the message. */
  lemma LogoutOutcomes(st: AuthState, api: Option<ApiError>)
    ensures api.Some? ==> LogoutStep(st, api) == st.(loading := false, error := LogoutStep(st, api).error)
    ensures api.Some? ==> LogoutStep(st, api).error.Some? && LogoutStep(st, api).error.value != ""
    ensures api.None? ==> LogoutStep(st, api) == AuthState(None, false, None, false)
  {
  }

  /** The flag and the user agree: signed in exactly when a user is known. */
  predicate Synced(st: AuthState) {
    st.isAuthenticated <==> st.user.Some?
  }

  /** Login, registration and logout keep the flag and the user in
      agreement; `checkAuth` does from the state it runs in, the one the
      provider mounts with. */
  lemma SyncedPreserved(st: AuthState, token: Option<string>, who: Result<PublicUser, ApiError>,
                        rejection: Option<ApiError>)
    requires Synced(st)
    ensures Synced(LoginStep(st, who).0)
    ensures Synced(RegisterStep(st, rejection).0)
    ensures Synced(LogoutStep(st, rejection))
    ensures Synced(CheckAuthStep(Mounted, token, who).0)
  {
  }

  /** Outside the mount state the no-token branch of `checkAuth` clears the
      flag but keeps the user: the two can then disagree. */
  lemma CheckAuthCanDesync(u: PublicUser, err: ApiError)
    ensures var st := LoginStep(Mounted, Success(u)).0;
      Synced(st) && !Synced(CheckAuthStep(st, None, Failure(err)).0)
  {
  }

  /** A whole session: mount without a token, log in, log out. */
  lemma SignInSignOut(u: PublicUser, api: Result<PublicUser, ApiError>)
    ensures var (s1, called, _) := CheckAuthStep(Mounted, None, api);
      var (s2, r) := LoginStep(s1, Success(u));
      var s3 := LogoutStep(s2, None);
      && !called && s1 == AuthState(None, false, None, false)
      && r == Success(u) && s2 == AuthState(Some(u), false, None, true)
      && s3 == s1
  {
  }

  /** The provider's state; each method makes the updates of the
      corresponding callback in the order the source makes them. */
  class AuthProvider {
    var user: Option<PublicUser>
    var loading: bool
    var error: Option<string>
    var isAuthenticated: bool

    function State(): AuthState
      reads this
    {
      AuthState(user, loading, error, isAuthenticated)
    }

    constructor ()
      ensures State() == Mounted
    {
      user := None;
      loading := true;
      error := None;
      isAuthenticated := false;
    }

    method CheckAuth(storedToken: Option<string>, api: Result<PublicUser, ApiError>)
      returns (requested: bool, removeToken: bool)
      modifies this
      ensures (State(), requested, removeToken) == CheckAuthStep(old(State()), storedToken, api)
    {
      if !Truthy(storedToken) {
        loading := false;
        isAuthenticated := false;
        return false, false;
      }
      requested := true;
      removeToken := false;
      loading := true;
      match api {
        case Success(u) =>
          user := Some(u);
          isAuthenticated := true;
          error := None;
        case Failure(_) =>
          user := None;
          isAuthenticated := false;
          removeToken := true;
      }
      loading := false;
    }

    method Login(api: Result<PublicUser, ApiError>) returns (r: Result<PublicUser, ApiError>)
      modifies this
      ensures (State(), r) == LoginStep(old(State()), api)
    {
      loading := true;
      error := None;
      match api {
        case Success(u) =>
          user := Some(u);
          isAuthenticated := true;
          r := Success(u);
        case Failure(err) =>
          error := Some(ErrorMessage(err, LoginFallback));
          r := Failure(err);
      }
      loading := false;
    }

    method Register(api: Option<ApiError>) returns (rethrown: Option<ApiError>)
      modifies this
      ensures (State(), rethrown) == RegisterStep(old(State()), api)
    {
      loading := true;
      error := None;
      rethrown := None;
      if api.Some? {
        error := Some(ErrorMessage(api.value, RegisterFallback));
        rethrown := api;
      }
      loading := false;
    }

    method Logout(api: Option<ApiError>)
      modifies this
      ensures State() == LogoutStep(old(State()), api)
    {
      loading := true;
      match api {
        case None =>
          user := None;
          isAuthenticated := false;
          error := None;
        case Some(err) =>
          error := Some(if err.error != "" then err.error else LogoutFallback);
      }
      loading := false;
    }
  }
}
