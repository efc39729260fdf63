/** The web UI's authentication store: the signed-in user, their token and roles,
    and the browser storage that keeps the token across reloads. The login call to
    the server is a parameter: its outcome. */
module AuthStore {
  import opened Wrappers

  datatype User = User(id: int, email: string, displayName: Option<string>, createdAt: string)
  datatype Role = Role(id: int, name: string, description: Option<string>)
  datatype LoginResponse = LoginResponse(token: string, user: User, roles: seq<Role>)

  /** The storage key of the token. */
  const TokenKey: string := "authToken"

  /** `localStorage.getItem(key)`: null when absent. */
  function GetItem(storage: map<string, string>, key: string): Option<string> {
    if key in storage then Some(storage[key]) else None
  }

  /** The store's observable state. */
  datatype State = State(user: Option<User>, token: Option<string>, roles: seq<Role>,
                         isAuthenticated: bool, isLoading: bool, storage: map<string, string>)

  /** The in-memory token mirrors the stored one, and a signed-in store has a token. */
  predicate Consistent(s: State) {
    s.token == GetItem(s.storage, TokenKey) && (s.isAuthenticated ==> s.token.Some?)
  }

  /** The state when the store is created over the browser's storage. */
  function Initial(storage: map<string, string>): (s: State)
    ensures s.isAuthenticated <==> TokenKey in storage && storage[TokenKey] != ""
    ensures s.token == GetItem(storage, TokenKey) && s.user.None? && s.roles == [] && !s.isLoading
    ensures Consistent(s)
  {
    var token := GetItem(storage, TokenKey);
    State(None, token, [], token.Some? && token.value != "", false, storage)
  }

  /** `logout` and `clearAuth`: the token leaves storage and the store. */
  function SignedOut(s: State): (r: State)
    ensures r.user.None? && r.token.None? && r.roles == [] && !r.isAuthenticated
    ensures TokenKey !in r.storage && r.storage == s.storage - {TokenKey}
    ensures r.isLoading == s.isLoading
    ensures Consistent(r)
  {
    State(None, None, [], false, s.isLoading, s.storage - {TokenKey})
  }

  /** `setUser`, and the success path of `login` before its loading flag. */
  function SignedIn(s: State, user: User, token: string, roles: seq<Role>): (r: State)
    ensures r.user == Some(user) && r.token == Some(token) && r.roles == roles && r.isAuthenticated
    ensures r.storage == s.storage[TokenKey := token]
    ensures r.isLoading == s.isLoading
    ensures Consistent(r)
  {
    State(Some(user), Some(token), roles, true, s.isLoading, s.storage[TokenKey := token])
  }

  /** `login` with the server's outcome: on success the store signs in and stops
      loading; on failure only the loading flag is reset. */
  function AfterLogin(s: State, outcome: Result<LoginResponse, string>): (r: State)
    ensures !r.isLoading
    ensures outcome.Failure? ==> r == s.(isLoading := false)
    ensures outcome.Success? ==>
              r == SignedIn(s, outcome.value.user, outcome.value.token, outcome.value.roles).(isLoading := false)
  {
    match outcome
    case Success(response) => SignedIn(s, response.user, response.token, response.roles).(isLoading := false)
    case Failure(_) => s.(isLoading := false)
  }

  /** Signing out twice is signing out once. */
  lemma SignedOutIdempotent(s: State)
    ensures SignedOut(SignedOut(s)) == SignedOut(s)
  {
  }

  /** Every transition keeps the store consistent with its storage. */
  lemma TransitionsKeepConsistent(s: State, user: User, token: string, roles: seq<Role>,
                                  outcome: Result<LoginResponse, string>)
    requires Consistent(s)
    ensures Consistent(SignedOut(s)) && Consistent(SignedIn(s, user, token, roles))
    ensures Consistent(AfterLogin(s, outcome))
  {
  }

  /** After signing out, a reload starts signed out. */
  lemma ReloadAfterSignOut(s: State)
    ensures !Initial(SignedOut(s).storage).isAuthenticated
    ensures Initial(SignedOut(s).storage).token.None?
  {
  }

  /** After signing in with a non-empty token, a reload starts authenticated with it. */
  lemma ReloadAfterSignIn(s: State, user: User, token: string, roles: seq<Role>)
    requires token != ""
    ensures Initial(SignedIn(s, user, token, roles).storage).isAuthenticated
    ensures Initial(SignedIn(s, user, token, roles).storage).token == Some(token)
  {
  }

  /** The zustand store. */
  class Store {
    var user: Option<User>
    var token: Option<string>
    var roles: seq<Role>
    var isAuthenticated: bool
    var isLoading: bool
    /** `localStorage`. */
    var storage: map<string, string>

    function Current(): State
      reads this
    {
      State(user, token, roles, isAuthenticated, isLoading, storage)
    }

    constructor(browserStorage: map<string, string>)
      ensures Current() == Initial(browserStorage)
    {
      user := None;
      token := GetItem(browserStorage, TokenKey);
      roles := [];
      isAuthenticated := GetItem(browserStorage, TokenKey).Some? && browserStorage[TokenKey] != "";
      isLoading := false;
      storage := browserStorage;
    }

    /** `login(email, password)`; the server's answer is `outcome`, and a failure is
        rethrown to the caller. */
    method Login(email: string, password: string, outcome: Result<LoginResponse, string>)
      returns (thrown: Option<string>)
      modifies this
      ensures Current() == AfterLogin(old(Current()), outcome)
      ensures thrown.Some? <==> outcome.Failure?
      ensures outcome.Failure? ==> thrown == Some(outcome.error)
    {
      isLoading := true;
      match outcome {
        case Success(response) =>
          storage := storage[TokenKey := response.token];
          user, token, roles := Some(response.user), Some(response.token), response.roles;
          isAuthenticated, isLoading := true, false;
          thrown := None;
        case Failure(error) =>
          isLoading := false;
          thrown := Some(error);
      }
    }

    /** `logout`. */
    method Logout()
      modifies this
      ensures Current() == SignedOut(old(Current()))
    {
      storage := storage - {TokenKey};
      user, token, roles, isAuthenticated := None, None, [], false;
    }

    /** `setUser(user, token, roles)`. */
    method SetUser(newUser: User, newToken: string, newRoles: seq<Role>)
      modifies this
      ensures Current() == SignedIn(old(Current()), newUser, newToken, newRoles)
    {
      storage := storage[TokenKey := newToken];
      user, token, roles, isAuthenticated := Some(newUser), Some(newToken), newRoles, true;
    }

    /** `clearAuth`: the same transition as `logout`. */
    method ClearAuth()
      modifies this
      ensures Current() == SignedOut(old(Current()))
    {
      storage := storage - {TokenKey};
      user, token, roles, isAuthenticated := None, None, [], false;
    }
  }
}
