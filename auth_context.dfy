/** The authentication store of `src/context/AuthContext.js`: the current
    user, the authenticated and loading flags, the last error, and the
    browser storage keys `token` and `user` that survive a reload. */
module AuthContext {
  import opened Js
  import opened Json
  import opened BrowserStorage

  const TokenKey := "token"
  const UserKey := "user"
  const SignupFailedMessage := "Error during signup"
  const SigninFailedMessage := "Authentication failed"

  /** The answer to the background `GET /api/auth/me`: a response (with or
      without a user) or a failure, with the HTTP status when there was one. */
  datatype MeOutcome = MeOk(user: Option<User>) | MeFailed(status: Option<int>)

  /** The answer to `POST /api/auth/signin`. */
  datatype SignInOutcome =
    | SignInOk(token: Option<string>, user: Option<User>)
    | SignInFailed(message: Option<string>)

  /** The answer to `POST /api/auth/signup`. */
  datatype SignUpOutcome = SignUpOk | SignUpFailed(message: Option<string>)

  /** What the stored `user` text parses to; an absent or empty text reads as
      falsy, as the loader's truthiness test makes it. */
  function StoredUser(items: map<string, string>, json: JsonCodec): Parsed<User> {
    ParseStored(if UserKey in items then Some(items[UserKey]) else None, json.parseUser)
  }

  /** The storage token is present and not empty. */
  predicate HasToken(items: map<string, string>) {
    TokenKey in items && Truthy(items[TokenKey])
  }

  class AuthSession {
    const storage: LocalStorage
    const json: JsonCodec
    var currentUser: Option<User>
    var isAuthenticated: bool
    var isLoading: bool
    var error: Option<string>
    /** Only ever written by the OAuth callback; AuthContext.js itself does
        not declare it. */
    var isInGoogleSignupFlow: bool
    /** The background `/api/auth/me` request is outstanding. */
    var meFetchPending: bool

    /** The provider's initial state, before the restore effect runs. */
    constructor (storage: LocalStorage, json: JsonCodec)
      ensures this.storage == storage && this.json == json
      ensures currentUser == None && !isAuthenticated && isLoading && error == None
      ensures !isInGoogleSignupFlow && !meFetchPending
    {
      this.storage := storage;
      this.json := json;
      currentUser := None;
      isAuthenticated := false;
      isLoading := true;
      error := None;
      isInGoogleSignupFlow := false;
      meFetchPending := false;
    }

    /** `loadUserFromStorage`: the parsed stored user, or nothing; a stored
        text that does not parse is removed from storage, and only that key. */
    method LoadUserFromStorage() returns (user: Option<User>)
      modifies storage
      ensures StoredUser(old(storage.items), json).Value? ==> user == Some(StoredUser(old(storage.items), json).value)
      ensures !StoredUser(old(storage.items), json).Value? ==> user == None
      ensures storage.items == if StoredUser(old(storage.items), json).Threw?
                               then old(storage.items) - {UserKey} else old(storage.items)
    {
      var text := storage.GetItem(UserKey);
      var parsed := ParseStored(text, json.parseUser);
      match parsed
      case Value(u) => user := Some(u);
      case Falsy => user := None;
      case Threw =>
        storage.RemoveItem(UserKey);
        user := None;
    }

    /** The startup effect: with a token the session is authenticated at once;
        a stored user becomes the current user, otherwise `/api/auth/me` is
        requested. Loading ends on every branch without waiting for it. */
    method Restore()
      modifies this, storage
      ensures !isLoading
      ensures error == old(error) && isInGoogleSignupFlow == old(isInGoogleSignupFlow)
      ensures !HasToken(old(storage.items)) ==>
        storage.items == old(storage.items) && currentUser == old(currentUser) &&
        isAuthenticated == old(isAuthenticated) && meFetchPending == old(meFetchPending)
      ensures HasToken(old(storage.items)) ==>
        isAuthenticated &&
        TokenKey in storage.items && storage.items[TokenKey] == old(storage.items)[TokenKey] &&
        (StoredUser(old(storage.items), json).Value? ==>
          currentUser == Some(StoredUser(old(storage.items), json).value) &&
          storage.items == old(storage.items) && meFetchPending == old(meFetchPending)) &&
        (!StoredUser(old(storage.items), json).Value? ==>
          currentUser == old(currentUser) && meFetchPending) &&
        storage.items == (if StoredUser(old(storage.items), json).Threw?
                          then old(storage.items) - {UserKey} else old(storage.items))
    {
      var token := storage.GetItem(TokenKey);
      if TruthyOpt(token) {
        isAuthenticated := true;
        var userData := LoadUserFromStorage();
        if userData.Some? {
          currentUser := userData;
        } else {
          meFetchPending := true;
        }
      }
      isLoading := false;
    }

    /** The answer to the background `/api/auth/me`: a returned user becomes
        current and is stored; a 401 removes the token and ends the session;
        any other failure changes nothing. */
    method MeResponse(outcome: MeOutcome)
      requires meFetchPending
      modifies this, storage
      ensures !meFetchPending
      ensures isLoading == old(isLoading) && error == old(error) && isInGoogleSignupFlow == old(isInGoogleSignupFlow)
      ensures outcome.MeOk? && outcome.user.Some? ==>
        currentUser == outcome.user && isAuthenticated == old(isAuthenticated) &&
        storage.items == old(storage.items)[UserKey := json.stringifyUser(outcome.user.value)]
      ensures outcome.MeOk? && outcome.user.None? ==>
        currentUser == old(currentUser) && isAuthenticated == old(isAuthenticated) && storage.items == old(storage.items)
      ensures outcome.MeFailed? && outcome.status == Some(401) ==>
        currentUser == old(currentUser) && !isAuthenticated && storage.items == old(storage.items) - {TokenKey}
      ensures outcome.MeFailed? && outcome.status != Some(401) ==>
        currentUser == old(currentUser) && isAuthenticated == old(isAuthenticated) && storage.items == old(storage.items)
    {
      meFetchPending := false;
      match outcome
      case MeOk(user) =>
        if user.Some? {
          currentUser := user;
          storage.SetItem(UserKey, json.stringifyUser(user.value));
        }
      case MeFailed(status) =>
        if status == Some(401) {
          storage.RemoveItem(TokenKey);
          isAuthenticated := false;
        }
    }

    /** `signUp`: the error is cleared first; a failure records the backend's
        message or the generic one and is reported to the caller. The session
        and storage are not touched. */
    method SignUp(outcome: SignUpOutcome) returns (ok: bool)
      modifies this
      ensures ok <==> outcome.SignUpOk?
      ensures ok ==> error == None
      ensures !ok ==> error == Some(OrDefault(outcome.message, SignupFailedMessage))
      ensures currentUser == old(currentUser) && isAuthenticated == old(isAuthenticated)
      ensures isLoading == old(isLoading) && isInGoogleSignupFlow == old(isInGoogleSignupFlow)
      ensures meFetchPending == old(meFetchPending)
    {
      error := None;
      match outcome
      case SignUpOk => ok := true;
      case SignUpFailed(message) =>
        error := Some(OrDefault(message, SignupFailedMessage));
        ok := false;
    }

    /** `signIn`: a response with a token stores it and authenticates; its user,
        when present, is stored and becomes current. A failure records the
        message or `Authentication failed` and leaves storage as it was. */
    method SignIn(outcome: SignInOutcome) returns (ok: bool)
      modifies this, storage
      ensures ok <==> outcome.SignInOk?
      ensures isLoading == old(isLoading) && isInGoogleSignupFlow == old(isInGoogleSignupFlow)
      ensures meFetchPending == old(meFetchPending)
      ensures ok ==> error == None
      ensures ok && !TruthyOpt(outcome.token) ==>
        storage.items == old(storage.items) && currentUser == old(currentUser) &&
        isAuthenticated == old(isAuthenticated)
      ensures ok && TruthyOpt(outcome.token) && outcome.user.None? ==>
        storage.items == old(storage.items)[TokenKey := outcome.token.value] &&
        currentUser == old(currentUser) && isAuthenticated
      ensures ok && TruthyOpt(outcome.token) && outcome.user.Some? ==>
        storage.items == old(storage.items)[TokenKey := outcome.token.value][UserKey := json.stringifyUser(outcome.user.value)] &&
        currentUser == outcome.user && isAuthenticated
      ensures !ok ==>
        error == Some(OrDefault(outcome.message, SigninFailedMessage)) &&
        storage.items == old(storage.items) && currentUser == old(currentUser) &&
        isAuthenticated == old(isAuthenticated)
    {
      error := None;
      match outcome
      case SignInOk(token, user) =>
        if TruthyOpt(token) {
          storage.SetItem(TokenKey, token.value);
          if user.Some? {
            storage.SetItem(UserKey, json.stringifyUser(user.value));
            currentUser := user;
          }
          isAuthenticated := true;
        }
        ok := true;
      case SignInFailed(message) =>
        error := Some(OrDefault(message, SigninFailedMessage));
        ok := false;
    }

    /** `signOut`: whatever the server answered, `token` and `user` are
        removed and the session becomes anonymous. */
    method SignOut(serverCallFailed: bool)
      modifies this, storage
      ensures storage.items == old(storage.items) - {TokenKey, UserKey}
      ensures currentUser == None && !isAuthenticated
      ensures isLoading == old(isLoading) && error == old(error)
      ensures isInGoogleSignupFlow == old(isInGoogleSignupFlow) && meFetchPending == old(meFetchPending)
    {
      storage.RemoveItem(TokenKey);
      storage.RemoveItem(UserKey);
      currentUser := None;
      isAuthenticated := false;
    }

    /** `updateUserData`: a given user becomes current and is stored; a falsy
        argument changes nothing. */
    method UpdateUserData(userData: Option<User>)
      modifies this, storage
      ensures userData.None? ==> storage.items == old(storage.items) && currentUser == old(currentUser)
      ensures userData.Some? ==>
        currentUser == userData && storage.items == old(storage.items)[UserKey := json.stringifyUser(userData.value)]
      ensures isAuthenticated == old(isAuthenticated) && isLoading == old(isLoading) && error == old(error)
      ensures isInGoogleSignupFlow == old(isInGoogleSignupFlow) && meFetchPending == old(meFetchPending)
    {
      if userData.Some? {
        currentUser := userData;
        storage.SetItem(UserKey, json.stringifyUser(userData.value));
      }
    }
  }
}
