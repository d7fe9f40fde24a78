/**
 * The session store (js-exam/src/stores/auth.ts). The three browser-storage
 * entries it owns ("todoAppToken", "todoAppRefreshToken", "todoAppUser")
 * are fields beside the in-memory state, because restoring a session and
 * the navigation guard read them back. What the account API answers, what
 * `jwtDecode` yields for a token (None when it throws) and the clock are
 * inputs. Each action is proved against a function on `Session`, and the
 * properties of the actions are lemmas about those functions.
 */
module Auth {
  import opened Wrappers
  import opened Js
  import opened Types
  import opened Http
  import AuthService
  import Todos

  const LoginFailed := "Login failed. Please try again."
  const RegistrationFailed := "Registration failed. Please try again."
  const SessionExpired := "Current session has expired. Please log in again."

  /** The store's state and its three storage entries; `None` in a `stored` field is a missing entry. */
  datatype Session = Session(
    token: Option<string>,
    refreshToken: Option<string>,
    user: Option<UserProfile>,
    isAuthenticated: bool,
    loginError: Option<string>,
    registerError: Option<string>,
    isLoading: bool,
    storedToken: Option<string>,
    storedRefreshToken: Option<string>,
    storedUser: Option<UserProfile>)

  /**
   * What every action keeps: the flag says whether a truthy token is held,
   * and a truthy stored token is only ever left behind by a signed-in store.
   */
  predicate Consistent(s: Session) {
    && s.isAuthenticated == Truthy(s.token)
    && (Truthy(s.storedToken) ==> s.isAuthenticated)
  }

  /** The state the store starts in, read from storage. */
  function Initial(storedToken: Option<string>, storedRefreshToken: Option<string>, storedUser: Option<UserProfile>): (r: Session)
    ensures Consistent(r)
    ensures r.isAuthenticated <==> Truthy(storedToken)
  {
    Session(Nullish(storedToken), Nullish(storedRefreshToken), storedUser, Truthy(storedToken),
      None, None, false, storedToken, storedRefreshToken, storedUser)
  }

  /** The state after `logoutCleanup`: signed out, both errors cleared, the storage entries removed. */
  function Cleared(s: Session): (r: Session)
    ensures Consistent(r) && !r.isAuthenticated
    ensures r.token.None? && r.refreshToken.None? && r.user.None?
    ensures r.loginError.None? && r.registerError.None?
    ensures r.storedToken.None? && r.storedRefreshToken.None? && r.storedUser.None?
    ensures r.isLoading == s.isLoading
  {
    s.(token := None, refreshToken := None, user := None, isAuthenticated := false,
       loginError := None, registerError := None,
       storedToken := None, storedRefreshToken := None, storedUser := None)
  }

  /**
   * The user record `_setUserAndToken` stores. `claims` is None when the
   * token is falsy or cannot be decoded; each claim, when truthy, wins over
   * the value the caller or the response supplied.
   */
  function ResolveUser(response: JwtResponse, email: Option<string>, claims: Option<Claims>): (u: UserProfile)
    ensures u.id == (if claims.Some? then OrOpt(claims.value.nameIdentifier, "") else "")
    ensures claims.Some? && Truthy(claims.value.emailAddress) ==> u.email == claims.value.emailAddress.value
    ensures !(claims.Some? && Truthy(claims.value.emailAddress)) ==> u.email == OrOpt(email, "")
    ensures claims.Some? && Truthy(claims.value.givenName) ==> u.firstName == claims.value.givenName
    ensures !(claims.Some? && Truthy(claims.value.givenName)) ==> u.firstName == Some(OrOpt(response.firstName, ""))
    ensures claims.Some? && Truthy(claims.value.surname) ==> u.lastName == claims.value.surname
    ensures !(claims.Some? && Truthy(claims.value.surname)) ==> u.lastName == Some(OrOpt(response.lastName, ""))
  {
    var email := OrOpt(email, "");
    var firstName := OrOpt(response.firstName, "");
    var lastName := OrOpt(response.lastName, "");
    match claims
    case None => UserProfile("", email, Some(firstName), Some(lastName))
    case Some(c) =>
      UserProfile(OrOpt(c.nameIdentifier, ""), OrOpt(c.emailAddress, email),
        Some(OrOpt(c.givenName, firstName)), Some(OrOpt(c.surname, lastName)))
  }

  /** A token is accepted when it is truthy, decodes, and names its subject. */
  predicate Verified(token: Option<string>, claims: Option<Claims>): (r: bool)
    ensures r ==> token.Some? && token.value != ""
    ensures r ==> claims.Some? && claims.value.nameIdentifier.Some? && claims.value.nameIdentifier.value != ""
  {
    Truthy(token) && claims.Some? && Truthy(claims.value.nameIdentifier)
  }

  /**
   * The state after `_setUserAndToken(response, email)`, `claims` being
   * what decoding the response's token yields. A token that is not accepted
   * signs the store out, yet a user record is still stored and the token
   * entries are written as empty strings.
   */
  function WithUserAndToken(s: Session, response: JwtResponse, email: Option<string>, claims: Option<Claims>): (r: Session)
    ensures Consistent(r)
    ensures r.isAuthenticated <==> Verified(response.token, claims)
    ensures r.user.Some? && r.storedUser == r.user
    ensures r.user.value == ResolveUser(response, email, if Truthy(response.token) then claims else None)
    ensures r.isAuthenticated ==>
      && r.token == response.token && r.storedToken == response.token
      && r.user.value.id == claims.value.nameIdentifier.value
    ensures !r.isAuthenticated ==> r.token.None? && r.storedToken == Some("") && r.user.value.id == ""
    ensures r.isLoading == s.isLoading
  {
    var token := Nullish(response.token);
    var held := s.(token := token, refreshToken := Nullish(response.refreshToken), isAuthenticated := token.Some?);
    var decoded := if token.Some? then claims else None;
    var kept := if Verified(token, decoded) then held else Cleared(held);
    var user := ResolveUser(response, email, decoded);
    kept.(user := Some(user),
          storedToken := Some(OrOpt(kept.token, "")),
          storedRefreshToken := Some(OrOpt(kept.refreshToken, "")),
          storedUser := Some(user))
  }

  /** The state and the result of `login(credentials)`, `response` being what the HTTP client returned. */
  function AfterLogin(s: Session, credentials: LoginCredentials, response: Response<JwtResponse>, claims: Option<Claims>): (r: (Session, bool))
    ensures Consistent(r.0) && !r.0.isLoading
    ensures r.1 <==> response.Success?
  {
    var started := s.(isLoading := true, loginError := None);
    match AuthService.Login(response)
    case Ok(jwt) => (WithUserAndToken(started, jwt, credentials.email, claims).(isLoading := false), true)
    case Err(message) => (Cleared(started).(loginError := Some(Or(message, LoginFailed)), isLoading := false), false)
  }

  /** The state and the result of `register(userInfo)`. */
  function AfterRegister(s: Session, userInfo: RegisterInfo, response: Response<JwtResponse>, claims: Option<Claims>): (r: (Session, bool))
    ensures Consistent(r.0) && !r.0.isLoading
    ensures r.1 <==> response.Success?
  {
    var started := s.(isLoading := true, registerError := None);
    match AuthService.Register(response)
    case Ok(jwt) => (WithUserAndToken(started, jwt, userInfo.email, claims).(isLoading := false), true)
    case Err(message) => (Cleared(started).(registerError := Some(Or(message, RegistrationFailed)), isLoading := false), false)
  }

  /**
   * `this.user?.email || undefined`: never an empty string, and reading it
   * back with `|| ""` gives the held user's email.
   */
  function EmailOf(user: Option<UserProfile>): (r: Option<string>)
    ensures r.Some? <==> Truthy(r)
    ensures OrOpt(r, "") == (if user.Some? then user.value.email else "")
  {
    if user.Some? && user.value.email != "" then Some(user.value.email) else None
  }

  /**
   * The state and the result of `refreshTokenAction()`. Without both
   * in-memory tokens the store is signed out at once and `isLoading` is
   * left set.
   */
  function AfterRefresh(s: Session, response: Response<JwtResponse>, claims: Option<Claims>): (r: (Session, bool))
    ensures Consistent(r.0)
    ensures r.1 <==> Truthy(s.token) && Truthy(s.refreshToken) && response.Success?
  {
    var started := s.(isLoading := true);
    if !Truthy(s.token) || !Truthy(s.refreshToken) then (Cleared(started), false)
    else
      match AuthService.RefreshToken(response)
      case Ok(jwt) => (WithUserAndToken(started, jwt, EmailOf(s.user), claims).(isLoading := false), true)
      case Err(_) => (Cleared(started).(loginError := Some(SessionExpired), isLoading := false), false)
  }

  /** `decoded.exp && decoded.exp * 1000 < Date.now()`, with `now` in epoch milliseconds. */
  predicate Expired(claims: Claims, now: int): (r: bool)
    ensures r ==> claims.exp.Some? && claims.exp.value != 0
    ensures claims.exp.Some? && claims.exp.value != 0 ==> (r <==> claims.exp.value * 1000 < now)
  {
    claims.exp.Some? && claims.exp.value != 0 && claims.exp.value * 1000 < now
  }

  /**
   * The state after `initializeAuthFromStorage()`. `claims` is what decoding
   * the stored token yields; `response` and `refreshClaims` feed the refresh
   * started for an expired token, taken here as run to completion. A token
   * without a subject signs the store out and then signs it back in, with an
   * empty user id.
   */
  function AfterRestore(s: Session, claims: Option<Claims>, now: int, response: Response<JwtResponse>, refreshClaims: Option<Claims>): (r: Session)
    ensures Consistent(r)
  {
    if !Truthy(s.storedToken) || claims.None? then Cleared(s)
    else if Expired(claims.value, now) then
      if Truthy(s.storedRefreshToken) then AfterRefresh(s, response, refreshClaims).0 else Cleared(s)
    else
      var c := claims.value;
      var user := UserProfile(OrOpt(c.nameIdentifier, ""), OrOpt(c.emailAddress, ""),
        Some(OrOpt(c.givenName, "")), Some(OrOpt(c.surname, "")));
      var kept := if Truthy(c.nameIdentifier) then s else Cleared(s);
      kept.(user := Some(user), token := s.storedToken, refreshToken := s.storedRefreshToken,
            isAuthenticated := true, storedUser := Some(user))
  }

  /** A name part as a template literal renders it: a missing one reads "undefined". */
  function Render(part: Option<string>): string {
    if part.Some? then part.value else "undefined"
  }

  /** `userDisplayName`: "Guest" exactly when no user is held. */
  function DisplayName(user: Option<UserProfile>): (r: string)
    ensures r == "Guest" <==> user.None?
    ensures user.Some? ==> r == Render(user.value.firstName) + " " + Render(user.value.lastName)
  {
    if user.None? then "Guest"
    else
      var r := Render(user.value.firstName) + " " + Render(user.value.lastName);
      assert r[|Render(user.value.firstName)|] == ' ';
      assert forall k :: 0 <= k < |"Guest"| ==> "Guest"[k] != ' ';
      r
  }

  const BearerPrefix := "Bearer "

  /** `bearerToken`: the header value for a truthy token, from which the token reads back unchanged. */
  function BearerToken(token: Option<string>): (r: Option<string>)
    ensures r.Some? <==> Truthy(token)
    ensures r.Some? ==> |r.value| > |BearerPrefix| && r.value[..|BearerPrefix|] == BearerPrefix && r.value[|BearerPrefix|..] == token.value
  {
    if Truthy(token) then Some(BearerPrefix + token.value) else None
  }

  /** A failed login shows the account client's message; the store's own default is never reached. */
  lemma LoginFailureMessage(s: Session, credentials: LoginCredentials, response: Response<JwtResponse>, claims: Option<Claims>)
    requires response.Failure?
    ensures var r := AfterLogin(s, credentials, response, claims).0;
      && r.loginError == Some(AuthService.ErrorMessage(response.error, AuthService.LoginDefault))
      && !r.isAuthenticated && r.user.None? && r.token.None? && r.refreshToken.None?
      && r.storedToken.None? && r.storedRefreshToken.None? && r.storedUser.None?
  {
  }

  /** A login that succeeds over HTTP signs in exactly when the token is accepted, yet reports success either way. */
  lemma LoginSignsInIff(s: Session, credentials: LoginCredentials, jwt: JwtResponse, claims: Option<Claims>)
    ensures var r := AfterLogin(s, credentials, Success(jwt), claims);
      && r.1
      && (r.0.isAuthenticated <==> Verified(jwt.token, claims))
      && r.0.user.Some?
  {
  }

  /** A successful login stores the response as `_setUserAndToken` does, with the entered email as the fallback. */
  lemma LoginSuccess(s: Session, credentials: LoginCredentials, jwt: JwtResponse, claims: Option<Claims>)
    ensures AfterLogin(s, credentials, Success(jwt), claims) ==
      (WithUserAndToken(s.(isLoading := true, loginError := None), jwt, credentials.email, claims).(isLoading := false), true)
  {
  }

  /** A successful registration stores the response as `_setUserAndToken` does, with the registered email as the fallback. */
  lemma RegisterSuccess(s: Session, userInfo: RegisterInfo, jwt: JwtResponse, claims: Option<Claims>)
    ensures AfterRegister(s, userInfo, Success(jwt), claims) ==
      (WithUserAndToken(s.(isLoading := true, registerError := None), jwt, userInfo.email, claims).(isLoading := false), true)
  {
  }

  /** When the accepted token carries no email claim, the registered email becomes the user's email. */
  lemma RegisterEmailFallback(s: Session, userInfo: RegisterInfo, jwt: JwtResponse, c: Claims)
    requires Verified(jwt.token, Some(c)) && !Truthy(c.emailAddress)
    ensures var r := AfterRegister(s, userInfo, Success(jwt), Some(c)).0;
      r.isAuthenticated && r.user.value.email == OrOpt(userInfo.email, "")
  {
    RegisterSuccess(s, userInfo, jwt, Some(c));
  }

  /** A failed registration shows the account client's message and signs the store out. */
  lemma RegisterFailureMessage(s: Session, userInfo: RegisterInfo, response: Response<JwtResponse>, claims: Option<Claims>)
    requires response.Failure?
    ensures var r := AfterRegister(s, userInfo, response, claims).0;
      && r.registerError == Some(AuthService.ErrorMessage(response.error, AuthService.RegisterDefault))
      && !r.isAuthenticated && r.loginError.None?
  {
  }

  /** Without both in-memory tokens no request is made: the response plays no part, and the store stays loading. */
  lemma RefreshWithoutTokens(s: Session, response: Response<JwtResponse>, claims: Option<Claims>)
    requires !Truthy(s.token) || !Truthy(s.refreshToken)
    ensures AfterRefresh(s, response, claims) == (Cleared(s).(isLoading := true), false)
  {
  }

  /**
   * With both in-memory tokens, an accepted refresh stores the new token
   * pair and user exactly as a login does, keeping the held user's email as
   * the fallback, and reports success.
   */
  lemma RefreshSuccess(s: Session, jwt: JwtResponse, claims: Option<Claims>)
    requires Truthy(s.token) && Truthy(s.refreshToken)
    ensures AfterRefresh(s, Success(jwt), claims) ==
      (WithUserAndToken(s.(isLoading := true), jwt, EmailOf(s.user), claims).(isLoading := false), true)
  {
  }

  /** A rejected refresh signs the store out with the session-expired message. */
  lemma RefreshFailure(s: Session, response: Response<JwtResponse>, claims: Option<Claims>)
    requires Truthy(s.token) && Truthy(s.refreshToken) && response.Failure?
    ensures var r := AfterRefresh(s, response, claims);
      !r.1 && !r.0.isAuthenticated && r.0.loginError == Some(SessionExpired) && !r.0.isLoading
  {
  }

  /** A refresh falls back to the held user's email when the new token carries none. */
  lemma RefreshKeepsEmail(s: Session, jwt: JwtResponse, c: Claims)
    requires Truthy(s.token) && Truthy(s.refreshToken)
    requires s.user.Some? && s.user.value.email != ""
    requires Verified(jwt.token, Some(c)) && !Truthy(c.emailAddress)
    ensures AfterRefresh(s, Success(jwt), Some(c)).0.user.value.email == s.user.value.email
  {
  }

  /** No truthy stored token, or one that cannot be decoded: signed out. */
  lemma RestoreWithoutToken(s: Session, claims: Option<Claims>, now: int, response: Response<JwtResponse>, refreshClaims: Option<Claims>)
    requires !Truthy(s.storedToken) || claims.None?
    ensures AfterRestore(s, claims, now, response, refreshClaims) == Cleared(s)
  {
  }

  /** An unexpired token naming its subject signs in as that subject, keeping the stored token. */
  lemma RestoreValid(s: Session, c: Claims, now: int, response: Response<JwtResponse>, refreshClaims: Option<Claims>)
    requires Truthy(s.storedToken) && !Expired(c, now) && Truthy(c.nameIdentifier)
    ensures var r := AfterRestore(s, Some(c), now, response, refreshClaims);
      && r.isAuthenticated && r.token == s.storedToken && r.storedToken == s.storedToken
      && r.user == r.storedUser && r.user.value.id == c.nameIdentifier.value
  {
  }

  /**
   * An unexpired token without a subject still ends signed in, with an
   * empty user id, while its storage entries have been removed.
   */
  lemma RestoreSubjectless(s: Session, c: Claims, now: int, response: Response<JwtResponse>, refreshClaims: Option<Claims>)
    requires Truthy(s.storedToken) && !Expired(c, now) && !Truthy(c.nameIdentifier)
    ensures var r := AfterRestore(s, Some(c), now, response, refreshClaims);
      && r.isAuthenticated && r.token == s.storedToken
      && r.user.Some? && r.user.value.id == ""
      && r.storedToken.None? && r.storedRefreshToken.None?
  {
  }

  /**
   * A decodable token that has expired is refreshed when a truthy refresh
   * token is stored, the session then being what the refresh leaves;
   * otherwise the store is signed out.
   */
  lemma RestoreExpired(s: Session, c: Claims, now: int, response: Response<JwtResponse>, refreshClaims: Option<Claims>)
    requires Truthy(s.storedToken) && Expired(c, now)
    ensures AfterRestore(s, Some(c), now, response, refreshClaims) ==
      if Truthy(s.storedRefreshToken) then AfterRefresh(s, response, refreshClaims).0 else Cleared(s)
  {
  }

  /** Once expired, a token stays expired as the clock moves on. */
  lemma ExpiredStaysExpired(c: Claims, now: int, later: int)
    requires Expired(c, now) && now <= later
    ensures Expired(c, later)
  {
  }

  /** The pinia store `auth` together with its three storage entries. */
  class AuthStore {
    var token: Option<string>
    var refreshToken: Option<string>
    var user: Option<UserProfile>
    var isAuthenticated: bool
    var loginError: Option<string>
    var registerError: Option<string>
    var isLoading: bool
    var storedToken: Option<string>
    var storedRefreshToken: Option<string>
    var storedUser: Option<UserProfile>

    function State(): Session
      reads this
    {
      Session(token, refreshToken, user, isAuthenticated, loginError, registerError, isLoading,
        storedToken, storedRefreshToken, storedUser)
    }

    /** The store as created over what storage holds; `storedUser` is the parsed "todoAppUser" entry. */
    constructor (storedToken: Option<string>, storedRefreshToken: Option<string>, storedUser: Option<UserProfile>)
      ensures State() == Initial(storedToken, storedRefreshToken, storedUser)
    {
      token := Nullish(storedToken);
      refreshToken := Nullish(storedRefreshToken);
      user := storedUser;
      isAuthenticated := Truthy(storedToken);
      loginError, registerError := None, None;
      isLoading := false;
      this.storedToken := storedToken;
      this.storedRefreshToken := storedRefreshToken;
      this.storedUser := storedUser;
    }

    function UserDisplayName(): string
      reads this
    {
      DisplayName(user)
    }

    function Bearer(): Option<string>
      reads this
    {
      BearerToken(token)
    }

    method LogoutCleanup()
      modifies this
      ensures State() == Cleared(old(State()))
    {
      token := None;
      refreshToken := None;
      user := None;
      isAuthenticated := false;
      loginError := None;
      registerError := None;
      storedToken := None;
      storedRefreshToken := None;
      storedUser := None;
    }

    method SetUserAndToken(jwtResponse: JwtResponse, emailUsed: Option<string>, claims: Option<Claims>)
      modifies this
      ensures State() == WithUserAndToken(old(State()), jwtResponse, emailUsed, claims)
    {
      token := Nullish(jwtResponse.token);
      refreshToken := Nullish(jwtResponse.refreshToken);
      isAuthenticated := token.Some?;
      var userId := "";
      var email := OrOpt(emailUsed, "");
      var firstName := OrOpt(jwtResponse.firstName, "");
      var lastName := OrOpt(jwtResponse.lastName, "");
      if token.Some? {
        match claims {
          case Some(decoded) =>
            userId := OrOpt(decoded.nameIdentifier, "");
            email := OrOpt(decoded.emailAddress, email);
            firstName := OrOpt(decoded.givenName, firstName);
            lastName := OrOpt(decoded.surname, lastName);
            if userId == "" {
              LogoutCleanup();
            }
          case None =>
            LogoutCleanup();
        }
      } else {
        LogoutCleanup();
      }
      user := Some(UserProfile(userId, email, Some(firstName), Some(lastName)));
      storedToken := Some(OrOpt(token, ""));
      storedRefreshToken := Some(OrOpt(refreshToken, ""));
      storedUser := user;
    }

    method Login(credentials: LoginCredentials, response: Response<JwtResponse>, claims: Option<Claims>) returns (ok: bool)
      modifies this
      ensures (State(), ok) == AfterLogin(old(State()), credentials, response, claims)
    {
      isLoading := true;
      loginError := None;
      match AuthService.Login(response) {
        case Ok(jwt) =>
          SetUserAndToken(jwt, credentials.email, claims);
          ok := true;
        case Err(message) =>
          LogoutCleanup();
          loginError := Some(Or(message, LoginFailed));
          ok := false;
      }
      isLoading := false;
    }

    method Register(userInfo: RegisterInfo, response: Response<JwtResponse>, claims: Option<Claims>) returns (ok: bool)
      modifies this
      ensures (State(), ok) == AfterRegister(old(State()), userInfo, response, claims)
    {
      isLoading := true;
      registerError := None;
      match AuthService.Register(response) {
        case Ok(jwt) =>
          SetUserAndToken(jwt, userInfo.email, claims);
          ok := true;
        case Err(message) =>
          LogoutCleanup();
          registerError := Some(Or(message, RegistrationFailed));
          ok := false;
      }
      isLoading := false;
    }

    method RefreshTokenAction(response: Response<JwtResponse>, claims: Option<Claims>) returns (ok: bool)
      modifies this
      ensures (State(), ok) == AfterRefresh(old(State()), response, claims)
    {
      isLoading := true;
      var currentToken := token;
      var currentRefreshToken := refreshToken;
      if !Truthy(currentToken) || !Truthy(currentRefreshToken) {
        LogoutCleanup();
        return false;
      }
      match AuthService.RefreshToken(response) {
        case Ok(jwt) =>
          SetUserAndToken(jwt, EmailOf(user), claims);
          isLoading := false;
          ok := true;
        case Err(_) =>
          LogoutCleanup();
          loginError := Some(SessionExpired);
          isLoading := false;
          ok := false;
      }
    }

    /** Signs out and empties the resource cache. */
    method Logout(todos: Todos.TodoStore)
      modifies this, todos
      ensures State() == Cleared(old(State()))
      ensures todos.State() == Todos.Emptied(old(todos.State()))
    {
      LogoutCleanup();
      todos.ClearUserTodosAndCategories();
    }

    method InitializeAuthFromStorage(claims: Option<Claims>, now: int, response: Response<JwtResponse>, refreshClaims: Option<Claims>)
      modifies this
      ensures State() == AfterRestore(old(State()), claims, now, response, refreshClaims)
    {
      var storedAccess := storedToken;
      var storedRefresh := storedRefreshToken;
      if !Truthy(storedAccess) {
        LogoutCleanup();
        return;
      }
      match claims {
        case None =>
          LogoutCleanup();
        case Some(decoded) =>
          if Expired(decoded, now) {
            if Truthy(storedRefresh) {
              var _ := RefreshTokenAction(response, refreshClaims);
            } else {
              LogoutCleanup();
            }
            return;
          }
          var userId := OrOpt(decoded.nameIdentifier, "");
          if userId == "" {
            LogoutCleanup();
          }
          user := Some(UserProfile(userId, OrOpt(decoded.emailAddress, ""),
            Some(OrOpt(decoded.givenName, "")), Some(OrOpt(decoded.surname, ""))));
          token := storedAccess;
          refreshToken := storedRefresh;
          isAuthenticated := true;
          storedUser := user;
      }
    }
  }
}
