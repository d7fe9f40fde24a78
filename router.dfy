/**
 * The route table and the navigation guard (js-exam/src/router/index.ts).
 * The guard may restore the session from storage, then decides between
 * sending the visitor to the login page, to the home page, or on.
 */
module Router {
  import opened Wrappers
  import opened Js
  import opened Types
  import opened Http
  import opened Auth

  /** A route's `meta`; a flag the route does not set reads false. */
  datatype Meta = Meta(requiresAuth: bool, requiresGuest: bool)

  datatype Route = Route(path: string, name: string, meta: Meta)

  const Routes: seq<Route> := [
    Route("/", "home", Meta(false, false)),
    Route("/login", "login", Meta(false, true)),
    Route("/register", "register", Meta(false, true)),
    Route("/todos", "todos", Meta(true, false)),
    Route("/categories/create", "createCategory", Meta(true, false)),
    Route("/priorities/create", "createPriority", Meta(true, false))]

  /** What the guard passes to `next`. */
  datatype Decision =
    | ToLogin(redirect: string)   // `{ name: 'login', query: { redirect } }`
    | ToHome                      // `{ name: 'home' }`
    | Proceed                     // `next()`

  /**
   * The guard's choice for a target with `meta` and path `fullPath`: a
   * protected page sends a guest to the login page, remembering where they
   * were going; a guest-only page sends a signed-in user home.
   */
  function Decide(meta: Meta, isAuthenticated: bool, fullPath: string): (d: Decision)
    ensures d.ToLogin? <==> meta.requiresAuth && !isAuthenticated
    ensures d.ToLogin? ==> d.redirect == fullPath
    ensures d.ToHome? <==> !(meta.requiresAuth && !isAuthenticated) && meta.requiresGuest && isAuthenticated
    ensures d.Proceed? ==> (meta.requiresAuth ==> isAuthenticated) && (meta.requiresGuest ==> !isAuthenticated)
  {
    if meta.requiresAuth && !isAuthenticated then ToLogin(fullPath)
    else if meta.requiresGuest && isAuthenticated then ToHome
    else Proceed
  }

  /** No route of the table is both protected and guest-only. */
  lemma NoRouteNeedsBoth(r: Route)
    requires r in Routes
    ensures !(r.meta.requiresAuth && r.meta.requiresGuest)
  {
  }

  /** For the routes of the table the guard lets a visitor on exactly when the route's flag allows them. */
  lemma TableDecisions(r: Route, isAuthenticated: bool, fullPath: string)
    requires r in Routes
    ensures Decide(r.meta, isAuthenticated, fullPath) ==
      if r.meta.requiresAuth then (if isAuthenticated then Proceed else ToLogin(fullPath))
      else if r.meta.requiresGuest then (if isAuthenticated then ToHome else Proceed)
      else Proceed
  {
    NoRouteNeedsBoth(r);
  }

  /** The home page is never redirected. */
  lemma RootNeverRedirected(isAuthenticated: bool, fullPath: string)
    ensures Routes[0].path == "/"
    ensures Decide(Routes[0].meta, isAuthenticated, fullPath) == Proceed
  {
  }

  /** The session after the guard's first step: a restore only when signed out while storage holds a truthy token. */
  function Guarded(s: Session, claims: Option<Claims>, now: int, response: Response<JwtResponse>, refreshClaims: Option<Claims>): (r: Session)
    ensures Consistent(r) || r == s
    ensures s.isAuthenticated || !Truthy(s.storedToken) ==> r == s
    ensures !s.isAuthenticated && Truthy(s.storedToken) ==> r == AfterRestore(s, claims, now, response, refreshClaims)
    ensures !s.isAuthenticated && Truthy(s.storedToken) ==> Consistent(r)
  {
    if !s.isAuthenticated && Truthy(s.storedToken) then AfterRestore(s, claims, now, response, refreshClaims) else s
  }

  /** Over a state the store's own actions produced, the guard never restores. */
  lemma GuardIdleWhenConsistent(s: Session, claims: Option<Claims>, now: int, response: Response<JwtResponse>, refreshClaims: Option<Claims>)
    requires Consistent(s)
    ensures Guarded(s, claims, now, response, refreshClaims) == s
  {
  }

  /**
   * When storage gained an expired token the store did not write (another
   * tab signed in), the restore asks for a refresh, which finds no token in
   * memory: the visitor is signed out, storage is emptied, no request is
   * made and `isLoading` stays set.
   */
  lemma GuardExpiredOutsideToken(s: Session, c: Claims, now: int, response: Response<JwtResponse>, refreshClaims: Option<Claims>)
    requires s.isAuthenticated == Truthy(s.token)
    requires !s.isAuthenticated && Truthy(s.storedToken) && Truthy(s.storedRefreshToken)
    requires Expired(c, now)
    ensures Guarded(s, Some(c), now, response, refreshClaims) == Cleared(s).(isLoading := true)
  {
    RefreshWithoutTokens(s, response, refreshClaims);
  }

  /** `router.beforeEach` for a target with `meta` and path `fullPath`. */
  method BeforeEach(auth: AuthStore, meta: Meta, fullPath: string, claims: Option<Claims>, now: int, response: Response<JwtResponse>, refreshClaims: Option<Claims>) returns (d: Decision)
    modifies auth
    ensures auth.State() == Guarded(old(auth.State()), claims, now, response, refreshClaims)
    ensures d == Decide(meta, auth.isAuthenticated, fullPath)
  {
    if !auth.isAuthenticated && Truthy(auth.storedToken) {
      auth.InitializeAuthFromStorage(claims, now, response, refreshClaims);
    }
    if meta.requiresAuth && !auth.isAuthenticated {
      d := ToLogin(fullPath);
    } else if meta.requiresGuest && auth.isAuthenticated {
      d := ToHome;
    } else {
      d := Proceed;
    }
  }
}
