/**
 * The route table and its guard (src/App.tsx). Authentication, for the guard,
 * is the presence of the `spotify_access_token` key in local storage, given
 * here as a map; the session held by the provider plays no part.
 */
module Routes {

  const TokenKey: string := "spotify_access_token"
  const LoginPath: string := "/login"

  /** What a route renders. */
  datatype View =
    | LoginPage
    | CallbackPage
    | StatsPage
    | CreatorStatsPage
    | Redirect(to: string, replace: bool)  // `<Navigate to=... replace />`
    | NoMatch                              // no route matches: nothing is rendered

  /** `isAuthenticated`: the token key is stored, whatever its value (even ""). */
  predicate IsAuthenticated(storage: map<string, string>)
  {
    TokenKey in storage
  }

  /** A stored token counts even when its value is the empty string. */
  lemma EmptyTokenCounts(storage: map<string, string>)
    ensures IsAuthenticated(storage[TokenKey := ""])
    ensures !IsAuthenticated(storage - {TokenKey})
  {
  }

  /**
   * `ProtectedRoute`: the children when authenticated, otherwise a redirect to
   * the login view that replaces the current history entry.
   */
  function ProtectedRoute(children: View, storage: map<string, string>): (v: View)
    ensures IsAuthenticated(storage) ==> v == children
    ensures !IsAuthenticated(storage) ==> v == Redirect(LoginPath, true)
  {
    if !IsAuthenticated(storage) then Redirect(LoginPath, true) else children
  }

  /** The route table: what each path renders for the given storage. */
  function Element(path: string, storage: map<string, string>): (v: View)
    ensures v == StatsPage <==> path == "/stats" && IsAuthenticated(storage)
    ensures v.Redirect? ==> v == Redirect(LoginPath, true)
    ensures v.Redirect? <==> path == "/" || (path == "/stats" && !IsAuthenticated(storage))
  {
    if path == "/login" then LoginPage
    else if path == "/callback" then CallbackPage
    else if path == "/stats" then ProtectedRoute(StatsPage, storage)
    else if path == "/creator" then CreatorStatsPage
    else if path == "/" then Redirect(LoginPath, true)
    else NoMatch
  }

  /** Only `/stats` depends on storage: every other path renders the same for all. */
  lemma OnlyStatsGuarded(path: string, s1: map<string, string>, s2: map<string, string>)
    requires path != "/stats"
    ensures Element(path, s1) == Element(path, s2)
  {
  }

  /** `/` always redirects to the login view. */
  lemma RootRedirects(storage: map<string, string>)
    ensures Element("/", storage) == Redirect(LoginPath, true)
  {
  }

  /** The public views render whatever the storage holds. */
  lemma PublicViews(storage: map<string, string>)
    ensures Element("/login", storage) == LoginPage
    ensures Element("/callback", storage) == CallbackPage
    ensures Element("/creator", storage) == CreatorStatsPage
  {
  }
}
