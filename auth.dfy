/**
 * The session provider (src/providers/auth-provider.tsx): it holds the signed-in
 * user, resolves it from the identity request ("GET /auth/spotify/me"), and
 * offers login and logout. The identity request's `loading` flag and its
 * `data?.user` are inputs of the resolution step; the router's location and
 * the browser's `window.location.href` are fields.
 */
module Auth {
  import opened Types
  import AuthUrl

  /** The identity the backend reports for the current session. */
  datatype User = User(sub: string, email: string, spotifyId: string, expiresIn: string, iat: int)

  /** What the provider does outside its own state, in the order it does it. */
  datatype Effect =
    | Post(path: string)        // an outbound POST through the API client
    | Navigate(to: string)      // a client-side route change
    | AssignHref(url: string)   // a full-page browser navigation

  const LogoutPath: string := "/auth/spotify/logout"
  const LoginPath: string := "/login"
  const ProtectedPrefix: string := "/stats"

  /** The part of the provider's state the resolution step reads and writes. */
  datatype Session = Session(user: Option<User>, pathname: string)

  /** True when the resolution step sends this session to the login view. */
  predicate BouncesToLogin(s: Session, loading: bool, fetched: Option<User>)
  {
    !loading && fetched.None? && ProtectedPrefix <= s.pathname
  }

  /**
   * The resolution effect: while the identity request loads nothing changes;
   * once it has loaded, the session becomes the reported user, and when there
   * is none and the path is under `/stats`, the location becomes `/login`.
   */
  function Resolve(s: Session, loading: bool, fetched: Option<User>): (r: Session)
    ensures loading ==> r == s
    ensures !loading ==> r.user == fetched
    ensures r.pathname == if BouncesToLogin(s, loading, fetched) then LoginPath else s.pathname
  {
    if loading then s
    else if fetched.Some? then Session(fetched, s.pathname)
    else if ProtectedPrefix <= s.pathname then Session(None, LoginPath)
    else Session(None, s.pathname)
  }

  /** The login view is not under the protected prefix. */
  lemma LoginNotProtected()
    ensures !(ProtectedPrefix <= LoginPath)
  {
    assert LoginPath[1] != ProtectedPrefix[1];
  }

  /**
   * Once the identity request has loaded and reported nobody, the location is
   * never left under `/stats`.
   */
  lemma ResolvedAnonymousLeavesStats(s: Session, fetched: Option<User>)
    requires fetched.None?
    ensures Resolve(s, false, fetched).user.None?
    ensures !(ProtectedPrefix <= Resolve(s, false, fetched).pathname)
  {
    LoginNotProtected();
  }

  /**
   * The resolution step depends only on (loading, data?.user, pathname), so a
   * second run on the same inputs changes nothing more.
   */
  lemma ResolveIdempotent(s: Session, loading: bool, fetched: Option<User>)
    ensures Resolve(Resolve(s, loading, fetched), loading, fetched) == Resolve(s, loading, fetched)
  {
    LoginNotProtected();
  }

  /** The provider component and the browser state it drives. */
  class AuthProvider {
    var user: Option<User>
    var pathname: string
    var href: string
    var effects: seq<Effect>

    function State(): Session
      reads this
    {
      Session(user, pathname)
    }

    /** Mounting: the session starts empty at the current location. */
    constructor (pathname: string, href: string)
      ensures user == None && this.pathname == pathname && this.href == href
      ensures effects == []
    {
      this.user := None;
      this.pathname := pathname;
      this.href := href;
      this.effects := [];
    }

    /** `navigate(to)`: the router moves to `to`. */
    method Go(to: string)
      modifies this
      ensures pathname == to && effects == old(effects) + [Navigate(to)]
      ensures user == old(user) && href == old(href)
    {
      pathname := to;
      effects := effects + [Navigate(to)];
    }

    /** The effect that resolves the session from the identity request. */
    method ResolveEffect(loading: bool, fetched: Option<User>)
      modifies this
      ensures State() == Resolve(old(State()), loading, fetched)
      ensures effects == old(effects) + if BouncesToLogin(old(State()), loading, fetched) then [Navigate(LoginPath)] else []
      ensures href == old(href)
    {
      if loading {
        return;
      }
      if fetched.Some? {
        user := fetched;
      } else {
        user := None;
        if ProtectedPrefix <= pathname {
          Go(LoginPath);
        }
      }
    }

    /**
     * `handleLogout`: the logout POST is issued first; after it completes the
     * session is cleared and the router goes to `/login`.
     */
    method HandleLogout()
      modifies this
      ensures effects == old(effects) + [Post(LogoutPath), Navigate(LoginPath)]
      ensures user == None && pathname == LoginPath && href == old(href)
    {
      effects := effects + [Post(LogoutPath)];
      user := None;
      Go(LoginPath);
    }

    /**
     * `handleLogin`: the browser is sent to the authorization URL; the session
     * and the router location are left as they are.
     */
    method HandleLogin(enc: string -> string)
      modifies this
      ensures href == AuthUrl.AuthorizeUrl(enc)
      ensures effects == old(effects) + [AssignHref(AuthUrl.AuthorizeUrl(enc))]
      ensures user == old(user) && pathname == old(pathname)
    {
      var url := AuthUrl.AuthorizeUrl(enc);
      href := url;
      effects := effects + [AssignHref(url)];
    }
  }

  /**
   * A client of the provider: a visitor on `/stats/top` with no session is
   * sent to the login view, and signing out afterwards keeps them there.
   */
  method AnonymousVisitToStats(u: User)
  {
    var p := new AuthProvider("/stats/top", "https://example.invalid/stats/top");
    p.ResolveEffect(true, None);
    assert p.user == None && p.pathname == "/stats/top";
    p.ResolveEffect(false, None);
    assert p.pathname == LoginPath && p.effects == [Navigate(LoginPath)];
    p.ResolveEffect(false, Some(u));
    assert p.user == Some(u) && p.pathname == LoginPath;
    p.HandleLogout();
    assert p.user == None && p.effects == [Navigate(LoginPath), Post(LogoutPath), Navigate(LoginPath)];
  }
}
