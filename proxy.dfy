/**
 * The per-request access controller: from the requested pathname and the
 * optional session token it decides to let the request through, to send the
 * caller to the login page (remembering where it wanted to go), or to send it
 * to its role's home page. The rules are tried in a fixed order and the first
 * that applies decides.
 */
module Proxy {
  import opened Wrappers
  import opened Text

  /** The claims the session token carries, as the `jwt` callback stores them. */
  datatype Token = Token(id: Option<string>, ruolo: Option<string>)

  datatype Decision =
    | Next                                // let the request through unchanged
    | RedirectToLogin(callbackUrl: string) // to /login?callbackUrl=<pathname>
    | Redirect(location: string)           // to a role home page

  const LoginPage: string := "/login"
  const AdminHome: string := "/admin/dashboard"
  const EmployeeHome: string := "/corsi-disponibili"

  /** Pages reachable without a session. */
  const PublicRoutes: seq<string> := ["/login", "/reset-password", "/set-password"]

  /** `routes.some(route => pathname.startsWith(route))`. */
  function SomeStartsWith(pathname: string, routes: seq<string>): (r: bool)
    ensures r <==> exists k :: 0 <= k < |routes| && StartsWith(pathname, routes[k])
  {
    if routes == [] then false
    else StartsWith(pathname, routes[0]) || SomeStartsWith(pathname, routes[1..])
  }

  predicate IsPublic(pathname: string)
  {
    SomeStartsWith(pathname, PublicRoutes)
  }

  /** Framework assets, API calls, uploaded files and anything that looks like a file name. */
  predicate IsStatic(pathname: string)
  {
    || StartsWith(pathname, "/_next")
    || StartsWith(pathname, "/api")
    || StartsWith(pathname, "/uploads")
    || Includes(pathname, ".")
  }

  predicate IsAdminArea(pathname: string)
  {
    StartsWith(pathname, "/admin")
  }

  /** `token?.ruolo === 'admin'`. */
  predicate IsAdmin(token: Option<Token>)
  {
    token.Some? && token.value.ruolo == Some("admin")
  }

  function RoleHome(token: Option<Token>): string
  {
    if IsAdmin(token) then AdminHome else EmployeeHome
  }

  /** The decision chain, in the order the rules are tried. */
  function Decide(pathname: string, token: Option<Token>): (d: Decision)
    // Assets are never redirected, whatever the token.
    ensures IsStatic(pathname) ==> d == Next
    // Nobody without a session gets through to a private page.
    ensures d == Next && !IsStatic(pathname) && token.None? ==> IsPublic(pathname)
    // Nobody but an admin gets through to the admin area.
    ensures d == Next && !IsStatic(pathname) && IsAdminArea(pathname) ==> IsAdmin(token)
    // The login redirect is only for callers without a session, and it remembers the page.
    ensures d.RedirectToLogin? ==> token.None? && d.callbackUrl == pathname
    // Every other redirect is to the caller's role home.
    ensures d.Redirect? ==> token.Some? && d.location == RoleHome(token)
  {
    if IsStatic(pathname) then Next
    else if token.None? && !IsPublic(pathname) then RedirectToLogin(pathname)
    else if token.Some? && IsPublic(pathname) then Redirect(RoleHome(token))
    else if IsAdminArea(pathname) && !IsAdmin(token) then Redirect(EmployeeHome)
    else if pathname == "/" then Redirect(RoleHome(token))
    else Next
  }

  /**
   * The same policy stated as a table rather than a chain: a request gets
   * through exactly when it is an asset, or when it is not the root and either
   * a caller without a session asks for a public page or a caller with a
   * session asks for a private page it is entitled to.
   */
  ghost predicate Permitted(pathname: string, token: Option<Token>)
  {
    || IsStatic(pathname)
    || (pathname != "/" &&
        (|| (token.None? && IsPublic(pathname))
         || (token.Some? && !IsPublic(pathname) && (IsAdminArea(pathname) ==> IsAdmin(token)))))
  }

  lemma DecideMatchesPolicy(pathname: string, token: Option<Token>)
    ensures Decide(pathname, token) == Next <==> Permitted(pathname, token)
  {
    if pathname == "/" {
      RootIsPrivate();
    }
  }

  /** The root is neither an asset nor a public page. */
  lemma RootIsPrivate()
    ensures !IsStatic("/") && !IsPublic("/")
  {
    assert forall i :: OccursAt("/", ".", i) ==> i == 0 && "/"[0] == '.';
    forall k | 0 <= k < |PublicRoutes| ensures !StartsWith("/", PublicRoutes[k]) {
    }
  }

  /** Any path containing a dot is let through, even one under the admin area and without a session. */
  lemma DottedPathsPassThrough(pathname: string, token: Option<Token>)
    requires Includes(pathname, ".")
    ensures Decide(pathname, token) == Next
  {
  }

  lemma UnauthenticatedPrivateGoesToLogin(pathname: string)
    requires !IsStatic(pathname) && !IsPublic(pathname)
    ensures Decide(pathname, None) == RedirectToLogin(pathname)
  {
  }

  lemma AuthenticatedPublicGoesHome(pathname: string, t: Token)
    requires !IsStatic(pathname) && IsPublic(pathname)
    ensures Decide(pathname, Some(t)) ==
      Redirect(if t.ruolo == Some("admin") then AdminHome else EmployeeHome)
  {
  }

  lemma NonAdminInAdminAreaGoesToEmployeeHome(pathname: string, t: Token)
    requires !IsStatic(pathname) && IsAdminArea(pathname) && t.ruolo != Some("admin")
    ensures Decide(pathname, Some(t)) == Redirect(EmployeeHome)
  {
    AdminAreaNotPublic(pathname);
  }

  /** No public route lies inside the admin area. */
  lemma AdminAreaNotPublic(pathname: string)
    requires IsAdminArea(pathname)
    ensures !IsPublic(pathname)
  {
    forall k | 0 <= k < |PublicRoutes| ensures !StartsWith(pathname, PublicRoutes[k]) {
      assert pathname[1] == 'a';
      assert PublicRoutes[k][1] != 'a';
    }
  }

  lemma AdminInAdminAreaPassesThrough(pathname: string, t: Token)
    requires !IsStatic(pathname) && IsAdminArea(pathname) && t.ruolo == Some("admin")
    ensures Decide(pathname, Some(t)) == Next
  {
    AdminAreaNotPublic(pathname);
  }

  /** The root is never served: without a session it goes to login, with one to the role home. */
  lemma RootRedirects(token: Option<Token>)
    ensures token.None? ==> Decide("/", token) == RedirectToLogin("/")
    ensures token.Some? ==> Decide("/", token) == Redirect(RoleHome(token))
  {
    RootIsPrivate();
  }

  /** Public membership is by prefix: anything below a public route, or merely starting with its name, is public. */
  lemma PublicByPrefix(pathname: string, k: nat)
    requires k < |PublicRoutes| && StartsWith(pathname, PublicRoutes[k])
    ensures IsPublic(pathname)
  {
  }

  /** A concrete consequence of prefix matching. */
  lemma LoginSubpathIsPublic()
    ensures IsPublic("/login/anything")
  {
    PublicByPrefix("/login/anything", 0);
  }

  /** Every request not caught by an earlier rule goes through unchanged. */
  lemma OtherwiseNext(pathname: string, t: Token)
    requires !IsStatic(pathname) && !IsPublic(pathname) && pathname != "/"
    requires IsAdminArea(pathname) ==> t.ruolo == Some("admin")
    ensures Decide(pathname, Some(t)) == Next
  {
  }
}
