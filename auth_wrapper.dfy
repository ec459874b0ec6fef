/**
 * The route guard every page is wrapped in. From the session status
 * (`isLoggedIn`: unknown, true or false), the admin flag and the current
 * path it decides whether to send the browser to the login page and what
 * to render: nothing while the status is unknown, the bare page on a
 * public path, and otherwise the navigation bar, the admin sidebar when
 * the user is an admin, and the page.
 */
module AuthWrapper {
  import opened Wrappers
  import opened Http
  import AuthProvider

  const LoginPath := "/login"
  const RegisterPath := "/register"

  /** The pages reachable without a session. */
  const PublicPages: seq<string> := [LoginPath, RegisterPath]

  /** Exactly the login and register paths are public; any other path, however similar, is protected. */
  function IsPublic(path: string): (r: bool)
    ensures r <==> path == "/login" || path == "/register"
    ensures path == "/login/" || path == "/" ==> !r
  {
    path in PublicPages
  }

  /** What the guard renders: nothing, or the page with or without its chrome. */
  datatype Rendered = Nothing | Page(navbar: bool, sidebar: bool, children: bool)

  /** One evaluation of the guard: the navigation its effect issues and the rendered tree. */
  datatype Decision = Decision(redirect: Option<string>, view: Rendered)

  /**
   * The effect: a replace-navigation to the login page exactly when the
   * status is known to be false and the path is neither login nor register,
   * so there is no redirect while the status is unknown or true, and none on
   * a public page (no redirect loop).
   */
  function Redirect(isLoggedIn: Option<bool>, path: string): (r: Option<string>)
    ensures r.Some? <==> isLoggedIn == Some(false) && path != "/login" && path != "/register"
    ensures r.Some? ==> r.value == "/login"
  {
    if isLoggedIn == Some(false) && !IsPublic(path) then Some(LoginPath) else None
  }

  /**
   * The render: nothing exactly while the status is unknown; on a public
   * path only the page itself, even for an authenticated user; on any other
   * path the navigation bar and the page, with the sidebar exactly for an
   * admin. The render never looks at whether the status is false.
   */
  function View(isLoggedIn: Option<bool>, isAdmin: bool, path: string): (r: Rendered)
    ensures r.Nothing? <==> isLoggedIn.None?
    ensures r.Page? ==> r.children
    ensures r.Page? ==> (r.navbar <==> path != "/login" && path != "/register")
    ensures r.Page? ==> (r.sidebar <==> r.navbar && isAdmin)
  {
    if isLoggedIn.None? then Nothing
    else if IsPublic(path) then Page(false, false, true)
    else Page(true, isAdmin, true)
  }

  /**
   * The whole guard. While a redirect is pending the chrome and the page are
   * still rendered, and on a public path nothing ever redirects.
   */
  function Guard(isLoggedIn: Option<bool>, isAdmin: bool, path: string): (d: Decision)
    ensures d.redirect.Some? ==> d.view == Page(true, isAdmin, true)
    ensures IsPublic(path) ==> d.redirect.None? && (d.view.Nothing? || d.view == Page(false, false, true))
    ensures isLoggedIn == Some(true) ==> d.redirect.None? && d.view.Page?
  {
    Decision(Redirect(isLoggedIn, path), View(isLoggedIn, isAdmin, path))
  }

  /**
   * The guard over the status a completed session check leaves: the page
   * always renders, a redirect happens exactly when `/users/me` did not
   * give a user and the path is protected, and the sidebar appears exactly
   * on a protected path for a user whose role is "ADMIN".
   */
  lemma GuardAfterCheck(me: Response<Option<AuthProvider.User>>, path: string)
    ensures var u := AuthProvider.FetchUser(me);
      var d := Guard(Some(u.Some?), AuthProvider.IsAdmin(u), path);
      d.view.Page? &&
      (d.redirect.Some? <==> !(me.Reply? && me.status == 200 && me.body.Some?) && !IsPublic(path)) &&
      (d.view.sidebar <==> !IsPublic(path) && me.Reply? && me.status == 200 && me.body.Some? &&
                           me.body.value.role == "ADMIN")
  {
  }

  /** While a check is in flight the guard renders nothing and never redirects. */
  lemma GuardWhileChecking(isAdmin: bool, path: string)
    ensures Guard(None, isAdmin, path) == Decision(None, Nothing)
  {
  }
}
