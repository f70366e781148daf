/**
 The route guard (src/components/ProtectedRoute.jsx) and which routes use
 it (src/App.jsx).
 */
module ProtectedRoute {
  import opened Js
  import opened Text
  import opened AuthContext

  /** What the guard renders. */
  datatype GuardView = Verifying | RedirectHome | RenderChildren

  /** While the session is loading the guard shows "Verifying Identity...";
      then a missing user, or a non-admin on an admin-only route, is sent to
      "/"; everyone else sees the page. */
  function Guard(user: Option<User>, loading: bool, adminOnly: bool): (g: GuardView)
    ensures g == Verifying <==> loading
    ensures g == RenderChildren <==> !loading && user.Some? && (adminOnly ==> user.value.role == "admin")
  {
    if loading then Verifying
    else if user.None? then RedirectHome
    else if adminOnly && user.value.role != "admin" then RedirectHome
    else RenderChildren
  }

  /** The guarded routes: "admin" and "admin/orders" are admin-only,
      "account" and "checkout" need any user, and the rest are open. */
  datatype Protection = Open | SignedIn | AdminOnly

  /** The path without the slashes at its end. */
  function DropTrailingSlashes(path: string): (p: string)
    ensures p <= path
    ensures p == [] || p[|p| - 1] != '/'
    ensures forall i :: |p| <= i < |path| ==> path[i] == '/'
    decreases |path|
  {
    if |path| > 0 && path[|path| - 1] == '/' then DropTrailingSlashes(path[..|path| - 1]) else path
  }

  /** What React Router compares with a static route path: the routes do not
      set `caseSensitive`, so the case of ASCII letters is ignored, and any
      slashes at the end of the location are allowed. */
  function RouteKey(path: string): string {
    Lower(DropTrailingSlashes(path))
  }

  /** The protection of the route a location matches. */
  function RouteProtection(path: string): (p: Protection)
    ensures p == AdminOnly <==> RouteKey(path) == "/admin" || RouteKey(path) == "/admin/orders"
    ensures p == SignedIn <==> RouteKey(path) == "/account" || RouteKey(path) == "/checkout"
  {
    var key := RouteKey(path);
    if key == "/admin" || key == "/admin/orders" then AdminOnly
    else if key == "/account" || key == "/checkout" then SignedIn
    else Open
  }

  /** A path already in the form the routes are written in (no upper-case
      letter, no slash at the end) is its own key. */
  lemma CanonicalKey(path: string)
    requires forall i :: 0 <= i < |path| ==> !IsUpper(path[i])
    requires path == [] || path[|path| - 1] != '/'
    ensures RouteKey(path) == path
  {
    LowerFixes(path);
  }

  /** Dropping the final slashes and lower-casing can be done in either
      order, since "/" is not a letter. */
  lemma {:induction false} DropTrailingSlashesLower(path: string)
    ensures DropTrailingSlashes(Lower(path)) == Lower(DropTrailingSlashes(path))
    decreases |path|
  {
    if |path| > 0 && path[|path| - 1] == '/' {
      var init := path[..|path| - 1];
      assert Lower(path)[..|path| - 1] == Lower(init);
      DropTrailingSlashesLower(init);
    }
  }

  /** A location's protection does not depend on the case of its letters or
      on slashes added at its end: "/Admin", "/admin/" and "/ADMIN/orders"
      are as guarded as "/admin" and "/admin/orders". */
  lemma ProtectionIgnoresCaseAndTrailingSlash(path: string)
    ensures RouteProtection(Lower(path)) == RouteProtection(path)
    ensures RouteProtection(path + "/") == RouteProtection(path)
  {
    DropTrailingSlashesLower(path);
    LowerIdempotent(DropTrailingSlashes(path));
    assert (path + "/")[..|path|] == path;
  }

  /** What a visit to a path shows once the session has loaded. */
  function Visit(path: string, user: Option<User>, loading: bool): (g: GuardView)
    ensures RouteProtection(path) == Open ==> g == RenderChildren
    ensures RouteProtection(path) != Open ==> g == Guard(user, loading, RouteProtection(path) == AdminOnly)
  {
    match RouteProtection(path)
    case Open => RenderChildren
    case SignedIn => Guard(user, loading, false)
    case AdminOnly => Guard(user, loading, true)
  }

  /** After sign-in and the profile fetch, the admin pages open exactly when
      the profile row says "admin", and the checkout opens for every signed-in
      user. */
  lemma AdminPagesNeedAdminProfile(su: SessionUser, response: Response<ProfileRow>)
    ensures Visit("/admin", Some(FetchProfile(SessionDefaults(su), response)), false) == RenderChildren
      <==> response.Data? && response.value.role == Some("admin")
    ensures Visit("/checkout", Some(FetchProfile(SessionDefaults(su), response)), false) == RenderChildren
    ensures Visit("/checkout", None, false) == RedirectHome
  {
    CanonicalKey("/admin");
    CanonicalKey("/checkout");
    AdminOnlyFromProfile(su, response);
  }

  /** Other spellings of the admin route reach the same guard: a guest who
      types "/Admin" or "/admin/" is sent home, not shown the dashboard. */
  lemma AdminSpellingsGuarded(user: Option<User>)
    ensures Visit("/Admin", user, false) == Visit("/admin", user, false)
    ensures Visit("/admin/", user, false) == Visit("/admin", user, false)
    ensures Visit("/Admin", None, false) == RedirectHome
  {
    CanonicalKey("/admin");
    assert Lower("/Admin") == "/admin";
    ProtectionIgnoresCaseAndTrailingSlash("/Admin");
    ProtectionIgnoresCaseAndTrailingSlash("/admin");
  }
}
