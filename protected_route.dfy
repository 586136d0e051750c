/** `ProtectedRoute` (lib/protected-route.tsx): from (loading, user, requiredRole) it decides
    what to render and where its effect redirects. */
module ProtectedRoute {
  import opened Common
  import opened AuthContext

  datatype View = LoadingPlaceholder | Nothing | Children

  const LoginPath: string := "/auth/login"

  /** A user's own home: the admin dashboard for `admin`, the customer home for anything else. */
  function Home(role: string): (path: string)
    ensures path == "/admin/dashboard" <==> role == "admin"
    ensures path != "/admin/dashboard" ==> path == "/customer/home"
  {
    if role == "admin" then "/admin/dashboard" else "/customer/home"
  }

  predicate RoleMismatch(user: SessionUser, requiredRole: Option<string>) {
    Truthy(requiredRole) && user.role != requiredRole.value
  }

  /** The effect: nothing while loading; to login without a user; to the user's home when a
      required role is set and differs. */
  function Redirect(loading: bool, user: Option<SessionUser>, requiredRole: Option<string>)
    : (r: Option<string>)
    ensures loading ==> r.None?
    ensures !loading && user.None? ==> r == Some(LoginPath)
    ensures !loading && user.Some? && RoleMismatch(user.value, requiredRole) ==>
      r == Some(Home(user.value.role))
  {
    if loading then None
    else if user.None? then Some(LoginPath)
    else if RoleMismatch(user.value, requiredRole) then Some(Home(user.value.role))
    else None
  }

  /** The rendered output. Children render exactly when loading is over, a user is present and
      no differing role is required; whenever they render no redirect is issued, and nothing
      is rendered exactly when a redirect is issued. */
  function Render(loading: bool, user: Option<SessionUser>, requiredRole: Option<string>)
    : (v: View)
    ensures v == LoadingPlaceholder <==> loading
    ensures v == Children <==>
      !loading && user.Some? && (!Truthy(requiredRole) || requiredRole.value == user.value.role)
    ensures v == Children ==> Redirect(loading, user, requiredRole).None?
    ensures v == Nothing <==> Redirect(loading, user, requiredRole).Some?
  {
    if loading then LoadingPlaceholder
    else if user.None? then Nothing
    else if RoleMismatch(user.value, requiredRole) then Nothing
    else Children
  }
}
