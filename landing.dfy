/** The landing page's mount effect (app/page.tsx). */
module Landing {
  import opened Common
  import opened AuthContext
  import ProtectedRoute
  import ClientApi

  /** Without a truthy token no redirect happens; with one, admins go to the dashboard and any
      other role, including a missing one, to the customer home. */
  function LandingRedirect(storage: Storage): (r: Option<string>)
    ensures r.None? <==> !Truthy(Item(storage, "token"))
    ensures r == Some("/admin/dashboard") <==>
      Truthy(Item(storage, "token")) && Item(storage, "role") == Some("admin")
    ensures r.Some? ==> r.value == "/admin/dashboard" || r.value == "/customer/home"
  {
    if Truthy(Item(storage, "token")) then
      if Item(storage, "role") == Some("admin") then Some("/admin/dashboard")
      else Some("/customer/home")
    else None
  }

  /** The decision depends on whether a token is present, never on what it says. */
  lemma TokenValueIrrelevant(s1: Storage, s2: Storage)
    requires Truthy(Item(s1, "token")) == Truthy(Item(s2, "token"))
    requires Item(s1, "role") == Item(s2, "role")
    ensures LandingRedirect(s1) == LandingRedirect(s2)
  {
  }

  /** With a token, the landing page sends a user to the same home `ProtectedRoute` does. */
  lemma SameHomeAsGuard(storage: Storage)
    requires Truthy(Item(storage, "token"))
    ensures LandingRedirect(storage) == Some(ProtectedRoute.Home(ItemOrEmpty(storage, "role")))
  {
  }

  /** After either logout the landing page stays put, and no session is restored after the
      bookings pages' logout even though the user's id, name and email remain stored. */
  lemma NoRedirectAfterLogout(storage: Storage)
    ensures LandingRedirect(ClearSession(storage)).None?
    ensures LandingRedirect(ClientApi.PageLogout(storage)).None?
    ensures Restore(ClientApi.PageLogout(storage)).None?
  {
    assert "token" in SessionKeys;
  }
}
