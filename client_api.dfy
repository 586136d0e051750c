/** What the two bookings pages share: the requests they send to the server, built from the
    stored token, and their own logout button. */
module ClientApi {
  import opened Common
  import opened Text
  import opened Schema
  import opened Token
  import opened Gate

  const Origin: string := "http://localhost:5000"

  datatype Verb = Get | Put | Delete

  /** One `fetch`: verb, URL, Authorization header and JSON body (bookings pages only send
      booking patches). */
  datatype Request = Request(verb: Verb, url: string, authorization: string, body: Option<BookingPatch>)

  /** What a page does when it mounts: where it redirects, and whether it fetches the list. */
  datatype Plan = Plan(redirect: Option<string>, fetch: bool)

  const LoginPath: string := "/auth/login"

  /** `Bearer ${localStorage.getItem('token')}`: a missing token is rendered as `null`. */
  function Authorization(storage: Storage): (r: string)
    ensures "token" in storage ==> r == BearerHeader(storage["token"])
    ensures "token" !in storage ==> r == BearerHeader("null")
  {
    BearerHeader(Item(storage, "token").GetOr("null"))
  }

  function BookingsUrl(): string {
    Origin + "/api/bookings"
  }

  function BookingUrl(id: Id): string {
    Origin + "/api/bookings/" + Digits(id)
  }

  /** `fetchBookings`'s request. */
  function ListRequest(storage: Storage): (r: Request)
    ensures r.verb == Get && r.body.None?
    ensures r.url == BookingsUrl() && r.authorization == Authorization(storage)
  {
    Request(Get, BookingsUrl(), Authorization(storage), None)
  }

  /** A page holding a token the server issued reaches the server as the signed caller. */
  lemma StoredTokenAuthenticates(secret: nat, c: Claims, storage: Storage)
    requires Item(storage, "token") == Some(Sign(secret, c))
    ensures Authenticate(secret, Some(Authorization(storage))) == Ok(c)
  {
    AuthenticateIssued(secret, c);
  }

  /** A page with no stored token still sends `Bearer null`, which the server refuses with 403. */
  lemma MissingTokenForbidden(secret: nat, storage: Storage)
    requires "token" !in storage
    ensures Authenticate(secret, Some(Authorization(storage))) == Err(Forbidden)
  {
    AuthenticateNull(secret);
  }

  /** The bookings pages' `handleLogout`: removes only `token` and `role` (the user's id,
      name and email stay stored) and navigates to `/`. */
  function PageLogout(storage: Storage): (r: Storage)
    ensures forall k :: k in r <==> k in storage && k != "token" && k != "role"
    ensures forall k :: k in r ==> r[k] == storage[k]
  {
    storage - {"token", "role"}
  }
}
