/** The customer bookings page (app/customer/bookings/page.tsx): its guard, cancel-by-delete
    and its `bookings`/`loading` state. The badge is the one in module Badge. */
module CustomerBookings {
  import opened Common
  import opened Schema
  import opened Token
  import opened Gate
  import opened ClientApi

  /** The mount effect: a missing token redirects to login, but there is no early return, so
      the list is fetched in every case. */
  function MountPlan(storage: Storage): (p: Plan)
    ensures p.fetch
    ensures p.redirect.Some? <==> !Truthy(Item(storage, "token"))
    ensures p.redirect.Some? ==> p.redirect.value == LoginPath
  {
    Plan(if Truthy(Item(storage, "token")) then None else Some(LoginPath), true)
  }

  /** The Cancel button is shown exactly for a pending booking. */
  function CanCancel(status: string): (r: bool)
    ensures r <==> ParseStatus(status) == Some(Pending)
  {
    status == "pending"
  }

  /** `handleCancel`'s request: a DELETE of the booking (a hard delete), with no body, not a
      status update. */
  function CancelRequest(storage: Storage, id: Id): (r: Request)
    ensures r.verb == Delete && r.body.None?
    ensures r.url == BookingUrl(id) && r.authorization == Authorization(storage)
  {
    Request(Delete, BookingUrl(id), Authorization(storage), None)
  }

  /** The server lets any signed caller delete, so a customer's Cancel is admitted whatever
      their role, as the signed caller. */
  lemma CancelAdmitted(secret: nat, c: Claims, storage: Storage, id: Id)
    requires Item(storage, "token") == Some(Sign(secret, c))
    ensures Authenticate(secret, Some(CancelRequest(storage, id).authorization)) == Ok(c)
  {
    StoredTokenAuthenticates(secret, c, storage);
  }

  class Page {
    var bookings: seq<Booking>
    var loading: bool

    constructor ()
      ensures bookings == [] && loading
    {
      bookings, loading := [], true;
    }

    /** `fetchBookings`: the reply (None when the request or its JSON failed) replaces the list
        when it is a list; `loading` ends in every case. */
    method FetchBookings(storage: Storage, reply: Option<seq<Booking>>) returns (sent: Request)
      modifies this
      ensures sent == ListRequest(storage)
      ensures bookings == if reply.Some? then reply.value else old(bookings)
      ensures !loading
    {
      sent := ListRequest(storage);
      if reply.Some? {
        bookings := reply.value;
      }
      loading := false;
    }

    /** The mount effect with the reply the list request would get. */
    method Mount(storage: Storage, reply: Option<seq<Booking>>)
      returns (redirect: Option<string>, sent: seq<Request>)
      modifies this
      ensures redirect == MountPlan(storage).redirect
      ensures sent == [ListRequest(storage)] && !loading
      ensures bookings == if reply.Some? then reply.value else old(bookings)
    {
      redirect := MountPlan(storage).redirect;
      var request := FetchBookings(storage, reply);
      sent := [request];
    }

    /** `handleCancel`: nothing is sent unless the user confirms; then the DELETE is sent and
        the list is re-fetched only when the response is ok. */
    method HandleCancel(storage: Storage, id: Id, confirmed: bool, ok: bool,
                        reply: Option<seq<Booking>>) returns (sent: seq<Request>)
      modifies this
      ensures !confirmed ==> sent == [] && unchanged(this)
      ensures confirmed && !ok ==> sent == [CancelRequest(storage, id)] && unchanged(this)
      ensures confirmed && ok ==>
        && sent == [CancelRequest(storage, id), ListRequest(storage)] && !loading
        && bookings == if reply.Some? then reply.value else old(bookings)
    {
      if !confirmed {
        return [];
      }
      sent := [CancelRequest(storage, id)];
      if ok {
        var request := FetchBookings(storage, reply);
        sent := sent + [request];
      }
    }
  }
}
