/** The admin bookings page (app/admin/bookings/page.tsx): its guard, the status actions it
    offers per booking, and its `bookings`/`loading` state. */
module AdminBookings {
  import opened Common
  import opened Schema
  import opened Lifecycle
  import opened ClientApi

  /** The mount effect: without a truthy token and the stored role `admin` the page redirects
      to the login page and fetches nothing. */
  function MountPlan(storage: Storage): (p: Plan)
    ensures p.fetch <==> Truthy(Item(storage, "token")) && Item(storage, "role") == Some("admin")
    ensures p.fetch <==> p.redirect.None?
    ensures p.redirect.Some? ==> p.redirect.value == LoginPath
  {
    if !Truthy(Item(storage, "token")) || Item(storage, "role") != Some("admin")
    then Plan(Some(LoginPath), false)
    else Plan(None, true)
  }

  /** The target statuses of the buttons shown under a booking with this status. */
  function Actions(status: string): (r: seq<string>)
    ensures forall t :: t in r <==> Allowed(status, t)
    ensures StatusName(Pending) !in r
  {
    if status == "pending" then ["approved", "cancelled"]
    else if status == "approved" then ["completed"]
    else []
  }

  /** `handleUpdateStatus`'s request: a PUT on the booking whose body is `{ status }` only. */
  function UpdateRequest(storage: Storage, id: Id, status: string): (r: Request)
    ensures r.verb == Put && r.url == BookingUrl(id) && r.authorization == Authorization(storage)
    ensures r.body.Some? && forall b :: MergeBooking(b, r.body.value) == b.(status := status)
  {
    Request(Put, BookingUrl(id), Authorization(storage), Some(StatusOnly(status)))
  }

  /** A sequence of statuses a booking can pass through by clicking the page's buttons. */
  predicate UiPath(p: seq<string>) {
    |p| >= 1 && forall i :: 0 <= i < |p| - 1 ==> p[i + 1] in Actions(p[i])
  }

  /** Along the page's buttons a booking only moves forward: stages strictly increase, so no
      status repeats, nothing returns to pending, and at most two clicks apply to a booking. */
  lemma {:induction false} UiPathsAdvance(p: seq<string>)
    requires UiPath(p)
    ensures forall i, j :: 0 <= i < j < |p| ==> Stage(p[i]) < Stage(p[j])
    ensures forall i :: 0 < i < |p| ==> p[i] != StatusName(Pending)
    ensures Stage(p[0]) + |p| - 1 <= Stage(p[|p| - 1])
    ensures |p| <= 3
    decreases |p|
  {
    if |p| >= 2 {
      var q := p[1..];
      assert UiPath(q) by {
        forall i | 0 <= i < |q| - 1 ensures q[i + 1] in Actions(q[i]) {
          assert q[i] == p[i + 1] && q[i + 1] == p[i + 2];
        }
      }
      UiPathsAdvance(q);
      AllowedAdvances(p[0], p[1]);
      forall i, j | 0 <= i < j < |p| ensures Stage(p[i]) < Stage(p[j]) {
        if i > 0 {
          assert p[i] == q[i - 1] && p[j] == q[j - 1];
        } else if j > 1 {
          assert p[1] == q[0] && p[j] == q[j - 1];
        }
      }
      forall i | 0 < i < |p| ensures p[i] != StatusName(Pending) {
        assert p[i] in Actions(p[i - 1]);
      }
      assert p[|p| - 1] == q[|q| - 1];
      AllowedAdvances(p[|p| - 2], p[|p| - 1]);
    }
  }

  /** A click on an offered action changes only the status, and along an allowed edge. */
  lemma OfferedUpdateIsForward(storage: Storage, b: Booking, target: string)
    requires target in Actions(b.status)
    ensures MergeBooking(b, UpdateRequest(storage, b.id, target).body.value) == b.(status := target)
    ensures Allowed(b.status, target)
  {
  }

  /** The server itself does not keep to the lifecycle: a PUT with a status body gives any
      booking any status string, enum or not, so it also takes a completed booking back to
      pending, a move the table does not allow. */
  lemma ServerUpdateIgnoresLifecycle(b: Booking)
    ensures forall s :: MergeBooking(b, StatusOnly(s)) == b.(status := s)
    ensures b.status == StatusName(Completed) ==>
      && MergeBooking(b, StatusOnly(StatusName(Pending))).status == StatusName(Pending)
      && !Allowed(b.status, StatusName(Pending))
  {
  }

  class Page {
    var bookings: seq<Booking>
    var loading: bool

    constructor ()
      ensures bookings == [] && loading
    {
      bookings, loading := [], true;
    }

    /** `fetchBookings`: the reply (None when the request or its JSON failed) replaces the list
        when it is a list; `loading` ends in every case. */
    method FetchBookings(storage: Storage, reply: Option<seq<Booking>>) returns (sent: Request)
      modifies this
      ensures sent == ListRequest(storage)
      ensures bookings == if reply.Some? then reply.value else old(bookings)
      ensures !loading
    {
      sent := ListRequest(storage);
      if reply.Some? {
        bookings := reply.value;
      }
      loading := false;
    }

    /** The mount effect with the reply the list request would get. */
    method Mount(storage: Storage, reply: Option<seq<Booking>>)
      returns (redirect: Option<string>, sent: seq<Request>)
      modifies this
      ensures redirect == MountPlan(storage).redirect
      ensures !MountPlan(storage).fetch ==> sent == [] && unchanged(this)
      ensures MountPlan(storage).fetch ==>
        && sent == [ListRequest(storage)] && !loading
        && bookings == if reply.Some? then reply.value else old(bookings)
    {
      var plan := MountPlan(storage);
      redirect := plan.redirect;
      sent := [];
      if plan.fetch {
        var request := FetchBookings(storage, reply);
        sent := [request];
      }
    }

    /** `handleUpdateStatus`: sends the PUT, and re-fetches the list only when the response
        is ok. */
    method HandleUpdateStatus(storage: Storage, id: Id, status: string, ok: bool,
                              reply: Option<seq<Booking>>) returns (sent: seq<Request>)
      modifies this
      ensures !ok ==> sent == [UpdateRequest(storage, id, status)] && unchanged(this)
      ensures ok ==>
        && sent == [UpdateRequest(storage, id, status), ListRequest(storage)] && !loading
        && bookings == if reply.Some? then reply.value else old(bookings)
    {
      sent := [UpdateRequest(storage, id, status)];
      if ok {
        var request := FetchBookings(storage, reply);
        sent := sent + [request];
      }
    }
  }
}
