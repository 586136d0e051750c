/** The collection queries the route handlers issue: `find` with a condition, `findOne`,
    `findById`, and the table that results from `findByIdAndUpdate` and `findByIdAndDelete`. */
module Tables {
  import opened Common
  import opened Schema

  /** The documents of `s` that satisfy `p`, in stored order. */
  function Filter<T(!new)>(s: seq<T>, p: T -> bool): (r: seq<T>)
    ensures |r| <= |s|
    ensures forall x :: x in r <==> x in s && p(x)
    ensures forall x :: multiset(r)[x] == if p(x) then multiset(s)[x] else 0
    decreases |s|
  {
    if s == [] then []
    else
      assert s == [s[0]] + s[1..];
      if p(s[0]) then [s[0]] + Filter(s[1..], p)
      else Filter(s[1..], p)
  }

  /** No two documents of `s` share a key: what the `_id` index guarantees of every collection. */
  predicate DistinctKeys<T>(s: seq<T>, key: T -> Id) {
    forall i, j :: 0 <= i < j < |s| ==> key(s[i]) != key(s[j])
  }

  /** A query that every document matches returns the whole table. */
  lemma {:induction false} FilterKeepsAll<T(!new)>(s: seq<T>, p: T -> bool)
    requires forall x :: x in s ==> p(x)
    ensures Filter(s, p) == s
    decreases |s|
  {
    if s != [] {
      assert s[0] in s;
      assert forall x :: x in s[1..] ==> x in s;
      FilterKeepsAll(s[1..], p);
    }
  }

  lemma TailDistinct<T>(s: seq<T>, key: T -> Id)
    requires s != [] && DistinctKeys(s, key)
    ensures DistinctKeys(s[1..], key)
    ensures forall x :: x in s[1..] ==> key(x) != key(s[0])
  {
    forall i, j | 0 <= i < j < |s[1..]| ensures key(s[1..][i]) != key(s[1..][j]) {
      assert s[1..][i] == s[i + 1] && s[1..][j] == s[j + 1];
    }
    forall x | x in s[1..] ensures key(x) != key(s[0]) {
      var j :| 0 <= j < |s[1..]| && s[1..][j] == x;
      assert s[j + 1] == x;
    }
  }

  lemma ConsDistinct<T>(x: T, rest: seq<T>, key: T -> Id)
    requires DistinctKeys(rest, key) && forall y :: y in rest ==> key(y) != key(x)
    ensures DistinctKeys([x] + rest, key)
  {
    var r := [x] + rest;
    forall i, j | 0 <= i < j < |r| ensures key(r[i]) != key(r[j]) {
      assert r[j] == rest[j - 1] && r[j] in rest;
      if i > 0 {
        assert r[i] == rest[i - 1];
      }
    }
  }

  /** With distinct keys, deleting by key removes at most one document. */
  lemma {:induction false} DeleteRemovesAtMostOne<T(!new)>(s: seq<T>, p: T -> bool, key: T -> Id, k: Id)
    requires DistinctKeys(s, key)
    requires forall x :: p(x) <==> key(x) != k
    ensures |Filter(s, p)| >= |s| - 1
    decreases |s|
  {
    if s != [] {
      TailDistinct(s, key);
      if key(s[0]) == k {
        FilterKeepsAll(s[1..], p);
      } else {
        DeleteRemovesAtMostOne(s[1..], p, key, k);
      }
    }
  }

  /** Deleting keeps the remaining documents' keys distinct. */
  lemma {:induction false} FilterKeepsDistinct<T(!new)>(s: seq<T>, p: T -> bool, key: T -> Id)
    requires DistinctKeys(s, key)
    ensures DistinctKeys(Filter(s, p), key)
    decreases |s|
  {
    if s != [] {
      TailDistinct(s, key);
      FilterKeepsDistinct(s[1..], p, key);
      if p(s[0]) {
        ConsDistinct(s[0], Filter(s[1..], p), key);
      }
    }
  }

  /** The first document of `s` that satisfies `p` (`findOne`, `findById`), or null. */
  function First<T(!new)>(s: seq<T>, p: T -> bool): (r: Option<T>)
    ensures r.Some? ==> r.value in s && p(r.value)
    ensures r.None? <==> forall x :: x in s ==> !p(x)
    decreases |s|
  {
    if s == [] then None
    else if p(s[0]) then Some(s[0])
    else First(s[1..], p)
  }

  /** `s` with `f` applied to every document that satisfies `p`, the others left as they are. */
  function UpdateWhere<T>(s: seq<T>, p: T -> bool, f: T -> T): (r: seq<T>)
    ensures |r| == |s|
    ensures forall i :: 0 <= i < |s| ==> r[i] == if p(s[i]) then f(s[i]) else s[i]
    decreases |s|
  {
    if s == [] then []
    else [if p(s[0]) then f(s[0]) else s[0]] + UpdateWhere(s[1..], p, f)
  }

  /** The `_id` of each kind of document. */
  function UserId(u: User): Id { u.id }
  function ServiceId(s: Service): Id { s.id }
  function BookingId(b: Booking): Id { b.id }
  function PaymentId(p: Payment): Id { p.id }

  /** `User.findOne({ email, password })`. */
  function FindByCredentials(users: seq<User>, email: string, password: string): (r: Option<User>)
    ensures r.Some? ==> r.value in users && r.value.email == email && r.value.password == password
    ensures r.None? <==> forall u :: u in users ==> !(u.email == email && u.password == password)
  {
    First(users, (u: User) => u.email == email && u.password == password)
  }

  predicate EmailTaken(users: seq<User>, email: string) {
    exists u :: u in users && u.email == email
  }

  /** `User.find({ role: 'customer' })`. */
  function Customers(users: seq<User>): (r: seq<User>)
    ensures forall u :: u in r <==> u in users && u.role == Customer
  {
    Filter(users, (u: User) => u.role == Customer)
  }

  /** `Booking.find({ userId })`. */
  function BookingsOf(bookings: seq<Booking>, userId: Id): (r: seq<Booking>)
    ensures forall b :: b in r <==> b in bookings && b.userId == userId
  {
    Filter(bookings, (b: Booking) => b.userId == userId)
  }

  function FindService(services: seq<Service>, id: Id): (r: Option<Service>)
    ensures r.Some? ==> r.value in services && r.value.id == id
    ensures r.None? <==> forall s :: s in services ==> s.id != id
  {
    First(services, (s: Service) => s.id == id)
  }

  function FindBooking(bookings: seq<Booking>, id: Id): (r: Option<Booking>)
    ensures r.Some? ==> r.value in bookings && r.value.id == id
    ensures r.None? <==> forall b :: b in bookings ==> b.id != id
  {
    First(bookings, (b: Booking) => b.id == id)
  }

  /** The services table after `Service.findByIdAndDelete(id)`. */
  function WithoutService(services: seq<Service>, id: Id): (r: seq<Service>)
    ensures forall s :: s in r <==> s in services && s.id != id
    ensures DistinctKeys(services, ServiceId) ==>
      DistinctKeys(r, ServiceId) && |services| - 1 <= |r| <= |services|
  {
    var p := (s: Service) => s.id != id;
    if DistinctKeys(services, ServiceId) then
      FilterKeepsDistinct(services, p, ServiceId);
      DeleteRemovesAtMostOne(services, p, ServiceId, id);
      Filter(services, p)
    else Filter(services, p)
  }

  /** The bookings table after `Booking.findByIdAndDelete(id)`. */
  function WithoutBooking(bookings: seq<Booking>, id: Id): (r: seq<Booking>)
    ensures forall b :: b in r <==> b in bookings && b.id != id
    ensures DistinctKeys(bookings, BookingId) ==>
      DistinctKeys(r, BookingId) && |bookings| - 1 <= |r| <= |bookings|
  {
    var p := (b: Booking) => b.id != id;
    if DistinctKeys(bookings, BookingId) then
      FilterKeepsDistinct(bookings, p, BookingId);
      DeleteRemovesAtMostOne(bookings, p, BookingId, id);
      Filter(bookings, p)
    else Filter(bookings, p)
  }

  /** The services table after `Service.findByIdAndUpdate(id, patch)`. */
  function PatchService(services: seq<Service>, id: Id, patch: ServicePatch): (r: seq<Service>)
    ensures |r| == |services|
    ensures forall i :: 0 <= i < |services| ==>
      r[i] == if services[i].id == id then MergeService(services[i], patch) else services[i]
  {
    UpdateWhere(services, (s: Service) => s.id == id, (s: Service) => MergeService(s, patch))
  }

  /** The bookings table after `Booking.findByIdAndUpdate(id, patch)`. */
  function PatchBooking(bookings: seq<Booking>, id: Id, patch: BookingPatch): (r: seq<Booking>)
    ensures |r| == |bookings|
    ensures forall i :: 0 <= i < |bookings| ==>
      r[i] == if bookings[i].id == id then MergeBooking(bookings[i], patch) else bookings[i]
  {
    UpdateWhere(bookings, (b: Booking) => b.id == id, (b: Booking) => MergeBooking(b, patch))
  }

  /** After an update, the document returned for `id` (`{ new: true }`) carries the patch. */
  lemma {:induction false} PatchedBookingFound(bookings: seq<Booking>, id: Id, patch: BookingPatch)
    ensures FindBooking(PatchBooking(bookings, id, patch), id) ==
      match FindBooking(bookings, id)
      case None => None
      case Some(b) => Some(MergeBooking(b, patch))
    decreases |bookings|
  {
    if bookings != [] {
      var r := PatchBooking(bookings, id, patch);
      assert r[1..] == PatchBooking(bookings[1..], id, patch);
      PatchedBookingFound(bookings[1..], id, patch);
    }
  }

  lemma {:induction false} PatchedServiceFound(services: seq<Service>, id: Id, patch: ServicePatch)
    ensures FindService(PatchService(services, id, patch), id) ==
      match FindService(services, id)
      case None => None
      case Some(s) => Some(MergeService(s, patch))
    decreases |services|
  {
    if services != [] {
      var r := PatchService(services, id, patch);
      assert r[1..] == PatchService(services[1..], id, patch);
      PatchedServiceFound(services[1..], id, patch);
    }
  }

  /** Emails are unique, so after a registration the new credentials find the new user. */
  lemma CredentialsFindRegistered(users: seq<User>, u: User)
    requires !EmailTaken(users, u.email)
    ensures FindByCredentials(users + [u], u.email, u.password) == Some(u)
  {
    assert u in users + [u];
  }
}
