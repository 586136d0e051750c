/** The route handlers of server.js over the four collections, as a store whose methods take
    the request's Authorization header (the caller context) and body and return the response. */
module Store {
  import opened Common
  import opened Schema
  import opened Token
  import opened Gate
  import opened Tables
  import opened Reports

  /** The `{ token, user }` answer of register and login; the user record includes the password. */
  datatype Session = Session(token: string, user: User)

  /** `role || 'customer'` followed by the schema's enum check on the role. */
  function RegisteredRole(role: Option<string>): (r: Option<Role>)
    ensures !Truthy(role) ==> r == Some(Customer)
    ensures Truthy(role) && r.Some? ==> RoleName(r.value) == role.value
    ensures Truthy(role) && r.None? ==> forall x :: RoleName(x) != role.value
  {
    ParseRole(if Truthy(role) then role.value else RoleName(Customer))
  }

  class Store {
    /** JWT_SECRET. */
    const secret: nat
    var users: seq<User>
    var services: seq<Service>
    var bookings: seq<Booking>
    var payments: seq<Payment>
    /** The next fresh document id. */
    var nextId: nat

    /** Emails are unique (the schema's unique index), no two documents of a collection share an
        `_id`, and every stored id was issued already. */
    ghost predicate Valid()
      reads this
    {
      && (forall i, j :: 0 <= i < j < |users| ==> users[i].email != users[j].email)
      && DistinctKeys(users, UserId) && DistinctKeys(services, ServiceId)
      && DistinctKeys(bookings, BookingId) && DistinctKeys(payments, PaymentId)
      && (forall u :: u in users ==> u.id < nextId)
      && (forall s :: s in services ==> s.id < nextId)
      && (forall b :: b in bookings ==> b.id < nextId)
      && (forall p :: p in payments ==> p.id < nextId)
    }

    constructor (secret: nat)
      ensures Valid() && this.secret == secret
      ensures users == [] && services == [] && bookings == [] && payments == [] && nextId == 0
    {
      this.secret := secret;
      users, services, bookings, payments := [], [], [], [];
      nextId := 0;
    }

    /** `POST /api/auth/register`: 400 when the role is not a schema role or the email is taken,
        otherwise the new user (role customer by default) and a token signed for it. */
    method Register(name: string, email: string, password: string, role: Option<string>)
      returns (r: Result<Session>)
      requires Valid()
      modifies this
      ensures Valid()
      ensures r.Err? <==> RegisteredRole(role).None? || EmailTaken(old(users), email)
      ensures r.Err? ==> r.error == BadRequest && unchanged(this)
      ensures r.Ok? ==>
        && r.value.user == User(old(nextId), name, email, password, RegisteredRole(role).value)
        && r.value.token == Sign(secret, Claims(r.value.user.id, r.value.user.role))
        && users == old(users) + [r.value.user] && nextId == old(nextId) + 1
        && services == old(services) && bookings == old(bookings) && payments == old(payments)
    {
      var granted := RegisteredRole(role);
      if granted.None? || EmailTaken(users, email) {
        return Err(BadRequest);
      }
      var u := User(nextId, name, email, password, granted.value);
      users := users + [u];
      nextId := nextId + 1;
      r := Ok(Session(Sign(secret, Claims(u.id, u.role)), u));
    }

    /** `POST /api/auth/login`: succeeds exactly when some user has this email and this
        password, with a token signed for that user; otherwise 401 'Invalid credentials'. */
    method Login(email: string, password: string) returns (r: Result<Session>)
      ensures r.Ok? <==> exists u :: u in users && u.email == email && u.password == password
      ensures r.Ok? ==>
        && r.value.user in users && r.value.user.email == email
        && r.value.user.password == password
        && r.value.token == Sign(secret, Claims(r.value.user.id, r.value.user.role))
      ensures r.Err? ==> r.error == InvalidCredentials
    {
      var found := FindByCredentials(users, email, password);
      if found.None? {
        return Err(InvalidCredentials);
      }
      var u := found.value;
      r := Ok(Session(Sign(secret, Claims(u.id, u.role)), u));
    }

    /** `GET /api/services`: public, every service in stored order. */
    method ListServices() returns (r: seq<Service>)
      ensures r == services
    {
      r := services;
    }

    /** `GET /api/services/:id`: public; an unknown id is answered with null, not an error. */
    method GetService(id: Id) returns (r: Option<Service>)
      ensures r.Some? ==> r.value in services && r.value.id == id
      ensures r.None? <==> forall s :: s in services ==> s.id != id
    {
      r := FindService(services, id);
    }

    /** `POST /api/services`: admins only; stores the body as a new service. */
    method CreateService(header: Option<string>, body: ServiceBody) returns (r: Result<Service>)
      requires Valid()
      modifies this
      ensures Valid()
      ensures r.Ok? <==> Admit(secret, header, [Admin]).Ok?
      ensures r.Err? ==> r.error == Admit(secret, header, [Admin]).error && unchanged(this)
      ensures r.Ok? ==>
        && r.value == NewService(old(nextId), body)
        && services == old(services) + [r.value] && nextId == old(nextId) + 1
        && users == old(users) && bookings == old(bookings) && payments == old(payments)
    {
      var gate := Admit(secret, header, [Admin]);
      if gate.Err? {
        return Err(gate.error);
      }
      var s := NewService(nextId, body);
      services := services + [s];
      nextId := nextId + 1;
      r := Ok(s);
    }

    /** `PUT /api/services/:id`: admins only; merges the body into the service with that id and
        answers the updated service, or null when there is none. */
    method UpdateService(header: Option<string>, id: Id, patch: ServicePatch)
      returns (r: Result<Option<Service>>)
      requires Valid()
      modifies this
      ensures Valid()
      ensures r.Ok? <==> Admit(secret, header, [Admin]).Ok?
      ensures r.Err? ==> r.error == Admit(secret, header, [Admin]).error && unchanged(this)
      ensures r.Ok? ==>
        && services == PatchService(old(services), id, patch)
        && r.value == (match FindService(old(services), id)
                       case None => None
                       case Some(s) => Some(MergeService(s, patch)))
        && users == old(users) && bookings == old(bookings) && payments == old(payments)
        && nextId == old(nextId)
    {
      var gate := Admit(secret, header, [Admin]);
      if gate.Err? {
        return Err(gate.error);
      }
      PatchedServiceFound(services, id, patch);
      services := PatchService(services, id, patch);
      r := Ok(FindService(services, id));
    }

    /** `DELETE /api/services/:id`: admins only; removes the service, leaving bookings that
        reference it in place, and answers 'Service deleted' whether or not it existed. */
    method DeleteService(header: Option<string>, id: Id) returns (r: Result<string>)
      requires Valid()
      modifies this
      ensures Valid()
      ensures r.Ok? <==> Admit(secret, header, [Admin]).Ok?
      ensures r.Err? ==> r.error == Admit(secret, header, [Admin]).error && unchanged(this)
      ensures r.Ok? ==>
        && r.value == "Service deleted"
        && services == WithoutService(old(services), id)
        && |old(services)| - 1 <= |services|
        && users == old(users) && bookings == old(bookings) && payments == old(payments)
        && nextId == old(nextId)
    {
      var gate := Admit(secret, header, [Admin]);
      if gate.Err? {
        return Err(gate.error);
      }
      services := WithoutService(services, id);
      r := Ok("Service deleted");
    }

    /** `GET /api/bookings`: a customer receives exactly their own bookings; any other role
        receives every booking. */
    method ListBookings(header: Option<string>) returns (r: Result<seq<Booking>>)
      ensures Authenticate(secret, header).Err? ==> r == Err(Authenticate(secret, header).error)
      ensures Authenticate(secret, header).Ok? ==> r.Ok?
      ensures Authenticate(secret, header).Ok? && Authenticate(secret, header).value.role == Customer
        ==> && (forall b :: b in r.value <==> b in bookings && b.userId == Authenticate(secret, header).value.id)
            && r.value == BookingsOf(bookings, Authenticate(secret, header).value.id)
      ensures Authenticate(secret, header).Ok? && Authenticate(secret, header).value.role != Customer
        ==> r.value == bookings
    {
      var gate := Authenticate(secret, header);
      if gate.Err? {
        return Err(gate.error);
      }
      if gate.value.role == Customer {
        r := Ok(BookingsOf(bookings, gate.value.id));
      } else {
        r := Ok(bookings);
      }
    }

    /** `POST /api/bookings`: any authenticated caller; the body is stored with `userId` forced
        to the caller's id, status pending by default, and 400 for a status outside the enum.
        Neither the service nor the price is checked. */
    method CreateBooking(header: Option<string>, body: BookingBody) returns (r: Result<Booking>)
      requires Valid()
      modifies this
      ensures Valid()
      ensures Authenticate(secret, header).Err? ==>
        r == Err(Authenticate(secret, header).error) && unchanged(this)
      ensures Authenticate(secret, header).Ok? ==>
        r == NewBooking(old(nextId), Authenticate(secret, header).value.id, body)
      ensures r.Err? ==> unchanged(this)
      ensures r.Ok? ==>
        && r.value.userId == Authenticate(secret, header).value.id
        && bookings == old(bookings) + [r.value] && nextId == old(nextId) + 1
        && users == old(users) && services == old(services) && payments == old(payments)
    {
      var gate := Authenticate(secret, header);
      if gate.Err? {
        return Err(gate.error);
      }
      r := NewBooking(nextId, gate.value.id, body);
      if r.Ok? {
        bookings := bookings + [r.value];
        nextId := nextId + 1;
      }
    }

    /** `PUT /api/bookings/:id`: admins only; merges the body into the booking with no check on
        the status written (any string, any transition) or on the owner, and answers the updated
        booking, or null when there is none. */
    method UpdateBooking(header: Option<string>, id: Id, patch: BookingPatch)
      returns (r: Result<Option<Booking>>)
      requires Valid()
      modifies this
      ensures Valid()
      ensures r.Ok? <==> Admit(secret, header, [Admin]).Ok?
      ensures r.Err? ==> r.error == Admit(secret, header, [Admin]).error && unchanged(this)
      ensures r.Ok? ==>
        && bookings == PatchBooking(old(bookings), id, patch)
        && r.value == (match FindBooking(old(bookings), id)
                       case None => None
                       case Some(b) => Some(MergeBooking(b, patch)))
        && users == old(users) && services == old(services) && payments == old(payments)
        && nextId == old(nextId)
    {
      var gate := Admit(secret, header, [Admin]);
      if gate.Err? {
        return Err(gate.error);
      }
      PatchedBookingFound(bookings, id, patch);
      bookings := PatchBooking(bookings, id, patch);
      r := Ok(FindBooking(bookings, id));
    }

    /** `DELETE /api/bookings/:id`: any authenticated caller, whoever owns the booking and
        whatever its status; a hard delete answered 'Booking deleted'. */
    method DeleteBooking(header: Option<string>, id: Id) returns (r: Result<string>)
      requires Valid()
      modifies this
      ensures Valid()
      ensures r.Ok? <==> Authenticate(secret, header).Ok?
      ensures r.Err? ==> r.error == Authenticate(secret, header).error && unchanged(this)
      ensures r.Ok? ==>
        && r.value == "Booking deleted"
        && bookings == WithoutBooking(old(bookings), id)
        && |old(bookings)| - 1 <= |bookings|
        && users == old(users) && services == old(services) && payments == old(payments)
        && nextId == old(nextId)
    {
      var gate := Authenticate(secret, header);
      if gate.Err? {
        return Err(gate.error);
      }
      bookings := WithoutBooking(bookings, id);
      r := Ok("Booking deleted");
    }

    /** `POST /api/payments`: any authenticated caller; the body is stored as given, status
        pending by default. Nothing ties the amount to the booking. */
    method CreatePayment(header: Option<string>, body: PaymentBody) returns (r: Result<Payment>)
      requires Valid()
      modifies this
      ensures Valid()
      ensures Authenticate(secret, header).Err? ==>
        r == Err(Authenticate(secret, header).error) && unchanged(this)
      ensures Authenticate(secret, header).Ok? ==> r == NewPayment(old(nextId), body)
      ensures r.Err? ==> unchanged(this)
      ensures r.Ok? ==>
        && payments == old(payments) + [r.value] && nextId == old(nextId) + 1
        && Revenue(payments) == Revenue(old(payments)) + body.amount
        && users == old(users) && services == old(services) && bookings == old(bookings)
    {
      var gate := Authenticate(secret, header);
      if gate.Err? {
        return Err(gate.error);
      }
      r := NewPayment(nextId, body);
      if r.Ok? {
        RevenueAppend(payments, r.value);
        payments := payments + [r.value];
        nextId := nextId + 1;
      }
    }

    /** `GET /api/admin/users`: admins only; every user whose role is customer, passwords included. */
    method ListCustomers(header: Option<string>) returns (r: Result<seq<User>>)
      ensures r.Ok? <==> Admit(secret, header, [Admin]).Ok?
      ensures r.Err? ==> r.error == Admit(secret, header, [Admin]).error
      ensures r.Ok? ==> forall u :: u in r.value <==> u in users && u.role == Customer
      ensures r.Ok? ==> r.value == Customers(users)
    {
      var gate := Admit(secret, header, [Admin]);
      if gate.Err? {
        return Err(gate.error);
      }
      r := Ok(Customers(users));
    }

    /** `GET /api/admin/reports`: admins only; the booking count, the revenue over every
        payment whatever its status, and per-status counts that add up to the booking count. */
    method GetReports(header: Option<string>) returns (r: Result<Report>)
      ensures r.Ok? <==> Admit(secret, header, [Admin]).Ok?
      ensures r.Err? ==> r.error == Admit(secret, header, [Admin]).error
      ensures r.Ok? ==>
        && r.value.totalBookings == |bookings|
        && r.value.totalRevenue == Revenue(payments)
        && Total(r.value.bookingsByStatus) == |bookings|
        && forall s :: Lookup(r.value.bookingsByStatus, s) == CountStatus(bookings, s)
    {
      var gate := Admit(secret, header, [Admin]);
      if gate.Err? {
        return Err(gate.error);
      }
      GroupsAddUp(bookings);
      forall s ensures Lookup(GroupByStatus(bookings), s) == CountStatus(bookings, s) {
        GroupsCount(bookings, s);
      }
      r := Ok(Summary(bookings, payments));
    }
  }
}
