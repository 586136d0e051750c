/** The four persisted collections of server.js (users, services, bookings, payments), the
    request bodies that create and update them, the schema defaults and validations applied
    when a document is saved, and the error responses of the HTTP routes. */
module Schema {
  import opened Common

  /** A document identifier (a MongoDB ObjectId). */
  type Id = nat

  datatype Role = Customer | Admin

  function RoleName(r: Role): string {
    match r
    case Customer => "customer"
    case Admin => "admin"
  }

  /** The enum validation of the user schema's `role` field. */
  function ParseRole(s: string): (r: Option<Role>)
    ensures r.Some? ==> RoleName(r.value) == s
    ensures r.None? ==> forall x :: RoleName(x) != s
  {
    if s == "customer" then Some(Customer)
    else if s == "admin" then Some(Admin)
    else None
  }

  /** The booking lifecycle states listed by the booking schema's `status` enum. */
  datatype Status = Pending | Approved | Completed | Cancelled

  function StatusName(s: Status): string {
    match s
    case Pending => "pending"
    case Approved => "approved"
    case Completed => "completed"
    case Cancelled => "cancelled"
  }

  /** The enum validation of the booking schema's `status` field. */
  function ParseStatus(s: string): (r: Option<Status>)
    ensures r.Some? ==> StatusName(r.value) == s
    ensures r.None? ==> forall x :: StatusName(x) != s
  {
    if s == "pending" then Some(Pending)
    else if s == "approved" then Some(Approved)
    else if s == "completed" then Some(Completed)
    else if s == "cancelled" then Some(Cancelled)
    else None
  }

  datatype PaymentStatus = PaymentPending | PaymentCompleted | PaymentFailed

  function PaymentStatusName(s: PaymentStatus): string {
    match s
    case PaymentPending => "pending"
    case PaymentCompleted => "completed"
    case PaymentFailed => "failed"
  }

  /** The enum validation of the payment schema's `status` field. */
  function ParsePaymentStatus(s: string): (r: Option<PaymentStatus>)
    ensures r.Some? ==> PaymentStatusName(r.value) == s
    ensures r.None? ==> forall x :: PaymentStatusName(x) != s
  {
    if s == "pending" then Some(PaymentPending)
    else if s == "completed" then Some(PaymentCompleted)
    else if s == "failed" then Some(PaymentFailed)
    else None
  }

  /** A stored user. The password is kept and compared verbatim. */
  datatype User = User(id: Id, name: string, email: string, password: string, role: Role)

  datatype Service = Service(id: Id, name: string, description: string, category: string,
                             price: int, availability: bool)

  /** The fields of a service in a `POST /api/services` body. */
  datatype ServiceBody = ServiceBody(name: string, description: string, category: string,
                                     price: int, availability: bool)

  /** A `PUT /api/services/:id` body: only the fields present are changed. */
  datatype ServicePatch = ServicePatch(name: Option<string>, description: Option<string>,
                                       category: Option<string>, price: Option<int>,
                                       availability: Option<bool>)

  /** A stored booking. `status` is a string: saving a new booking checks it against the
      enum, but an update writes whatever string the request carries. */
  datatype Booking = Booking(id: Id, userId: Id, serviceId: Id, status: string, date: string,
                             quantity: int, totalPrice: int, notes: string)

  /** A `POST /api/bookings` body. `userId` may be present but is always overridden. */
  datatype BookingBody = BookingBody(userId: Option<Id>, serviceId: Id, status: Option<string>,
                                     date: string, quantity: int, totalPrice: int, notes: string)

  /** A `PUT /api/bookings/:id` body: every field, including `userId`, may be present. */
  datatype BookingPatch = BookingPatch(userId: Option<Id>, serviceId: Option<Id>,
                                       status: Option<string>, date: Option<string>,
                                       quantity: Option<int>, totalPrice: Option<int>,
                                       notes: Option<string>)

  /** A payment. `paymentMethod` is the document's `method` field, renamed because `method` is a
      Dafny keyword. */
  datatype Payment = Payment(id: Id, bookingId: Id, amount: int, status: PaymentStatus,
                             paymentMethod: string)

  /** A `POST /api/payments` body; `status` defaults to pending when absent. */
  datatype PaymentBody = PaymentBody(bookingId: Id, amount: int, status: Option<string>,
                                     paymentMethod: string)

  /** The error responses of the routes. `Forbidden` is the bare 403 of a token that fails
      verification; `AccessDenied` is the 403 with message 'Access denied' of a role check. */
  datatype Error = Unauthorized | Forbidden | AccessDenied | InvalidCredentials | BadRequest

  function Code(e: Error): (code: nat)
    ensures code in {400, 401, 403}
    ensures code == 401 <==> e == Unauthorized || e == InvalidCredentials
    ensures code == 403 <==> e == Forbidden || e == AccessDenied
  {
    match e
    case Unauthorized => 401
    case Forbidden => 403
    case AccessDenied => 403
    case InvalidCredentials => 401
    case BadRequest => 400
  }

  datatype Result<+T> = Ok(value: T) | Err(error: Error)

  function NewService(id: Id, body: ServiceBody): (r: Service)
    ensures r.id == id
    ensures r.name == body.name && r.description == body.description && r.category == body.category
    ensures r.price == body.price && r.availability == body.availability
  {
    Service(id, body.name, body.description, body.category, body.price, body.availability)
  }

  /** `findByIdAndUpdate` on a service: the body's fields overwrite the stored ones. */
  function MergeService(s: Service, p: ServicePatch): (r: Service)
    ensures r.id == s.id
    ensures r.name == p.name.GetOr(s.name) && r.description == p.description.GetOr(s.description)
    ensures r.category == p.category.GetOr(s.category) && r.price == p.price.GetOr(s.price)
    ensures r.availability == p.availability.GetOr(s.availability)
    ensures p == ServicePatch(None, None, None, None, None) ==> r == s
  {
    Service(s.id, p.name.GetOr(s.name), p.description.GetOr(s.description),
            p.category.GetOr(s.category), p.price.GetOr(s.price),
            p.availability.GetOr(s.availability))
  }

  /** `new Booking({ ...req.body, userId: req.user.id }).save()`: the owner is the caller
      whatever the body says, status defaults to pending, and a status outside the enum is
      a validation error. Nothing checks that the service exists or that the price is right. */
  function NewBooking(id: Id, caller: Id, body: BookingBody): (r: Result<Booking>)
    ensures r.Ok? <==> body.status.None? || ParseStatus(body.status.value).Some?
    ensures r.Err? ==> r.error == BadRequest
    ensures r.Ok? ==> r.value.id == id && r.value.userId == caller
    ensures r.Ok? && body.status.None? ==> r.value.status == "pending"
    ensures r.Ok? && body.status.Some? ==> r.value.status == body.status.value
    ensures r.Ok? ==> (r.value.serviceId == body.serviceId && r.value.date == body.date
                       && r.value.quantity == body.quantity && r.value.totalPrice == body.totalPrice
                       && r.value.notes == body.notes)
  {
    var status := body.status.GetOr(StatusName(Pending));
    if ParseStatus(status).None? then Err(BadRequest)
    else Ok(Booking(id, caller, body.serviceId, status, body.date, body.quantity,
                    body.totalPrice, body.notes))
  }

  /** `findByIdAndUpdate` on a booking: the body's fields overwrite the stored ones, with no
      check on the status written or on who owns the booking. */
  function MergeBooking(b: Booking, p: BookingPatch): (r: Booking)
    ensures r.id == b.id
    ensures r.userId == p.userId.GetOr(b.userId) && r.serviceId == p.serviceId.GetOr(b.serviceId)
    ensures r.status == p.status.GetOr(b.status) && r.date == p.date.GetOr(b.date)
    ensures r.quantity == p.quantity.GetOr(b.quantity)
    ensures r.totalPrice == p.totalPrice.GetOr(b.totalPrice) && r.notes == p.notes.GetOr(b.notes)
  {
    Booking(b.id, p.userId.GetOr(b.userId), p.serviceId.GetOr(b.serviceId),
            p.status.GetOr(b.status), p.date.GetOr(b.date), p.quantity.GetOr(b.quantity),
            p.totalPrice.GetOr(b.totalPrice), p.notes.GetOr(b.notes))
  }

  /** A patch that carries only a status, as the admin bookings page sends. */
  function StatusOnly(status: string): (p: BookingPatch)
    ensures forall b :: MergeBooking(b, p) == b.(status := status)
  {
    BookingPatch(None, None, Some(status), None, None, None, None)
  }

  /** `new Payment(req.body).save()`: stored as given, status pending when absent, and a
      status outside the enum is a validation error. */
  function NewPayment(id: Id, body: PaymentBody): (r: Result<Payment>)
    ensures r.Ok? <==> body.status.None? || ParsePaymentStatus(body.status.value).Some?
    ensures r.Err? ==> r.error == BadRequest
    ensures r.Ok? ==> (r.value.id == id && r.value.bookingId == body.bookingId
                       && r.value.amount == body.amount && r.value.paymentMethod == body.paymentMethod)
    ensures r.Ok? && body.status.None? ==> r.value.status == PaymentPending
    ensures r.Ok? && body.status.Some? ==> PaymentStatusName(r.value.status) == body.status.value
  {
    var status := ParsePaymentStatus(body.status.GetOr(PaymentStatusName(PaymentPending)));
    if status.None? then Err(BadRequest)
    else Ok(Payment(id, body.bookingId, body.amount, status.value, body.paymentMethod))
  }
}
