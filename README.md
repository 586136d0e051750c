# TRIXTECH booking system: a Dafny model of its booking back end and client decision rules

This project models the core of a booking and reservation platform. Customers browse services,
book them and pay. Administrators manage the service catalog, move bookings through their
lifecycle and read aggregate reports. It has two halves.

- **The server** (`server.js`): an Express application over four MongoDB collections (users,
  services, bookings, payments). It is modelled as a `Store` class with one `seq` field per
  collection. Each HTTP route is a method that takes the request's `Authorization` header (the
  caller context) and body, updates the collections, and returns the response: a value, or an
  `Error` whose `Code` is 400, 401 or 403. The caller is identified in two steps. `Authenticate`
  takes the second space-separated field of the header and verifies it as a token. `Authorize`
  then checks the role against the route's list.
- **The client pages** that hold the only written-down form of the booking lifecycle:
  - the admin bookings page (the actions offered for each status, the status badge, its
    guard);
  - the customer bookings page (cancel-by-delete, its guard);
  - the `ProtectedRoute` guard;
  - the landing-page redirect;
  - the session context (restoring the user from browser storage, logout, `useAuth`).

  The pure decisions are functions. Redirects and requests are returned values. Page state
  (`bookings`, `loading`, the provider's `user`) lives in small classes whose methods take the
  server's reply as a parameter.

The main results:

- A token issued by register or login authenticates as exactly the `{id, role}` it was signed
  with (`Gate.AuthenticateIssued`).
- The admin-only routes admit exactly admins (`Gate.AdminOnly`).
- A customer's booking list holds exactly their own bookings (`Store.Store.ListBookings`).
- The report's per-status counts add up to the booking count, and each one equals an
  independent count (`Reports.GroupsAddUp`, `Reports.GroupsCount`).
- The admin page's buttons offer exactly the forward edges of the lifecycle table
  (`AdminBookings.Actions`). Along them a booking only moves forward, never back to pending,
  and takes at most two steps (`AdminBookings.UiPathsAdvance`).
- The server's `PUT /api/bookings/:id` accepts any status and any transition. A `{status}`
  body gives any booking any status string (`Schema.StatusOnly`,
  `AdminBookings.ServerUpdateIgnoresLifecycle`), and the route stores exactly that merge
  (`Store.Store.UpdateBooking`). So the lifecycle holds only along paths driven by the page's
  buttons.

Files: `common.dfy` (Option, browser storage), `text.dfy` (split, decimal digits),
`schema.dfy` (entities, bodies, defaults, validations, errors), `token.dfy` (sign/verify),
`gate.dfy` (the two-step gate), `tables.dfy` (collection queries), `reports.dfy`, `store.dfy`
(the routes), `lifecycle.dfy` (the transition table), `client_api.dfy` (requests the pages
send), `badge.dfy`, `admin_bookings.dfy`, `customer_bookings.dfy`, `auth_context.dfy`,
`protected_route.dfy`, `landing.dfy`.

## Behaviour worth knowing (the model follows the code)

- `GET /api/services/:id` answers `null` for an unknown id (server.js:130-131)
  (`Store.Store.GetService`).
- `POST /api/payments` stores the body as given (server.js:211-213). The status defaults to
  `pending` (server.js:64), and a status outside the enum is a 400.
- `POST /api/bookings` takes `status` and `totalPrice` from the body (server.js:182). It does
  not check that the service exists, and it does not compute the price.
- `PUT /api/bookings/:id` merges any body, `userId` included, with no transition check
  (server.js:192). The update does not run the schema's validators, so any status string can be
  stored. For that reason a stored booking's `status` is a string in this model.
- A duplicate email at registration is a 400 (server.js:98, 102): the save fails on the unique
  index (server.js:26).
- A token that fails verification is a bare 403 (server.js:79). The pages send `Bearer null`
  when no token is stored (app/customer/bookings/page.tsx:32-34), and that also gets a 403.

## Model

| member | source | states |
|---|---|---|
| Text.Split | server.js:74 | `split(' ')` gives at least one field and no field contains the separator |
| Schema.ParseRole | server.js:28 | the role enum accepts exactly `customer` and `admin` and gives back the role named |
| Schema.ParseStatus | server.js:50 | the booking status enum accepts exactly the four status names |
| Schema.ParsePaymentStatus | server.js:64 | the payment status enum accepts exactly `pending`, `completed` and `failed` |
| Schema.Code | server.js:72-91 | a missing token and bad credentials are 401, a failed verification and a refused role are 403, everything else is 400 |
| Schema.NewService | server.js:139 | a new service takes the allocated id and every field of the body |
| Schema.MergeService | server.js:147-150 | every field present in the update body replaces the stored one; the id never changes; an empty body changes nothing |
| Schema.NewBooking | server.js:180-184 | the owner is the caller whatever the body says; status is `pending` when absent; a status outside the enum is a 400; every other field is taken from the body as given |
| Schema.MergeBooking | server.js:190-193 | every field present in the update body replaces the stored one, `userId` and any status string included; the id never changes |
| Schema.StatusOnly | app/admin/bookings/page.tsx:59 | a `{status}` body changes the status of any booking and nothing else |
| Schema.NewPayment | server.js:209-213 | the payment is stored from the body; status is `pending` when absent; a status outside the enum is a 400 |
| Common.Item | app/admin/bookings/page.tsx:24-25 | `getItem` yields the stored string exactly when the key is stored, and null otherwise |
| Token.Sign | server.js:99 | an issued token is non-empty and has no space, so it survives the `Bearer` header |
| Token.Verify | server.js:78 | only a token of the signed shape that carries this server's secret decodes, to the role its first field names and the id its second field's digits spell; `VerifySigned` and `VerifyOtherSecret` give its round trip and its refusal of foreign tokens |
| Token.VerifySigned | server.js:78-81 | verifying a token with the secret it was signed with gives back exactly the signed `{id, role}` |
| Token.VerifyOtherSecret | server.js:78-79 | a token signed with another secret does not verify |
| Gate.ExtractToken | server.js:73-76 | a token is found exactly when the header is present and its second space-separated field is non-empty, and it is that field (so `Bearer a b` yields `a`) |
| Gate.SecondField | server.js:74 | for any one-word scheme, `<scheme> <token>` yields the token (the scheme is not checked) |
| Gate.NoSecondField | server.js:74-76 | a header without a space, such as a bare `Bearer`, yields no token |
| Gate.Authenticate | server.js:72-83 | 401 exactly when no token is found; 403 exactly when the found token fails verification; otherwise the decoded claims |
| Gate.Authorize | server.js:86-91 | passes exactly when the caller's role is listed, unchanged; otherwise 403 'Access denied' |
| Gate.Admit | server.js:137 | the two steps in order: a failed authentication is answered as such; otherwise passes exactly for a listed role |
| Gate.AuthenticateIssued | server.js:78-81 | `Bearer <issued token>` authenticates as exactly the claims register or login signed |
| Gate.AuthenticateForeign | server.js:78-79 | a token under another secret is a 403, not a 401 |
| Gate.AuthenticateNull | app/customer/bookings/page.tsx:32-34 | the `Bearer null` a page sends without a stored token is a 403 |
| Gate.AdminOnly | server.js:137 | on the admin-only routes (also lines 147, 156, 190, 219, 228) no header gives 401; an issued token passes exactly for an admin and otherwise gets 403 'Access denied' |
| Tables.Filter | server.js:170 | a query keeps exactly the documents that match it, each as many times as stored, never more than it had |
| Tables.First | server.js:109 | `findOne` finds a matching document exactly when one exists |
| Tables.UpdateWhere | server.js:192 | an update changes exactly the matching documents and keeps the table's length and order |
| Tables.DeleteRemovesAtMostOne | server.js:201 | with distinct `_id`s, a delete by id removes at most one document |
| Tables.FilterKeepsDistinct | server.js:158 | deleting keeps the remaining documents' `_id`s distinct |
| Tables.FindByCredentials | server.js:109 | a user is found exactly when some stored user has that email and that password |
| Tables.Customers | server.js:221 | exactly the users whose role is customer |
| Tables.BookingsOf | server.js:170 | exactly the bookings whose `userId` is the given id |
| Tables.FindService | server.js:130 | a service is found exactly when one has that id |
| Tables.FindBooking | server.js:192 | a booking is found exactly when one has that id |
| Tables.WithoutService | server.js:158 | after the delete, exactly the services with another id remain; with distinct ids, at most one is removed and the rest keep distinct ids |
| Tables.WithoutBooking | server.js:201 | after the delete, exactly the bookings with another id remain; with distinct ids, at most one is removed and the rest keep distinct ids |
| Tables.PatchService | server.js:149 | the service with the id is merged with the body; every other service is unchanged |
| Tables.PatchBooking | server.js:192 | the booking with the id is merged with the body; every other booking is unchanged |
| Tables.PatchedBookingFound | server.js:192 | the booking returned after an update (`new: true`) is the old one merged with the body, or null |
| Tables.PatchedServiceFound | server.js:149 | the service returned after an update is the old one merged with the body, or null |
| Tables.CredentialsFindRegistered | server.js:97-110 | emails are unique, so logging in with the credentials just registered finds the new user |
| Reports.Revenue | server.js:231 | the sum of every payment's amount, 0 with no payments and never negative when no amount is; `RevenueAppend` and `RevenueIgnoresStatus` relate it to the payments |
| Reports.GroupByStatus | server.js:232 | at most one group per booking and none without bookings; `GroupsAddUp` and `GroupsCount` prove the counts against an independent count |
| Reports.Summary | server.js:230-233 | the report's booking count is the number of bookings |
| Reports.GroupsAddUp | server.js:232 | the per-status counts add up to the total number of bookings |
| Reports.GroupsCount | server.js:232 | each status's count equals the number of bookings with that status; no status has two groups or an empty one |
| Reports.RevenueIgnoresStatus | server.js:231 | revenue is the completed payments' sum plus the pending and failed payments' sum, so it does not filter by status |
| Reports.RevenueAppend | server.js:231 | one more payment raises the revenue by its amount |
| Store.RegisteredRole | server.js:97 | an absent or empty role gives `customer`; a given role is kept if it is an enum role, and refused otherwise |
| Store.Store.Register | server.js:94-104 | 400 with the users unchanged exactly when the role is invalid or the email is taken; otherwise appends the user and returns a token signed for its id and role |
| Store.Store.Login | server.js:106-116 | succeeds exactly when some user has that exact email and password, with a token for that user; otherwise 401 'Invalid credentials' |
| Store.Store.ListServices | server.js:119-126 | anyone gets every service |
| Store.Store.GetService | server.js:128-135 | anyone gets the service with the id, or null when there is none |
| Store.Store.CreateService | server.js:137-145 | admins only (a refused caller leaves the store unchanged); appends the body as a new service |
| Store.Store.UpdateService | server.js:147-154 | admins only; merges the body into the service and returns the merged service, or null |
| Store.Store.DeleteService | server.js:156-163 | admins only; removes the service with that id (at most one, as ids are distinct), leaving bookings that reference it |
| Store.Store.ListBookings | server.js:166-178 | a customer gets exactly the bookings whose `userId` is their id, each once per stored copy (the `find` result itself); any other role gets every booking |
| Store.Store.CreateBooking | server.js:180-188 | any signed caller; the stored booking's `userId` is the caller's id whatever the body says, with status `pending` when the body gives none |
| Store.Store.UpdateBooking | server.js:190-197 | admins only; merges any body, with no transition check, and returns the merged booking, or null |
| Store.Store.DeleteBooking | server.js:199-206 | any signed caller, any booking, any status; a hard delete of the one booking with that id |
| Store.Store.CreatePayment | server.js:209-217 | any signed caller; stores the body with status `pending` by default; the revenue rises by the amount |
| Store.Store.ListCustomers | server.js:219-226 | admins only; exactly the customers, each once per stored copy, passwords included |
| Store.Store.GetReports | server.js:228-237 | admins only; counts every booking, sums every payment whatever its status (0 with none), and gives per-status counts that add up to the booking count |
| Lifecycle.Stage | app/admin/bookings/page.tsx:134-162 | pending is stage 0, approved 1, completed and cancelled 2 (the final states), and every string outside the enum 3 |
| Lifecycle.AllowedAdvances | app/admin/bookings/page.tsx:134-162 | every forward edge raises the stage and ends at a known status |
| ClientApi.Authorization | app/admin/bookings/page.tsx:39 | `Bearer ` followed by the stored token, or by `null` when none is stored (also lines 57, and app/customer/bookings/page.tsx:34, 52) |
| ClientApi.ListRequest | app/admin/bookings/page.tsx:37-40 | the list request is a GET of `/api/bookings` with no body, carrying `Bearer` and the stored token |
| ClientApi.StoredTokenAuthenticates | app/admin/bookings/page.tsx:37-40 | a page holding an issued token reaches the server as the signed caller |
| ClientApi.MissingTokenForbidden | app/customer/bookings/page.tsx:32-34 | a page without a stored token sends `Bearer null`, and the server answers 403 |
| ClientApi.PageLogout | app/admin/bookings/page.tsx:70-74 | the pages' logout removes only `token` and `role` and keeps every other key (the customer page does the same at lines 63-67) |
| Badge.BadgeColour | app/admin/bookings/page.tsx:125-129 | green exactly for `approved`, yellow exactly for `pending`, red for every other string; the customer page repeats the same rule at lines 118-122 |
| Badge.Upper | app/admin/bookings/page.tsx:130 | upper-cases an ASCII lower-case letter and leaves any other character alone |
| Badge.Label | app/admin/bookings/page.tsx:130 | the label has the status's length, its first letter upper-cased and the rest unchanged |
| Badge.StatusLabels | app/admin/bookings/page.tsx:130 | the four statuses are labelled Pending, Approved, Completed and Cancelled |
| AdminBookings.MountPlan | app/admin/bookings/page.tsx:23-33 | the page fetches exactly when a truthy token and the role `admin` are stored; otherwise it redirects to `/auth/login` and fetches nothing |
| AdminBookings.Actions | app/admin/bookings/page.tsx:134-162 | the offered targets are exactly the forward edges of the lifecycle from that status (pending gives approved and cancelled, approved gives completed, anything else gives none); none targets `pending` |
| AdminBookings.UpdateRequest | app/admin/bookings/page.tsx:50-60 | the update is a PUT on the booking, with the stored token, whose body changes only the status |
| AdminBookings.UiPathsAdvance | app/admin/bookings/page.tsx:134-162 | along the page's buttons the stage rises strictly, no status repeats, nothing returns to pending, and a path has at most three statuses |
| AdminBookings.OfferedUpdateIsForward | app/admin/bookings/page.tsx:139-158 | an offered click changes only the booking's status, along an allowed edge |
| AdminBookings.ServerUpdateIgnoresLifecycle | server.js:190-193 | a `{status}` update gives any booking any status string and changes nothing else; in particular it takes a completed booking back to pending, a move the table does not allow |
| AdminBookings.Page.FetchBookings | app/admin/bookings/page.tsx:35-48 | a list reply replaces `bookings` and a failed one leaves them; `loading` ends in every case |
| AdminBookings.Page.Mount | app/admin/bookings/page.tsx:23-33 | a refused guard redirects, sends nothing and changes no state; otherwise the list is fetched |
| AdminBookings.Page.HandleUpdateStatus | app/admin/bookings/page.tsx:50-68 | sends the PUT; re-fetches, and so updates the state, only when the response is ok |
| CustomerBookings.MountPlan | app/customer/bookings/page.tsx:23-28 | a missing token redirects to login, and the list is fetched in every case |
| CustomerBookings.CanCancel | app/customer/bookings/page.tsx:128-137 | the Cancel button shows exactly for a pending booking |
| CustomerBookings.CancelRequest | app/customer/bookings/page.tsx:50-53 | cancel is a DELETE of that booking with no body, not a status update |
| CustomerBookings.CancelAdmitted | app/customer/bookings/page.tsx:49-53 | with an issued token, the DELETE authenticates as the signed caller, whatever their role |
| CustomerBookings.Page.FetchBookings | app/customer/bookings/page.tsx:30-43 | a list reply replaces `bookings` and a failed one leaves them; `loading` ends in every case |
| CustomerBookings.Page.Mount | app/customer/bookings/page.tsx:23-28 | the redirect follows the token, and the list request is sent whatever it is |
| CustomerBookings.Page.HandleCancel | app/customer/bookings/page.tsx:45-61 | without confirmation nothing is sent and nothing changes; with it the DELETE is sent and the list is re-fetched only when the response is ok |
| AuthContext.ItemOrEmpty | lib/auth-context.tsx:33-36 | the stored string for the key, or '' when it is absent |
| AuthContext.Restore | lib/auth-context.tsx:26-38 | the user is present exactly when the stored token and role are both non-empty (an empty token or role restores no user); its id, name and email are the stored values or ''; its role is the stored string, not checked |
| AuthContext.ClearSession | lib/auth-context.tsx:43-47 | exactly the five session keys are removed and every other key keeps its value |
| AuthContext.NoSessionAfterLogout | lib/auth-context.tsx:42-48 | after logout no user is restored |
| AuthContext.Provider.Initialise | lib/auth-context.tsx:26-40 | the user becomes the restored one and `loading` becomes false in every case |
| AuthContext.Provider.Logout | lib/auth-context.tsx:42-50 | removes the five keys, sets the user to null and navigates to `/` |
| AuthContext.UseAuth | lib/auth-context.tsx:59-65 | throws exactly outside a provider, and otherwise yields the provider's value |
| ProtectedRoute.Home | lib/protected-route.tsx:24 | admins' home is `/admin/dashboard`; every other role's is `/customer/home` |
| ProtectedRoute.Redirect | lib/protected-route.tsx:16-27 | no redirect while loading; to `/auth/login` without a user; to the user's home when a required role differs |
| ProtectedRoute.Render | lib/protected-route.tsx:29-41 | a placeholder exactly while loading; children exactly when not loading, with a user and no differing required role; no redirect when children render; nothing rendered exactly when a redirect is issued |
| Landing.LandingRedirect | app/page.tsx:10-21 | no redirect exactly when no non-empty token is stored (an empty token counts as none); `/admin/dashboard` exactly for a non-empty token with role `admin`; `/customer/home` for a non-empty token with any other or no role |
| Landing.TokenValueIrrelevant | app/page.tsx:14-20 | the decision depends on whether a token is present, not on its value |
| Landing.SameHomeAsGuard | app/page.tsx:15-18 | with a token, the landing page sends a user to the same home `ProtectedRoute` does |
| Landing.NoRedirectAfterLogout | app/page.tsx:10-21 | after either logout the landing page stays put; after the pages' logout no session is restored, even though id, name and email remain stored |

## Left out

- HTTP and server plumbing: Express wiring, CORS, dotenv, the MongoDB connection and
  `app.listen` (server.js:1-21, 239-240). These are I/O.
- JWT cryptography. Signing is a keyed encoding (role, id and secret joined by `.`), and the
  secret is a number. The model keeps what the server relies on: a token verifies under its own
  secret as its claims, and does not verify under another. It does not model the
  unforgeability of real signatures, the `iat` claim, or expiry (there is none in the code).
- Token.Verify: accepts only the token shape `Sign` produces, so a token signed with the right
  secret over a role outside the enum does not decode here. The server never issues one.
- MongoDB ids are natural numbers from one counter. Malformed ids (cast errors, answered 400)
  cannot occur. `populate` joins on the booking list are not modelled; bookings are returned
  with their ids.
- Request bodies: absent fields are modelled only where the code gives them a default (the
  user's role, the booking's and the payment's status) and in update bodies. Other fields of a
  creation body are always present. JSON type casting by the schema is not modelled.
- Store.Store.CreateService, Store.Store.CreateBooking, Store.Store.CreatePayment: always
  allocate a fresh id. The routes spread the client body into the new document
  (server.js:139, 182, 211), so a client-supplied `_id` would become the id, and a duplicate
  one would be a 400. Bodies here have no `_id` field.
- Tables.Filter: states which documents a query keeps and how many times, not that they keep
  their stored order.
- Store.Store.UpdateBooking: a `_id` in an update body (rejected by the database) is not
  representable.
- Money (`price`, `amount`, `totalPrice`) is an integer, not a JavaScript Number.
- `createdAt` and the other date defaults depend on the clock and are not stored.
- The order of the report's status groups is unspecified by the database. The model fixes
  one order and proves the counts, not the order.
- Badge.Upper: upper-cases ASCII letters only, not Unicode `toUpperCase`. Every status name is
  ASCII.
- Rendering and navigation: JSX, `fetch`, `confirm`, `alert` and `router.push`. A redirect or a
  request is a returned value. The server's reply and the user's confirmation are parameters.
  A reply that is not a JSON list (an error object) is modelled as a failed fetch.
- The browser's storage is a map. The session provider holds its own copy, so writes by other
  pages (the login page, not part of this model) are not seen.
- The other pages (services, dashboard, customers, customer home, register, booking form,
  payment) only fetch and render, and their guards repeat the ones modelled here.
- Concurrency between asynchronous handlers, including the lost-update race on a booking
  update. No handler coordinates with another.
