# Payment lifecycle and its gates, in Dafny

This project models the server side of a small international-payments
application. Customers register and log in. Customers create payment
requests. Staff (employees) list them, verify them, submit them to the
simulated SWIFT network, or delete them.

The model covers six parts:

- `models.dfy` (`Models`): the User and Payment records and their enumerations
  (`Role`, `Status`, and the status default `pending`). It also holds
  the `Store` class: the two tables as maps plus their auto-increment
  counters. `Store.Valid` holds the constraints the database keeps: keys
  below the counters, UNIQUE username / account number / ID number, and
  every payment's `customerId` naming a user.
- `validation.dfy` (`Validation`): the whitelist checks that run before the
  create-payment and register handlers. Each error list has one entry per
  failing check, in declaration order, with the route's message or the
  library's default "Invalid value".
- `middleware.dfy` (`Middleware`): `authenticateToken` and `authorizeRole`.
  Each is a pure decision, and `AuthenticateToken` is also a method that
  writes `req.user`.
- `payment_routes.dfy` (`PaymentRoutes`): the create / list / verify /
  submit / delete handlers as methods over the store, and `Handle`, which
  puts the guards in front of them. The invariants of every reachable
  store are `Store.Valid` and `Lifecycle`. `Lifecycle` says the nullable
  columns match the status and the stored fields passed the whitelist.
  `Advances` is the relation every request keeps between the old and the
  new payments table: the status never moves back, recorded verifier and
  submission time are kept, ids are never reused.
- `auth_routes.dfy` (`AuthRoutes`): register, login and `/me`.
- `employee_portal.dfy` (`EmployeePortal`): the staff page's status filter
  and counters over the listing.

Library calls are parameters:

- Token verification is `verify: string -> Option<Identity>`.
- The bcrypt comparison is `compare`.
- The hash a registration stores is an input.
- A login's token is the `{ id, role }` claims it would sign.
- The clock is a `now` argument.

Where the code does something other than what was evidently intended,
the model follows the code:

- An ID number is meant to be 10 to 20 digits. The `idNumber` check
  passes a regular expression to `isLength`, which then bounds nothing.
  Only the library's default `isNumeric` pattern
  (`^[+-]?([0-9]*[.])?[0-9]+$`) applies, so "12345" and "-1.5" are
  accepted. `Validation.IdNumberLengthUnchecked` shows both.
- Verify and submit answer with the plain updated record, without the
  owner's fields. Only the staff listing joins them in.
- Create stores the caller's own id as `customerId`. A caller id with no
  user row breaks the foreign key, and the handler answers 500.
- A transition is meant to be one atomic conditional update. The code
  reads, checks, then writes. A sequential model cannot tell the two
  apart.
- The login route declares `exists()` checks but never reads their
  results, so the model applies none.

## Model

| member | source | states |
|---|---|---|
| `Models.NewPayment` | server/models/index.js:24-26 | a new payment is `pending` with `verifiedBy` and `submittedAt` unset, so its nullable columns match its status |
| `Models.StatusNameInjective` | server/models/index.js:24 | the three status names are distinct; `StatusFilterSelectsStatus` rests on it |
| `Models.Store.constructor` | server/models/index.js:9-31 | an empty store satisfies the table constraints (ids, unique user columns, payment-to-user foreign key) |
| `Validation.PaymentErrors` | server/routes/payments.js:16-20 | the error list is empty exactly when amount > 0, currency in {ZAR, USD, EUR}, provider in {SWIFT}, payee account 6-20 digits and SWIFT code 8-11 ASCII alphanumerics; an entry is in the list exactly when it is a failing field's error with that field's message, so a passing field is never named |
| `Validation.RegisterErrors` | server/routes/auth.js:12-16 | the error list is empty exactly when the name matches `[A-Za-z\s\-'.]{2,100}`, the ID number is numeric, the account number is 6-20 digits, the username is alphanumeric with at least 4 characters and the password is strong; an entry is in the list exactly when it is a failing field's error with that field's message, so a passing field is never named |
| `Validation.PaymentErrorsInOrder` | server/routes/payments.js:16-20 | the payment errors come in the order the chains are declared: amount, currency, provider, payee account, SWIFT code |
| `Validation.RegisterErrorsInOrder` | server/routes/auth.js:12-16 | the registration errors come in the order the chains are declared: full name, ID number, account number, username, password |
| `Validation.StrongPasswordIsLookaheads` | server/routes/auth.js:16 | the one-pass password rule holds exactly when the string has at least eight characters, no line terminator, and some lower-case letter, upper-case letter, digit and character outside `[A-Za-z0-9]`, as the four lookaheads require |
| `Validation.ScanFindsEachClass` | server/routes/auth.js:16 | the scan records a character class exactly when some character of the password is in it |
| `Validation.IdNumberLengthUnchecked` | server/routes/auth.js:13 | the ID-number rule accepts "12345" and "-1.5", which are not 10 to 20 digits |
| `Middleware.Authenticate` | server/middleware/auth.js:4-11 | no token gives 401 "Unauthorized"; a token that fails verification gives 401 "Invalid token"; otherwise the request proceeds with exactly the token's claims |
| `Middleware.AuthorizeRole` | server/middleware/auth.js:14-20 | a missing identity gives 401 before any role check; a different role gives 403 "Forbidden"; the request proceeds exactly when the role matches |
| `Middleware.GuardAdmitsOnlyRole` | server/middleware/auth.js:4-20 | the two guards chained admit a request exactly when its token verifies and names the required role; a verified token with another role gets 403, and 401 comes only from authentication |
| `Middleware.AuthenticateToken` | server/middleware/auth.js:4-11 | the method makes the decision of `Authenticate`; when it proceeds (calls `next`) it has set `req.user` to the claims, and when it answers 401 `req.user` is untouched |
| `PaymentRoutes.AdvancesTransitive` | server/routes/payments.js:53-68 | two steps that each keep records moving forward compose into one such step |
| `PaymentRoutes.MonotoneAlongRun` | server/routes/payments.js:29-105 | over any run of requests, a payment present at the start and at the end has not moved back: verified is never pending again, and submitted stays submitted with the same verifier and submission time |
| `PaymentRoutes.IdsBelow` | server/routes/payments.js:42 | enumerates every stored id below the counter, each once, highest first |
| `PaymentRoutes.Insert` | server/routes/payments.js:44 | inserting an id adds exactly one occurrence of that id and keeps every other entry |
| `PaymentRoutes.InsertKeepsOrder` | server/routes/payments.js:44 | inserting into a newest-first list keeps it newest first |
| `PaymentRoutes.InsertKeepsDistinct` | server/routes/payments.js:44 | inserting a new id into a duplicate-free list keeps it duplicate-free |
| `PaymentRoutes.SortNewestFirst` | server/routes/payments.js:44 | the result is a permutation of the ids (same multiset) |
| `PaymentRoutes.SortIsOrdered` | server/routes/payments.js:44 | the sorted ids are ordered by `createdAt` descending, and duplicate-free when the input is |
| `PaymentRoutes.ListingOrder` | server/routes/payments.js:42-45 | the listing order holds every stored payment id once, newest first |
| `PaymentRoutes.RowsAreStored` | server/routes/payments.js:42-43 | a row built from a stored id is that stored payment joined with its owner's name, account number and username |
| `PaymentRoutes.RowsFollowIds` | server/routes/payments.js:42-45 | rows built from a duplicate-free, newest-first id list cover every id in it, name no payment twice, and are newest first |
| `PaymentRoutes.List` | server/routes/payments.js:41-47 | the staff listing returns every stored payment exactly once, ordered by `createdAt` descending, each with its owner joined |
| `PaymentRoutes.Create` | server/routes/payments.js:14-38 | a non-customer gets 403 even with invalid fields; a customer with failing fields gets 400 with all failures; an unknown caller id gets 500; every rejection changes nothing; otherwise exactly one new `pending` record with the caller as owner and the five fields is stored under a fresh id and returned (201) |
| `PaymentRoutes.Verify` | server/routes/payments.js:50-59 | a missing id gives 404 and a non-pending payment gives 400 "Only pending can be verified", both changing nothing; a pending one becomes `verified` with `verifiedBy` the acting employee, and no other field or record changes apart from `updatedAt`, which is set to `now` |
| `PaymentRoutes.Submit` | server/routes/payments.js:62-74 | a missing id gives 404 and a non-verified payment gives 400 "Payment must be verified first", both changing nothing; a verified one becomes `submitted` with `submittedAt` set to `now` and `verifiedBy` kept, and nothing else changes apart from `updatedAt`, which is set to `now` |
| `PaymentRoutes.Delete` | server/routes/payments.js:77-105 | a missing id gives 404 with no change; otherwise exactly that record is removed, from any status, and its id, amount, currency, status and owner are reported |
| `PaymentRoutes.Handle` | server/routes/payments.js:14-105 | a rejected token changes nothing; a customer gets 403 on every staff route and changes nothing; a verified token's create request has create's answer and effect with the token's claims as the caller (so an employee gets 403); a request through the employee guard has its staff handler's answer and effect with the token's claims as the actor; a listing, update or deletion happens only through the employee guard, a creation only for a customer; every request keeps the store invariants and moves records forward |
| `PaymentRoutes.Dispatch` | server/routes/payments.js:41-105 | each staff action has its own handler's answer and effect: list answers the listing and changes nothing, verify, submit and delete act as those handlers on the named id; the store invariants hold, records move forward and the users are untouched |
| `PaymentRoutes.VerifyTwice` | server/routes/payments.js:53-57 | verifying a pending payment twice succeeds once and then fails with the state error |
| `PaymentRoutes.SubmitTwice` | server/routes/payments.js:65-69 | submitting a verified payment twice succeeds once and then fails with the state error |
| `PaymentRoutes.DeleteThenVerify` | server/routes/payments.js:77-92 | after a deletion the same id is not found by verify |
| `PaymentRoutes.VerifySubmitVerify` | server/routes/payments.js:50-69 | an employee takes a pending payment to `verified` (recording the employee) and then to `submitted` (recording the time, keeping the verifier); verifying it once more fails |
| `PaymentRoutes.StaffVerifySubmitVerify` | server/routes/payments.js:50-69 | an employee's requests through the guards take a pending payment to `verified`, recording the token's employee, and then to `submitted`, keeping the verifier; one more verify request fails with the state error |
| `PaymentRoutes.LifecycleThroughRoutes` | server/routes/payments.js:14-69 | through the routes, a customer's request creates a pending payment (201) owned by the token's customer, employee requests verify it and then submit it, and a further verify gets 400 |
| `PaymentRoutes.FullLifecycle` | server/routes/payments.js:29-69 | create, verify and submit take a payment through pending, verified and submitted with the verifier and time recorded; verifying it again fails with 400 |
| `AuthRoutes.Register` | server/routes/auth.js:11-36 | failing checks give 400 with every failure and no change; a username, account number or ID number already stored gives 409 and no change; otherwise exactly one user is added, as a customer, and the three unique columns stay unique |
| `AuthRoutes.RegisterTwice` | server/routes/auth.js:24-31 | registering the same valid details twice is answered 201 and then 409, because the first request's user clashes with the second |
| `AuthRoutes.RegisterThenLogin` | server/routes/auth.js:24-59 | after a registration (201), a login with the same username and a password the stored hash accepts is answered 200 "Logged in", and its token names the new user's id with the role `customer` |
| `AuthRoutes.Login` | server/routes/auth.js:39-60 | login succeeds exactly when a stored user has the username and the password matches its hash; the token then carries that user's id and role; every failure gets the same answer |
| `AuthRoutes.Me` | server/routes/auth.js:68-79 | the answer is empty exactly when the cookie is absent, the token does not verify, or it names no stored user; otherwise it is that user's id, username, role and full name |
| `EmployeePortal.FilterFrom` | client/src/pages/EmployeePortal.jsx:20 | an absent or empty query parameter selects 'all'; any other value is used as it is |
| `EmployeePortal.FilterAllKeepsEverything` | client/src/pages/EmployeePortal.jsx:98-101 | with the filter 'all' the shown rows are exactly the listing |
| `EmployeePortal.FilteredIsMatchingSubsequence` | client/src/pages/EmployeePortal.jsx:98-101 | the shown rows are a subsequence of the listing, each matches the filter, every matching row is shown, and for a filter other than 'all' they are the rows with that status |
| `EmployeePortal.CountersAddUp` | client/src/pages/EmployeePortal.jsx:103-108 | the pending, verified and submitted counters add up to the total |
| `EmployeePortal.FilteredCountIsCounter` | client/src/pages/EmployeePortal.jsx:98-107 | under a status filter the number of shown rows equals that status's counter |
| `EmployeePortal.StatusFilterSelectsStatus` | client/src/pages/EmployeePortal.jsx:98-101 | since no two statuses share a name, a status filter shows exactly the listed rows with that status |
| `EmployeePortal.UnknownFilterShowsNothing` | client/src/pages/EmployeePortal.jsx:98-101 | a filter that is neither 'all' nor a status name shows no rows |

## Left out

- Concurrency: the read-check-write race between two staff requests on the same payment is out of reach of a sequential model.
- Cryptography: JWT signing, verification and expiry, and bcrypt hashing and comparison, are parameters. Cookie attributes and the one-hour expiry are not modelled.
- Number parsing: `amount` is the number the `isFloat` check reads, or `None` if the text is not a float. The column's DECIMAL(15,2) rounding is not modelled.
- Strings are sequences of Unicode characters, not UTF-16 code units. The lengths of strings holding characters outside the Basic Multilingual Plane differ from JavaScript's UTF-16 lengths, including the surrogate-pair adjustment in `isLength`.
- Request coercion: bodies are taken as strings. The validator's conversion of numbers, arrays and missing fields is not modelled, nor is a string `:id` that is not a number (it finds no record).
- Failures other than the foreign key: other exceptions that reach the `catch` of create, delete or register (500), and unhandled database failures in list, verify and submit, are not modelled.
- The `createdAt` order of rows with equal timestamps is unspecified by the query. The model lists them in one fixed order.
- The `role` column's default `customer` (server/models/index.js:15) is not modelled: register writes 'customer' explicitly (server/routes/auth.js:29), so no user in the model is stored through the default.
- Logging to the console, `POST /logout` (it only clears the cookie) and the employee-provisioning script are not modelled. The store may hold employees from any valid state.
- The `/me` handler's `catch` also covers database errors. The model has none.
- The portal page's rendering, modals and fetches are not modelled, and neither are the client-side copies of the server checks.
