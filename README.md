# happyhound-api: a verified model of bookings, escrow and ownership rules

This project models the parts of the happyhound-api marketplace backend that have real state and rules. Pet owners book services offered by providers (walking, sitting, grooming). The model covers five pieces:

- **Escrow payment store** (`Payments`). The `payments` map goes from payment id to a hold `{bookingId, amount, status, providerId}`. `holdPayment` puts a hold in escrow. `releasePayment` and `refundPayment` move it out of escrow, after a fixed order of guards that answer 404 or 400.
- **Booking lifecycle** (`Bookings`):
  - the `validTransitions` table over pending, confirmed, completed and cancelled;
  - the role-branched access check: the provider role is compared with the service's provider, any other role with the pet's owner;
  - the create, status-update and review handlers with their 404/403/400 order.
- **Services and pets** (`Services`, `Pets`). The query filter builders, and creation with the caller as provider or owner. Update and delete are gated by ownership, and update is a partial patch where a falsy supplied value (absent, `""`, `0`) keeps the old one.
- **Users** (`Users`). Registration refuses an existing email. Login answers an unknown email and a wrong password with the same 401. The profile patch uses the same `||` rule.
- **JavaScript vocabulary** (`Js`). This small module holds optional fields, JavaScript truthiness, `supplied || current`, where-clause objects and status codes.

Each repository is a class whose field is a map from id to record, or, for users, a sequence of rows in insertion order. Each handler is a method that returns the HTTP status code. Its contract gives the error codes in the order the source checks them, says that every failure leaves the repository unchanged, and gives the whole new state on success. The escrow store also has pure functions (`Hold`, `Release`, `Refund`). The class methods are proved against them, and lemmas prove properties over any sequence of operations. `Scenarios` holds client methods that drive whole request sequences and check the responses from the contracts alone.

In several places the code departs from what the system is evidently meant to do. The model follows the code:

- Booking transitions and booking creation are meant to drive the escrow store. In `routes/bookings.ts` they never do. Only the thin glue in `src/routes/bookingRoutes.ts` calls `PaymentService`, and it holds the payment under a random booking id that differs from the booking's own random id. `Scenarios.EscrowThroughBookingRoutes` shows that completing such a booking is refused as a mismatch.
- Reviews are meant to be written once. The code overwrites an earlier review silently, and `AddReview` does the same.
- The owner or the provider is meant to have access whatever their role. The code compares only one identity, chosen by the role claim, and `HasAccess` does the same.
- A hold is meant to get a fresh, unique id. The code never checks this (see Findings).

Inputs that come from outside the core are parameters:

- the authenticated caller's id and role;
- the drawn random payment id;
- JavaScript's `Number` for query strings;
- the password hash, the bcrypt comparison and JWT signing. These are function-typed parameters.

## Model

| member | source | states |
|---|---|---|
| `Js.OrStr` | routes/users.ts:101-103 | the JavaScript or-patch `supplied or current` on a string field yields the supplied value exactly when it is truthy (present and not ""), else the current value |
| `Js.OrNum` | routes/pets.ts:99 | the JavaScript or-patch on a number field yields the supplied value exactly when it is truthy (present and not 0), else the current value |
| `Js.OrIdempotent` | routes/services.ts:99-106 | applying the same supplied value twice equals applying it once |
| `Js.OrNeverClears` | routes/users.ts:101-103 | a patch can never turn a truthy field falsy, so a field can never be cleared through it |
| `Js.Saved` | routes/bookings.ts:177-179 | what `save` stores for a property set from the request: the supplied value when present, the stored value when it is `undefined` |
| `Js.SavedNeverClears` | routes/bookings.ts:177-179 | saving a property set from the request never clears a stored value, and saving the same value twice equals saving it once |
| `Payments.Code` | src/services/paymentService.ts:36-46 | an unknown payment answers 404; a booking mismatch and a hold not in escrow both answer 400 |
| `Payments.Hold` | src/services/paymentService.ts:19-30 | holdPayment as written: the hold is stored under the id, escrowed, with exactly the given bookingId, amount and providerId; all other holds are kept, and a hold already under that id is replaced |
| `Payments.FreshId` | src/services/paymentService.ts:21 | the corrected id choice used by `HoldFresh` (the source has none, see Findings): the id is not among the existing ids, and is the drawn id itself whenever that one is unused |
| `Payments.HoldFresh` | src/services/paymentService.ts:19-30 | holdPayment with a fresh id: the new escrowed hold is added and every existing hold is kept unchanged |
| `Payments.Release` | src/services/paymentService.ts:33-51 | fails exactly when the id is unknown (404), else when the bookingId differs (400), else when not in escrow (400), in that order, and then changes nothing; on success only that hold's status changes, to released, keeping its bookingId, amount and providerId and every other hold |
| `Payments.Refund` | src/services/paymentService.ts:53-67 | fails exactly when the id is unknown (404), else when not in escrow (400), never with a mismatch, and then changes nothing; on success only that hold's status changes, to refunded |
| `Payments.ReleaseHappensOnce` | src/services/paymentService.ts:44-46 | after a successful release, releasing again with the same bookingId fails as not in escrow, any release or refund fails, and none changes the store |
| `Payments.RefundHappensOnce` | src/services/paymentService.ts:60-62 | after a successful refund, any further release or refund fails and changes nothing |
| `Payments.StepKeepsSettled` | src/services/paymentService.ts:19-67 | for holds with a fresh id (`HoldFresh`), no single hold, release or refund removes a hold or alters a hold that has left escrow; with the colliding `Hold` as written this fails (see Findings) |
| `Payments.SettledHoldsAreFinal` | src/services/paymentService.ts:44-50 | for holds with a fresh id (`HoldFresh`), over any sequence of holds, releases and refunds, a released or refunded hold keeps its record, so its status never changes again |
| `Payments.RunKeepsNoPending` | src/services/paymentService.ts:3-8 | `PENDING` is never assigned: any sequence of holds with a fresh id (`HoldFresh`), releases and refunds keeps every hold escrowed, released or refunded |
| `Payments.CollidingHoldReopensReleasedPayment` | src/services/paymentService.ts:21-28 | with holdPayment as written, a drawn id equal to a released hold's id puts that id back in escrow, and it can be released a second time |
| `Payments.PaymentService.constructor` | src/services/paymentService.ts:12-17 | the payments map starts empty |
| `Payments.PaymentService.HoldPayment` | src/services/paymentService.ts:19-31 | returns an id not in use before; the map afterwards is the old one plus the escrowed hold with exactly the given bookingId, amount and providerId |
| `Payments.PaymentService.ReleasePayment` | src/services/paymentService.ts:33-51 | outcome and new map are those of `Release`, and no hold is ever pending |
| `Payments.PaymentService.RefundPayment` | src/services/paymentService.ts:53-67 | outcome and new map are those of `Refund`, and no hold is ever pending |
| `Pets.Patch` | routes/pets.ts:95-102 | each of name, type, breed, age, description and imageUrl takes the supplied value when truthy and keeps the old value otherwise |
| `Pets.EmptyPatchIsIdentity` | routes/pets.ts:95-102 | a body supplying only absent, empty or zero values (an age of 0 included) leaves the pet unchanged |
| `Pets.PatchIdempotent` | routes/pets.ts:95-102 | sending the same update twice equals sending it once |
| `Pets.BuildFilter` | routes/pets.ts:19-23 | the where-clause has `type` and `breed` exactly when each is supplied truthy, with the supplied value, and no other key |
| `Pets.PetRepository.constructor` | routes/pets.ts:7 | the pet repository starts with no pets |
| `Pets.PetRepository.CreatePet` | routes/pets.ts:55-68 | answers 201 and adds a pet under a new id with the body's fields and the caller as owner |
| `Pets.PetRepository.UpdatePet` | routes/pets.ts:78-109 | 404 when the pet is missing, else 403 for a non-owner, both changing nothing; otherwise only that pet's fields change, by `Patch`, with id and owner kept |
| `Pets.PetRepository.DeletePet` | routes/pets.ts:112-132 | 404 when missing, else 403 for a non-owner, and the pet remains; otherwise exactly that pet is removed |
| `Services.Patch` | routes/services.ts:99-106 | each of title, description, price, duration, type and imageUrl takes the supplied value when truthy and keeps the old value otherwise |
| `Services.ZeroPriceKeepsOldPrice` | routes/services.ts:102 | a supplied price of 0 keeps the old price |
| `Services.PatchIdempotent` | routes/services.ts:99-106 | sending the same update twice equals sending it once |
| `Services.BuildFilter` | routes/services.ts:19-27 | `type` appears exactly when supplied; a `price` object appears exactly when a bound is supplied, holding `gte` and `lte` exactly for the supplied bounds with their numeric values; no other key |
| `Services.ServiceRepository.constructor` | routes/services.ts:7 | the service repository starts with no services |
| `Services.ServiceRepository.CreateService` | routes/services.ts:59-72 | 403 without the provider role (middleware/auth.ts:29-31), creating nothing; otherwise 201 and a new service under a fresh id with the body's fields and the caller as provider |
| `Services.ServiceRepository.UpdateService` | routes/services.ts:82-113 | 403 without the provider role, else 404 when missing, else 403 for a non-owner, all changing nothing; otherwise only that service's fields change, by `Patch` |
| `Services.ServiceRepository.DeleteService` | routes/services.ts:116-136 | 403 without the provider role, else 404 when missing, else 403 for a non-owner, and the service remains; otherwise exactly that service is removed |
| `Bookings.ParseStatus` | routes/bookings.ts:142 | a requested string is read as the status whose name it is, and as no status when no status has that name |
| `Bookings.ParseName` | routes/bookings.ts:135-140 | every status name reads back as that status |
| `Bookings.ValidTransitions` | routes/bookings.ts:135-140 | no status lists itself or pending as a successor, completed and cancelled list none, every listed successor has a higher rank, and no status has more than two |
| `Bookings.Permits` | routes/bookings.ts:142 | a requested string is accepted exactly when it is the name of a status the table lists after the current one, and then it names a status of higher rank |
| `Bookings.TransitionTableIsExact` | routes/bookings.ts:135-142 | the permitted transitions are exactly pending→confirmed, pending→cancelled, confirmed→completed and confirmed→cancelled; completed and cancelled have no successors; no status moves to itself |
| `Bookings.LifecycleRises` | routes/bookings.ts:135-146 | along any chain of permitted transitions the rank rises at every step, so a booking changes status at most twice |
| `Bookings.StatusesNeverRepeat` | routes/bookings.ts:135-146 | along any chain of permitted transitions no status occurs twice |
| `Bookings.HasAccess` | routes/bookings.ts:54-56 | access is granted only to the pet's owner or the service's provider, and always to a caller who is both; which of the two is compared is stated by `AccessNeedsIdentity` |
| `Bookings.AccessNeedsIdentity` | routes/bookings.ts:126-128 | with the provider role access holds exactly when the caller is the service's provider, and with any other role exactly when the caller is the pet's owner; access therefore implies being one of the two |
| `Bookings.BookingRepository.constructor` | routes/bookings.ts:9 | the booking repository starts with no bookings |
| `Bookings.BookingRepository.Visible` | routes/bookings.ts:21-31 | the listing holds exactly the bookings the caller passes the role-branched access check for, unchanged |
| `Bookings.BookingRepository.GetBooking` | routes/bookings.ts:40-66 | 404 when missing, else 403 without access, else 200 with the booking |
| `Bookings.BookingRepository.CreateBooking` | routes/bookings.ts:69-107 | 403 when the pet is missing or not the caller's, checked before 404 for a missing service, both creating nothing; otherwise a new pending, unreviewed booking whose totalPrice is the service's price |
| `Bookings.BookingRepository.UpdateStatus` | routes/bookings.ts:110-152 | 404 when missing, else 403 without access, else 400 when the table does not list the requested status, all changing nothing; otherwise only that booking's status changes, to the requested one |
| `Bookings.BookingRepository.AddReview` | routes/bookings.ts:155-184 | 404 when missing, else 403 unless the caller owns the pet, else 400 unless completed, all changing nothing; otherwise the supplied rating and text are stored, replacing an earlier review, a field the body omits keeps its stored value, and the status is unchanged; a review only ever exists on a completed booking |
| `Users.FindFirst` | routes/users.ts:16 | `findOne` yields the first row matching, or none when no row matches |
| `Users.ProfilePatch` | routes/users.ts:101-103 | name, phoneNumber and bio take the supplied value when truthy and keep the old one otherwise; id, email, password hash and role are kept |
| `Users.UserRepository.constructor` | routes/users.ts:8 | the user table starts with no rows |
| `Users.UserRepository.Register` | routes/users.ts:11-37 | 400 exactly when the email exists, creating no user; otherwise a user is appended with the hash of the password, the given email, name and role; emails stay unique |
| `Users.UserRepository.Login` | routes/users.ts:40-67 | 200 exactly when a user has the email and the password matches its hash, with the token signed over that user's id and role; otherwise the same 401 without a token, whether the email is unknown or the password wrong |
| `Users.UserRepository.UpdateProfile` | routes/users.ts:90-110 | 404 when no user has the id, changing nothing; otherwise only that user's name, phone number and bio change, by `ProfilePatch` |

## Left out

- Authentication (middleware/auth.ts:11-25): the JWT check that answers 401 before a handler runs is not modelled. The caller's id and role are parameters.
- `requireRole(['provider'])` (middleware/auth.ts:27-33) is folded into the three service handlers as their first 403 check, not modelled as separate middleware.
- `GET /:id` of pets and services, and `GET /profile`: plain lookups with a 404 and no further rules.
- Every `500` answer: database failures and exceptions thrown inside the handlers are not modelled.
- `src/middleware/messageFilter.ts`: five regular expressions, which would need a regex engine. `routes/bookings.ts` does not use it.
- `src/routes/bookingRoutes.ts` is glue that persists nothing. It appears only as the client method `Scenarios.EscrowThroughBookingRoutes`.
- `src/routes/userRoutes.ts`, `serviceRoutes.ts` and `petRoutes.ts` (constant stubs), `src/tests/api.test.ts` (network calls), `index.ts`, `src/app.ts`, `src/index.ts` and `database.ts` (server start-up and configuration).
- Asynchrony and concurrency: every handler runs to completion on in-memory maps, so races between requests are not modelled.
- Amounts, prices, ages and durations are unbounded integers. Floating point and `NaN` are not modelled.
- JavaScript's `Number` is a parameter of `Services.BuildFilter`. Query values that are arrays (a repeated query key) are not modelled.
- Request-body fields are typed (string or number). A JSON value of another type, such as a price sent as the string "0", is not modelled.
- TypeORM's reading of a where-clause is not modelled, including one holding `undefined` and the plain `{gte, lte}` object. The model states the shape of the where object that is built.
- `new Date(date)` is kept as the supplied string.
- Bookings capture the owner and the provider when they are created. The source loads them through the pet and service relations on each request. No handler reassigns a pet's owner or a service's provider, so the model captures them instead of loading them. Deleting a pet or service that has bookings is not modelled.
- The HTTP header `user-id` of the profile route is taken as an integer. A header that does not convert to a number is not modelled.
- `Users.UserRepository.Register`: states that the stored password field is `hash(password)`. That it differs from the raw password depends on the hash function, which is a parameter, and is not stated. bcrypt's random salt is not modelled: the hash is a deterministic function of the password.
- `Users.UserRepository.Login`: states the token returned on success, not the user fields included in the response body.
- `Payments.FreshId`: has no counterpart in the source, which uses the random draw of src/services/paymentService.ts:21 unchecked. It is the corrected id choice of `Payments.HoldFresh`.
- `Payments.StepKeepsSettled`: is stated for a hold with a fresh id (`HoldFresh`). With the source's colliding `Hold` it is false, as `Payments.CollidingHoldReopensReleasedPayment` shows.
- `Payments.SettledHoldsAreFinal`: is stated over runs whose holds use a fresh id (`HoldFresh`). With the source's colliding `Hold` it is false, for the same reason.
- `Payments.RunKeepsNoPending`: is stated over runs whose holds use a fresh id (`HoldFresh`). The source's `Hold` assigns no pending status either.
- `Bookings.BookingRepository.AddReview`: a request field is either supplied or `undefined`. A JSON `null`, which `save` would write as a cleared column, is not modelled. The response body, which echoes the in-memory booking, is not modelled either.
- `Payments.PaymentService.HoldPayment`: uses the corrected, collision-free id (see Findings). The hold as the source writes it is `Payments.Hold`.

## Findings

| source | as written | input that shows it | evidently intended | confidence | as-written member | corrected member |
|---|---|---|---|---|---|---|
| src/services/paymentService.ts:21-28 | the payment id is a random draw stored with `set` and never checked against the ids in use | a hold "k3x9q" is released; a later holdPayment draws "k3x9q" again, so the released hold is overwritten by an escrowed one and the same id can be released a second time | each hold gets a fresh id, so a released or refunded hold never changes again (proved as `Payments.SettledHoldsAreFinal`) | not executed; the collision needs two equal draws, and `substring(7)` leaves only about six base-36 characters, so over many holds it is plausible | `Payments.CollidingHoldReopensReleasedPayment` | `Payments.HoldFresh` |
