# Support desk: ticket controller model

A Dafny model of the request handlers of a small support-desk HTTP service.
Users file support tickets about a product. Each ticket has an owner, a product,
a description and a status. Only the owner of a ticket may read, change or
delete it.

- `TicketModel` (ticket_model.dfy) models the ticket schema. `product` and
  `status` are closed enumerations, written as the datatypes `Product` and
  `Status`, each with a parser and a printer that round-trip. The owning user,
  the product and the description are required. The status defaults to `new`.
  `Create` applies the default and then the validators, in the same order and
  with the same messages as the schema.
- `TicketController` (ticket_controller.dfy) models the five ticket handlers as
  methods on the class `TicketStore`. The class holds the ticket collection (a
  map from ticket id to record) and the set of existing user ids, which stands
  in for `User.findById`. Each handler is a fixed ladder of guards followed by
  one operation on the map: filter, lookup, insert, remove or patch. The
  function `Authorize` is the shared ladder: the caller is known (401), the
  ticket exists (404), the caller owns it (401).
- `UserController` (user_controller.dfy) models the registration field check
  and the login placeholder, as pure functions.
- `ErrorMiddleware` (error_middleware.dfy) models the final error handler, as a
  method on a small response object with a status code and a body.
- `Http` (http.dfy) holds the shared values, `Option`, `Result`, `HttpError`
  and `Response`, and JavaScript falsiness for a request field: an absent field
  and `""` are falsy.

Modelling conventions:

- A handler ends in one of two ways. `Sent(status, body)` means it answered with
  a JSON body. `Thrown(HttpError(status, message))` means it set the status and
  threw an `Error`.
- A status of 0 means the handler set no status. The error handler treats 0 as
  falsy.
- Ticket and user ids are opaque natural numbers.
- A new ticket gets some id that is not yet in the map.

Points where the code behaves differently from what one might expect:

- One might expect an update to keep a ticket's owner. The code passes the
  whole request body to `findByIdAndUpdate`, without validators, so a `user`
  field in the patch does change the owner. The model allows this, and it also
  allows enumeration values outside the lists after an update.
- The 401 messages are not all the same. `getTickets` answers an unknown caller
  with "Not authorized". The other handlers answer an unknown caller with
  "Unauthorized token", and use "Not authorized" for an owner mismatch.
- The schema spells `status`'s requirement as `require`, which Mongoose ignores.
  So the status is supplied only by its default, and the model does not treat
  it as required.
- In `createTicket`, a product outside the enumeration passes the field check.
  `Ticket.create` then rejects it with a Mongoose `ValidationError`, and no
  status has been set at that point. The model returns status 0 with the
  validation message, and the error handler then gives 500.

## Model

| member | source | states |
|---|---|---|
| `TicketModel.ParseProduct` | backend/models/ticketModel.js:10-14 | a product is accepted exactly when it is one of iPhone, Macbook, iMac, iPad, Other, and the parsed value prints back as the same string |
| `TicketModel.ProductRoundTrip` | backend/models/ticketModel.js:13 | every `Product` value parses back from its printed name |
| `TicketModel.ParseStatus` | backend/models/ticketModel.js:19-24 | a status is accepted exactly when it is one of new, open, closed, and the parsed value prints back as the same string |
| `TicketModel.StatusRoundTrip` | backend/models/ticketModel.js:22 | every `Status` value parses back from its printed name |
| `TicketModel.WithDefaults` | backend/models/ticketModel.js:23 | an absent status becomes "new", a given status is kept, and no other field is filled in |
| `Http.Falsy` | backend/controllers/ticketController.js:67 | a request field counts as present exactly when it is given and is a non-empty string, as JavaScript's `!x` treats strings (also used by backend/controllers/userController.js:12) |
| `TicketModel.Valid` | backend/models/ticketModel.js:3-25 | a valid ticket has a product among iPhone, Macbook, iMac, iPad, Other, a non-empty description and a status among new, open, closed; its owner is always present |
| `TicketModel.Validate` | backend/models/ticketModel.js:3-25 | a missing user gives "Path `user` is required.", a missing or empty product gives "Please add a product", a product outside the enumeration gives an enum error, a missing or empty description gives "Please add a description of the issue", a given status outside its enumeration gives an enum error, and no path fails twice. The list is empty exactly when none of these applies |
| `TicketModel.FieldMessage` | backend/models/ticketModel.js:12-17 | a required error carries the schema's own message, and an enum error quotes the rejected value |
| `TicketModel.ValidationMessage` | backend/controllers/ticketController.js:79-83 | the text of the error `Ticket.create` throws starts with "Ticket validation failed: " followed by the first failing path and its message, and is exactly that for a single failure |
| `TicketModel.Create` | backend/models/ticketModel.js:3-31 | a document is saved exactly when it passes the validators after defaulting. The saved ticket is valid and keeps the document's user, product and description. Its status is "new" when none was given. A rejected document carries a non-empty error list |
| `TicketModel.CreateAcceptsExactlyValid` | backend/models/ticketModel.js:5-24 | a ticket is saved back unchanged exactly when it satisfies the schema's validity predicate |
| `TicketModel.StatusOnlyFromDefault` | backend/models/ticketModel.js:19-24 | a document without a status is never rejected on the status path, and if it is saved, its status is "new" |
| `TicketController.ApplyPatch` | backend/controllers/ticketController.js:149-153 | each field present in the patch overrides the stored one, and each absent field keeps its stored value, including the owner |
| `TicketController.ApplyPatchIdempotent` | backend/controllers/ticketController.js:149-153 | applying the same update twice gives the same record as applying it once |
| `TicketController.EmptyPatchIsIdentity` | backend/controllers/ticketController.js:149-153 | an update with no fields leaves the record as it was |
| `TicketController.OwnedBy` | backend/controllers/ticketController.js:20 | the filter keeps exactly the tickets whose owner is the given user, with their stored records |
| `TicketController.OwnedByDisjoint` | backend/controllers/ticketController.js:20-24 | no ticket is listed for two different users |
| `TicketController.UpperBound` | backend/controllers/ticketController.js:79-83 | every finite set of ids has a bound above all its elements |
| `TicketController.FreshIdExists` | backend/controllers/ticketController.js:79-83 | there is always an id not used by any stored ticket |
| `TicketController.TicketStore.Authorize` | backend/controllers/ticketController.js:34-51 | access is granted exactly when the caller is a known user, the ticket exists and the caller owns it, and the result is then the stored record. An unknown caller gets 401 "Unauthorized token" whether or not the ticket exists. 404 comes exactly when the caller is known and the ticket is missing. 401 "Not authorized" comes exactly when the ticket exists and is someone else's |
| `TicketController.TicketStore.GetTickets` | backend/controllers/ticketController.js:12-25 | an unknown caller gets 401 "Not authorized", and only an unknown caller does. Otherwise the answer is 200 with exactly the caller's tickets and their stored records. The store is not changed |
| `TicketController.TicketStore.GetTicket` | backend/controllers/ticketController.js:33-56 | the guards answer in order: 401 for an unknown caller, then 404 for a missing ticket, then 401 "Not authorized" for another owner. The owner gets 200 with the stored record. The store is not changed |
| `TicketController.TicketStore.CreateTicket` | backend/controllers/ticketController.js:64-88 | a falsy product or description gives 400 "Missing fields", even for an unknown caller. Then an unknown caller gives 401. Then a product outside the enumeration gives a validation error with no status. Success is 201 with a new ticket under an id not previously used: owned by the caller, with the given product and description and status "new", the only change to the map. Every failure leaves the map unchanged |
| `TicketController.TicketStore.DeleteTicket` | backend/controllers/ticketController.js:96-121 | the same three guards in the same order. The owner gets 200 with `success: true`, and exactly that id is removed. Every failure leaves the map unchanged |
| `TicketController.TicketStore.UpdateTicket` | backend/controllers/ticketController.js:129-158 | the same three guards in the same order. The owner gets 200 with the record after the patch, which replaces exactly that id. Every failure leaves the map unchanged |
| `TicketController.CreateThenGet` | backend/controllers/ticketController.js:79-87 | reading a ticket back right after it was created gives the caller as owner, the given product and description, and status "new" |
| `TicketController.OtherUserCannotDelete` | backend/controllers/ticketController.js:111-114 | a ticket created by one user cannot be deleted by another: the delete gives 401 "Not authorized" and the ticket stays, still owned by its creator |
| `UserController.RegisterUser` | backend/controllers/userController.js:9-18 | it fails with 400 "Please include all fields" exactly when name, email or password is falsy, and otherwise answers "Register Route". It is a function, so nothing is stored on either path |
| `UserController.AnyMissingFieldGivesSameError` | backend/controllers/userController.js:12-15 | any one missing field is enough to fail, and every such body gets the same 400 error |
| `UserController.LoginUser` | backend/controllers/userController.js:26-28 | the answer is always "Login Route" |
| `UserController.LoginIgnoresRequest` | backend/controllers/userController.js:26-28 | any two requests get the same answer |
| `ErrorMiddleware.FinalStatus` | backend/middleware/errorMiddleware.js:2 | the final status is never unset: 500 replaces an unset status, and a status that was already set is kept |
| `ErrorMiddleware.StackField` | backend/middleware/errorMiddleware.js:5 | the stack is null exactly when NODE_ENV is "production", and otherwise it is the error's stack trace |
| `ErrorMiddleware.ServerResponse.Status` | backend/controllers/ticketController.js:16 | `res.status(code)` sets the response's status to the given code, touching nothing else |
| `ErrorMiddleware.ServerResponse.ErrorHandler` | backend/middleware/errorMiddleware.js:1-7 | the new status is `FinalStatus` of the old one: an unset status becomes 500 and a set one is kept. The body is the error's message with the stack trace, or null in production |
| `ErrorMiddleware.ThrowAndHandle` | backend/middleware/errorMiddleware.js:1-7 | a handler failure that reached the error handler leaves the failure's own status (500 when it had none) and a body holding the failure's message |

## Left out

- The database and the framework are not modelled. The Mongoose calls (`find`, `findById`, `create`, `remove`, `findByIdAndUpdate`), the Express request and response plumbing, and the promise wrapping of `express-async-handler` are replaced by the in-memory map and the `Response` values.
- Ids are opaque. Casting a malformed id to an ObjectId, which makes Mongoose throw a `CastError`, is library behaviour that is not visible here.
- The `timestamps: true` option is left out because it depends on the clock.
- Races between the ownership check and the write, from concurrent requests, are not modelled. The same goes for `findByIdAndUpdate` returning null because the ticket was deleted in between.
- `TicketController.TicketStore.GetTickets`: the answer is a map, so it does not capture the order of the array that `Ticket.find` returns.
- `TicketController.ApplyPatch`: a patch can only set the four schema fields to strings or ids. Setting a field to null, unknown fields, update operators and update-time validators are not modelled.
- Request fields are optional strings. Non-string JSON values (numbers, booleans, null) and how JavaScript treats them as falsy are not modelled.
- `TicketModel.ValidationMessage` approximates the text of Mongoose's `ValidationError`. The field order and the custom messages follow the schema.
- The middleware that fills in the caller's id is not part of this model. The caller id is a plain input.
- Express starts every response with status 200, which means the 500 branch of the error handler rarely fires in practice. The model instead starts a response with no status (`ServerResponse`'s constructor sets 0), and `ErrorMiddleware.ThrowAndHandle` requires that start.
- The user model, password hashing and token issuance are not part of this model. Registration and login are placeholders in the code.
