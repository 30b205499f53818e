# Hotel endpoints: eligibility chain and HTTP outcomes

A Dafny model of the hotel part of an event-registration API. Two endpoints,
`GET /hotels` and `GET /hotels/:hotelId`, show hotel data only to a user whose
registration passes an ordered chain of checks:

1. the user has an enrollment, else not found;
2. the enrollment has a ticket, else not found;
3. the ticket's status is `PAID`, else payment required, "Missing Payment";
4. the ticket type is not remote, else payment required, "Ticket type is remote";
5. the ticket type includes a hotel, else payment required, "Ticket Does Not Includes Hotel".

The first check that fails decides the error. After the chain, an empty hotel
list, or a missing hotel for the requested id, is not found. Otherwise the
fetched data is returned unchanged. The handlers turn the result into
200 / 402 / 404. The second handler first refuses a `hotelId` that converts to
0 or NaN with 400, without calling the service.

Modules, one per component:

- `Records` (`records.dfy`): enrollment, ticket, ticket type, hotel, room and
  hotel-with-rooms records. `Store` holds what the database answers. The
  enrollment, ticket and hotel-with-rooms lookups are total functions keyed by
  the id each query filters on. The ticket query may also reject. The hotel
  list is a sequence. `Consistent` says each lookup answers what its `where`
  clause asks for.
- `Errors` (`errors.dfy`): the service's closed error type (`NotFound`,
  `PaymentRequired(message)`). It also holds the name-tagged object these
  errors are thrown as, and the name test the catch block makes (`Classify`).
- `JsRuntime` (`js_runtime.dfy`): `Object.keys` of an array, and the
  falsiness of a converted number.
- `HotelsService` (`hotels_service.dfy`): the eligibility chain, defined once,
  and the two queries. A rule table with a first-violation search is an
  independent statement of the chain's order.
- `ExpressResponse` (`express_response.dfy`): a handler's effect as a
  sequence of `status`/`send` calls. `Replay` gives what the client receives:
  the first `send` fixes the status and body, and a handler that never sends
  leaves the request unanswered.
- `HotelsController` (`hotels_controller.dfy`): the two handlers as call
  sequences, and the replies those sequences produce.
- `HotelsEndpoints` (`hotels_endpoints.dfy`): handler and service composed,
  for an already authenticated user.

Two behaviours of the code the model keeps as written:

- The third payment message is "Ticket Does Not Includes Hotel"
  (`hotels-service/index.ts:15`, `:30`).
- An error of any other name is not answered. The catch block sets status
  500 but never sends (`hotels-controller.ts:14`, `:28`), so the request is
  left open (`Unsent(500)`). This is what happens when the ticket query
  rejects: it is rethrown as a plain `Error` named `Error`
  (`utils/service-functions.ts:7-9`). With 402 and 404 the later
  `status(500)` call comes after the send and changes nothing the client
  sees.

## Model

| member | source | states |
|---|---|---|
| `Errors.Raise` | src/errors/payment-required-error.ts:3-8 | A service error travels as an object named `PaymentRequiredError` (with its message) or `NotFoundError`. The name test recovers the original error exactly. |
| `Errors.Classify` | src/controllers/hotels-controller.ts:12-13 | The catch block recognises exactly two names: `PaymentRequiredError` (keeping the message) and `NotFoundError`. Every other name is unrecognised. |
| `JsRuntime.IndexKey` | src/services/hotels-service/index.ts:18 | An array index's key is a non-empty string of decimal digits. |
| `JsRuntime.ArrayKeys` | src/services/hotels-service/index.ts:18 | `Object.keys` of an array has one key per element, the i-th being the key of index i. So "no keys" means the list is empty. |
| `HotelsService.FirstViolation` | src/services/hotels-service/index.ts:13-15 | The index found is a rule the ticket breaks, and every earlier rule holds. No index means every rule holds. |
| `HotelsService.CheckEligibility` | src/services/hotels-service/index.ts:8-15 | Passes iff the user's enrollment has a ticket that is paid, not remote and includes a hotel. The same chain is at lines 23-30. Not found iff the enrollment is missing, or the ticket query answers no ticket. A rejected ticket query passes through as the `Error` "Internal Server Error" (src/utils/service-functions.ts:7-9). Unpaid gives "Missing Payment" whatever the flags. Paid and remote gives "Ticket type is remote" even without hotel. Paid, not remote, no hotel gives "Ticket Does Not Includes Hotel". On a consistent store, the passing ticket belongs to the user's enrollment. |
| `HotelsService.ChainFollowsRuleOrder` | src/services/hotels-service/index.ts:13-15 | The early-exit chain reports exactly the first broken rule of the ordered rule table (payment, remote, hotel), and passes when none is broken. |
| `HotelsService.GetHotels` | src/services/hotels-service/index.ts:7-20 | Succeeds iff the user is eligible and the hotel list is non-empty. On success it returns exactly the fetched list. Eligible with no hotels is not found. Not eligible gives the chain's failure unchanged. |
| `HotelsService.GetHotelsWithRooms` | src/services/hotels-service/index.ts:22-35 | Succeeds iff the user is eligible and the lookup for `hotelId` finds a hotel. On success it returns that record unchanged; on a consistent store it is hotel `hotelId` with its own rooms. Eligible with no such hotel is not found. Not eligible gives the chain's failure unchanged. |
| `HotelsService.IneligibleIgnoresHotelData` | src/services/hotels-service/index.ts:8-17 | While the chain fails, replacing the hotel list and the hotel lookup changes neither query's result, and both entry points fail the same way (lines 23-32). |
| `ExpressResponse.Replay` | src/controllers/hotels-controller.ts:12-14 | The client gets a body iff some call sends. The body is that of the first `send`, and only `status` calls come before it. The status sent is the one set just before that `send`, or the starting status if nothing came before it. With no send, the response stays open with the status set last. |
| `ExpressResponse.ReplayAppend` | src/controllers/hotels-controller.ts:12-14 | Once a prefix of calls has sent, later calls change nothing. Otherwise the rest replays from the status the prefix left. |
| `ExpressResponse.StatusThenSend` | src/controllers/hotels-controller.ts:10 | `status(c).send(b)` fixes the reply to status c with body b, whatever calls follow. |
| `HotelsController.ErrorReply` | src/controllers/hotels-controller.ts:11-15 | A `PaymentRequiredError` is answered 402 with its message. A `NotFoundError` is answered 404 with its message. Any other error is never answered, and the status is left at 500. A reply is sent iff the name is recognised. |
| `HotelsController.GetAllHotels` | src/controllers/hotels-controller.ts:6-16 | A returned value is sent with 200 as the body. A thrown error gets the catch block's reply. |
| `HotelsController.GetRoomsByHotelId` | src/controllers/hotels-controller.ts:18-30 | A `hotelId` converting to 0 or NaN gets 400 with `{message: "HotelId Must Be Sent As Parameter"}`. Otherwise the service's value for that id is sent with 200, or its error gets the catch block's reply. |
| `HotelsController.ServiceCalledOnlyWithHotelId` | src/controllers/hotels-controller.ts:20-23 | The handler consults the service only at the converted id. For a zero or NaN id it does not consult it at all. |
| `HotelsController.HandlersMapErrorsAlike` | src/controllers/hotels-controller.ts:25-29 | Both handlers make the same calls, and give the same reply, for the same thrown error (lines 11-15 and 25-29). |
| `HotelsEndpoints.ServiceOutcome` | src/controllers/hotels-controller.ts:8-11 | A service success reaches the handler as the same value. A service error reaches it as a thrown object whose name identifies that error. A passed-through error reaches it unchanged. |
| `HotelsEndpoints.ListHotels` | src/services/hotels-service/index.ts:7-20 | `GET /hotels` sends a reply iff the ticket query does not reject. When it rejects, the request is left open with status 500. The reply is 200 iff the user is eligible and a hotel exists, with exactly the hotel list as body. Missing enrollment or ticket gives 404. Each ticket-check failure gives 402 with its message, in chain order. Eligible with no hotels gives 404. |
| `HotelsEndpoints.ShowHotel` | src/services/hotels-service/index.ts:22-35 | A zero or NaN id gives 400. Otherwise `GET /hotels/:hotelId` sends a reply iff the ticket query does not reject. When it rejects, the request is left open with status 500. Otherwise it is 200 iff the user is eligible and the hotel exists, with that hotel and its rooms as body. While the user is not eligible, the reply equals `GET /hotels`'s. Eligible with no such hotel gives 404. |

## Left out

- Authentication (`authenticateToken` in `src/routers/hotels-router.ts:6`): its middleware is not part of this model. Every 401 reply comes from it, so the endpoints here start from an authenticated user id.
- `src/errors/index.ts` is not part of this model. It defines the not-found error's constructor. The model uses its name `NotFoundError`, which the controller tests for. Its message is a constant of unspecified text.
- The database queries (`src/repositories/hotel-repository/index.ts`, `src/utils/service-functions.ts`) and the enrollment service are not modelled. Their answers are the `Store` inputs. Only the ticket query may reject (`src/utils/service-functions.ts:7-9`).
- HotelsEndpoints.ListHotels: the enrollment and hotel-list queries are taken to always answer. If either rejected, its error would reach the catch block under a name other than the two recognised ones, and the request would be left open with 500, as for a rejected ticket query.
- HotelsEndpoints.ShowHotel: the enrollment and hotel-with-rooms queries are taken to always answer. If either rejected, the request would be left open with 500, as for a rejected ticket query.
- Route wiring: `src/routers/hotels-router.ts:6` refers to `getAllHotels` and `getHotelRoomsByHotelId` without importing either, and the controller exports `getRoomsByHotelId` (`src/controllers/hotels-controller.ts:18`), not `getHotelRoomsByHotelId`. The endpoint model assumes `GET /hotels` reaches `getAllHotels` and `GET /hotels/:hotelId` reaches `getRoomsByHotelId`.
- `Number(req.params.hotelId)` is taken as an input (`Option<int>`, None for NaN). The parsing of the route parameter is not modelled. Neither are fractional or infinite results, which would reach the hotel query unchanged.
- Ticket status is a string compared with `"PAID"`. The status enumeration is not among the modelled files.
- JSON serialisation of records and timestamps, response headers, and the value the handlers return to Express are not modelled. Only the status and body the client receives are.
- Asynchrony: each awaited lookup is treated as already resolved. Requests are independent.
