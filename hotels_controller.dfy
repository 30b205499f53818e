/** The two hotel handlers, as the Express calls they make for each outcome
    of the service, and the reply the client receives from those calls. */
module HotelsController {
  import opened Records
  import opened Errors
  import opened ExpressResponse
  import JsRuntime

  const HotelIdRequired := "HotelId Must Be Sent As Parameter"

  /** How an awaited service call ends: with a value, or with a thrown error. */
  datatype Outcome<+T> = Returned(value: T) | Threw(error: ApplicationError)

  /** The sends of the catch block: a payment-required error is sent with
      402, a not-found error with 404. */
  function CatchSends(error: ApplicationError): seq<Call>
  {
    (if error.name == PaymentRequiredErrorName
     then [Status(StatusPaymentRequired), Send(Text(error.message))] else [])
    + (if error.name == NotFoundErrorName
       then [Status(StatusNotFound), Send(Text(error.message))] else [])
  }

  /** The catch block both handlers share: its sends, and then the status
      set to 500 in every case, without a send. */
  function CatchCalls(error: ApplicationError): seq<Call>
  {
    CatchSends(error) + [Status(StatusInternalServerError)]
  }

  /** What the client receives when the service throws `error`: the first
      send fixes the reply, so the trailing 500 only matters for an error of
      any other name, which is never answered. */
  function ErrorReply(error: ApplicationError): (r: Reply)
    ensures error.name == PaymentRequiredErrorName ==> r == Sent(StatusPaymentRequired, Text(error.message))
    ensures error.name == NotFoundErrorName ==> r == Sent(StatusNotFound, Text(error.message))
    ensures Classify(error).None? ==> r == Unsent(StatusInternalServerError)
    ensures r.Sent? <==> Classify(error).Some?
  {
    ReplayAppend(CatchSends(error), [Status(StatusInternalServerError)], DefaultStatus);
    Deliver(CatchCalls(error))
  }

  function GetAllHotelsCalls(outcome: Outcome<seq<Hotel>>): seq<Call>
  {
    match outcome
    case Returned(hotels) => [Status(StatusOk), Send(HotelList(hotels))]
    case Threw(error) => CatchCalls(error)
  }

  /** `getAllHotels`: 200 with the hotel list, or the reply for the error. */
  function GetAllHotels(outcome: Outcome<seq<Hotel>>): (r: Reply)
    ensures outcome.Returned? ==> r == Sent(StatusOk, HotelList(outcome.value))
    ensures outcome.Threw? ==> r == ErrorReply(outcome.error)
  {
    match outcome
    case Returned(hotels) =>
      StatusThenSend(StatusOk, HotelList(hotels), [], DefaultStatus);
      assert GetAllHotelsCalls(outcome) == [Status(StatusOk), Send(HotelList(hotels))] + [];
      Deliver(GetAllHotelsCalls(outcome))
    case Threw(_) => Deliver(GetAllHotelsCalls(outcome))
  }

  /** The calls of `getRoomsByHotelId`, given the converted `hotelId` (None
      for NaN) and the service as a function of the id it is called with. */
  function GetRoomsByHotelIdCalls(hotelId: Option<int>, service: int -> Outcome<HotelWithRooms>): seq<Call>
  {
    if JsRuntime.Falsy(hotelId) then [Status(StatusBadRequest), Send(MessageObject(HotelIdRequired))]
    else match service(hotelId.value)
      case Returned(hotel) => [Status(StatusOk), Send(HotelDetail(hotel))]
      case Threw(error) => CatchCalls(error)
  }

  /** `getRoomsByHotelId`: 400 for a zero or NaN id, otherwise 200 with the
      hotel the service returns for that id, or the reply for its error. */
  function GetRoomsByHotelId(hotelId: Option<int>, service: int -> Outcome<HotelWithRooms>): (r: Reply)
    ensures JsRuntime.Falsy(hotelId) ==> r == Sent(StatusBadRequest, MessageObject(HotelIdRequired))
    ensures !JsRuntime.Falsy(hotelId) && service(hotelId.value).Returned? ==>
      r == Sent(StatusOk, HotelDetail(service(hotelId.value).value))
    ensures !JsRuntime.Falsy(hotelId) && service(hotelId.value).Threw? ==>
      r == ErrorReply(service(hotelId.value).error)
  {
    var calls := GetRoomsByHotelIdCalls(hotelId, service);
    if JsRuntime.Falsy(hotelId) then
      StatusThenSend(StatusBadRequest, MessageObject(HotelIdRequired), [], DefaultStatus);
      assert calls == [Status(StatusBadRequest), Send(MessageObject(HotelIdRequired))] + [];
      Deliver(calls)
    else match service(hotelId.value)
      case Returned(hotel) =>
        StatusThenSend(StatusOk, HotelDetail(hotel), [], DefaultStatus);
        assert calls == [Status(StatusOk), Send(HotelDetail(hotel))] + [];
        Deliver(calls)
      case Threw(_) => Deliver(calls)
  }

  /** The service is consulted at most once, and only with the converted id:
      for a zero or NaN id it is not consulted at all. */
  lemma ServiceCalledOnlyWithHotelId(
    hotelId: Option<int>, service: int -> Outcome<HotelWithRooms>, other: int -> Outcome<HotelWithRooms>)
    requires JsRuntime.Falsy(hotelId) || service(hotelId.value) == other(hotelId.value)
    ensures GetRoomsByHotelIdCalls(hotelId, service) == GetRoomsByHotelIdCalls(hotelId, other)
  {
  }

  /** Both handlers answer a thrown error identically. */
  lemma HandlersMapErrorsAlike(error: ApplicationError, hotelId: Option<int>, service: int -> Outcome<HotelWithRooms>)
    requires !JsRuntime.Falsy(hotelId) && service(hotelId.value) == Threw(error)
    ensures GetAllHotels(Threw(error)) == GetRoomsByHotelId(hotelId, service)
    ensures GetAllHotelsCalls(Threw(error)) == GetRoomsByHotelIdCalls(hotelId, service)
  {
  }
}
