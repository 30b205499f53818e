/** The two endpoints end to end: each handler called with the hotel
    service over a given store, for an already authenticated user. */
module HotelsEndpoints {
  import opened Records
  import opened Errors
  import opened ExpressResponse
  import opened HotelsService
  import opened HotelsController
  import JsRuntime

  /** How a service result reaches the handler: a value, the service error
      thrown as its name-tagged object, or the passed-through error as it is. */
  function ServiceOutcome<T>(result: Result<T>): (o: Outcome<T>)
    ensures o.Returned? <==> result.Ok?
    ensures result.Ok? ==> o.value == result.value
    ensures result.Err? ==> Classify(o.error) == Some(result.error)
    ensures result.Crash? ==> o.error == result.thrown
  {
    match result
    case Ok(value) => Returned(value)
    case Err(error) => Threw(Raise(error))
    case Crash(thrown) => Threw(thrown)
  }

  /** `GET /hotels`. 200 with the whole hotel list exactly when the user is
      eligible and there is a hotel, otherwise 404 or 402 with the message of
      the first failed check; a rejected ticket query is never answered. */
  function ListHotels(store: Store, userId: int): (r: Reply)
    ensures r.Sent? <==> !TicketQueryFailed(store, userId)
    ensures TicketQueryFailed(store, userId) ==> r == Unsent(StatusInternalServerError)
    ensures r.status == StatusOk <==> Eligible(store, userId) && |store.hotels| > 0
    ensures r.status == StatusOk ==> r.body == HotelList(store.hotels)
    ensures TicketOfUser(store, userId).None? && !TicketQueryFailed(store, userId) ==>
      r == Sent(StatusNotFound, Text(NotFoundMessage))
    ensures TicketOfUser(store, userId).Some? ==>
      var t := TicketOfUser(store, userId).value;
      && (t.status != PaidStatus ==> r == Sent(StatusPaymentRequired, Text(MissingPayment)))
      && (t.status == PaidStatus && t.ticketType.isRemote ==> r == Sent(StatusPaymentRequired, Text(RemoteTicket)))
      && (t.status == PaidStatus && !t.ticketType.isRemote && !t.ticketType.includesHotel ==>
            r == Sent(StatusPaymentRequired, Text(HotelNotIncluded)))
    ensures Eligible(store, userId) && store.hotels == [] ==> r == Sent(StatusNotFound, Text(NotFoundMessage))
  {
    GetAllHotels(ServiceOutcome(GetHotels(store, userId)))
  }

  /** The service as the second handler sees it: a function of the hotel id. */
  function HotelService(store: Store, userId: int): int -> Outcome<HotelWithRooms>
  {
    (hotelId: int) => ServiceOutcome(GetHotelsWithRooms(store, userId, hotelId))
  }

  /** `GET /hotels/:hotelId`. A zero or NaN id is refused with 400 before any
      lookup; otherwise 200 with the requested hotel and its rooms exactly
      when the user is eligible and the hotel exists, and, while the user is
      not eligible, the same reply as `GET /hotels`. */
  function ShowHotel(store: Store, userId: int, hotelId: Option<int>): (r: Reply)
    ensures r.Sent? <==> JsRuntime.Falsy(hotelId) || !TicketQueryFailed(store, userId)
    ensures !JsRuntime.Falsy(hotelId) && TicketQueryFailed(store, userId) ==>
      r == Unsent(StatusInternalServerError)
    ensures JsRuntime.Falsy(hotelId) ==> r == Sent(StatusBadRequest, MessageObject(HotelIdRequired))
    ensures !JsRuntime.Falsy(hotelId) ==>
      (r.status == StatusOk <==> Eligible(store, userId) && store.hotelWithRooms(hotelId.value).Some?)
    ensures r.status == StatusOk ==>
      hotelId.Some? && r.body == HotelDetail(store.hotelWithRooms(hotelId.value).value)
    ensures r.status == StatusOk && Consistent(store) ==> HotelOwnsRooms(r.body.hotel, hotelId.value)
    ensures !JsRuntime.Falsy(hotelId) && !Eligible(store, userId) ==> r == ListHotels(store, userId)
    ensures !JsRuntime.Falsy(hotelId) && Eligible(store, userId) && store.hotelWithRooms(hotelId.value).None? ==>
      r == Sent(StatusNotFound, Text(NotFoundMessage))
  {
    GetRoomsByHotelId(hotelId, HotelService(store, userId))
  }
}
