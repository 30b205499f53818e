/** The hotel service: the eligibility chain both entry points run before
    they touch hotel data, and the two queries built on it. */
module HotelsService {
  import opened Records
  import opened Errors
  import JsRuntime

  const PaidStatus := "PAID"
  const MissingPayment := "Missing Payment"
  const RemoteTicket := "Ticket type is remote"
  const HotelNotIncluded := "Ticket Does Not Includes Hotel"

  /** The outcome of a service call: the fetched data, one of the service's
      own errors, or an error of another kind passed through (`Crash`). */
  datatype Result<+T> = Ok(value: T) | Err(error: ServiceError) | Crash(thrown: ApplicationError)
  {
    /** The same failure, as a result of another value type. */
    function PropagateFailure<U>(): Result<U>
      requires !Ok?
    {
      if Err? then Err(error) else Crash(thrown)
    }
  }

  /** The ticket the chain examines: the one the ticket query answers for the
      id of the user's enrollment, if the user has an enrollment and the
      query answers. */
  function TicketOfUser(store: Store, userId: int): Option<Ticket>
  {
    match store.enrollmentOfUser(userId)
    case None => None
    case Some(enrollment) =>
      match store.ticketOfEnrollment(enrollment.id)
      case Answered(ticket) => ticket
      case Failed => None
  }

  /** The user has an enrollment, and the query for its ticket rejects. */
  predicate TicketQueryFailed(store: Store, userId: int)
  {
    store.enrollmentOfUser(userId).Some? && store.ticketOfEnrollment(store.enrollmentOfUser(userId).value.id).Failed?
  }

  /** Paid, not remote, and including hotel: what a ticket must be to open
      the hotel endpoints. */
  predicate GrantsHotelAccess(t: Ticket)
  {
    t.status == PaidStatus && !t.ticketType.isRemote && t.ticketType.includesHotel
  }

  predicate Eligible(store: Store, userId: int)
  {
    TicketOfUser(store, userId).Some? && GrantsHotelAccess(TicketOfUser(store, userId).value)
  }

  /** The ordered checks, each with the message of the error it raises. */
  datatype Rule = Rule(holds: Ticket -> bool, violation: string)

  function TicketRules(): seq<Rule>
  {
    [ Rule((t: Ticket) => t.status == PaidStatus, MissingPayment),
      Rule((t: Ticket) => !t.ticketType.isRemote, RemoteTicket),
      Rule((t: Ticket) => t.ticketType.includesHotel, HotelNotIncluded) ]
  }

  /** The index of the first rule the ticket breaks, if any. */
  function FirstViolation(rules: seq<Rule>, t: Ticket): (k: Option<nat>)
    ensures k.Some? ==> k.value < |rules| && !rules[k.value].holds(t)
    ensures k.Some? ==> forall j :: 0 <= j < k.value ==> rules[j].holds(t)
    ensures k.None? ==> forall j :: 0 <= j < |rules| ==> rules[j].holds(t)
  {
    if rules == [] then None
    else if !rules[0].holds(t) then Some(0)
    else match FirstViolation(rules[1..], t)
      case None => None
      case Some(k) => Some(k + 1)
  }

  /** The eligibility chain shared by both entry points: the enrollment, then
      its ticket, then payment, then the ticket type's two flags; the first
      check that fails decides the error. */
  function CheckEligibility(store: Store, userId: int): (r: Result<Ticket>)
    ensures r.Ok? <==> Eligible(store, userId)
    ensures r.Ok? ==> TicketOfUser(store, userId) == Some(r.value)
    ensures r.Ok? && Consistent(store) ==>
      && store.enrollmentOfUser(userId).value.userId == userId
      && r.value.enrollmentId == store.enrollmentOfUser(userId).value.id
    ensures store.enrollmentOfUser(userId).None? ==> r == Err(NotFound)
    ensures r == Err(NotFound) <==> TicketOfUser(store, userId).None? && !TicketQueryFailed(store, userId)
    ensures r.Crash? <==> TicketQueryFailed(store, userId)
    ensures r.Crash? ==> r.thrown == InternalServerError
    ensures TicketOfUser(store, userId).Some? ==>
      var t := TicketOfUser(store, userId).value;
      && (t.status != PaidStatus ==> r == Err(PaymentRequired(MissingPayment)))
      && (t.status == PaidStatus && t.ticketType.isRemote ==> r == Err(PaymentRequired(RemoteTicket)))
      && (t.status == PaidStatus && !t.ticketType.isRemote && !t.ticketType.includesHotel ==>
            r == Err(PaymentRequired(HotelNotIncluded)))
  {
    var enrollment := store.enrollmentOfUser(userId);
    if enrollment.None? then Err(NotFound)
    else
      var query := store.ticketOfEnrollment(enrollment.value.id);
      if query.Failed? then Crash(InternalServerError)
      else
        var ticket := query.value;
        if ticket.None? then Err(NotFound)
        else if ticket.value.status != PaidStatus then Err(PaymentRequired(MissingPayment))
        else if ticket.value.ticketType.isRemote == true then Err(PaymentRequired(RemoteTicket))
        else if ticket.value.ticketType.includesHotel == false then Err(PaymentRequired(HotelNotIncluded))
        else Ok(ticket.value)
  }

  /** `getHotels`: the whole hotel list, once the chain passes and the list
      has at least one key. */
  function GetHotels(store: Store, userId: int): (r: Result<seq<Hotel>>)
    ensures r.Ok? <==> Eligible(store, userId) && |store.hotels| > 0
    ensures r.Ok? ==> r.value == store.hotels
    ensures Eligible(store, userId) && store.hotels == [] ==> r == Err(NotFound)
    ensures !Eligible(store, userId) ==> r == CheckEligibility(store, userId).PropagateFailure()
  {
    var eligibility := CheckEligibility(store, userId);
    if !eligibility.Ok? then eligibility.PropagateFailure()
    else
      if |JsRuntime.ArrayKeys(store.hotels)| == 0 then Err(NotFound) else Ok(store.hotels)
  }

  /** `getHotelsWithRooms`: the hotel with the requested id and its rooms,
      once the chain passes and the hotel exists. */
  function GetHotelsWithRooms(store: Store, userId: int, hotelId: int): (r: Result<HotelWithRooms>)
    ensures r.Ok? <==> Eligible(store, userId) && store.hotelWithRooms(hotelId).Some?
    ensures r.Ok? ==> store.hotelWithRooms(hotelId) == Some(r.value)
    ensures r.Ok? && Consistent(store) ==> HotelOwnsRooms(r.value, hotelId)
    ensures Eligible(store, userId) && store.hotelWithRooms(hotelId).None? ==> r == Err(NotFound)
    ensures !Eligible(store, userId) ==> r == CheckEligibility(store, userId).PropagateFailure()
  {
    var eligibility := CheckEligibility(store, userId);
    if !eligibility.Ok? then eligibility.PropagateFailure()
    else
      var hotelWithRooms := store.hotelWithRooms(hotelId);
      if hotelWithRooms.None? then Err(NotFound) else Ok(hotelWithRooms.value)
  }

  /** The early-exit chain reports exactly the first broken rule of the
      ticket, in the order of the rule table. */
  lemma ChainFollowsRuleOrder(store: Store, userId: int)
    requires TicketOfUser(store, userId).Some?
    ensures var t := TicketOfUser(store, userId).value;
      match FirstViolation(TicketRules(), t)
      case None => CheckEligibility(store, userId) == Ok(t)
      case Some(k) => CheckEligibility(store, userId) == Err(PaymentRequired(TicketRules()[k].violation))
  {
    var t, rules := TicketOfUser(store, userId).value, TicketRules();
    assert rules[0].holds(t) == (t.status == PaidStatus);
    assert rules[1].holds(t) == !t.ticketType.isRemote;
    assert rules[2].holds(t) == t.ticketType.includesHotel;
  }

  /** While the chain fails, neither query looks at hotel data: replacing the
      hotel list and the hotel lookup changes neither result, and both
      entry points fail with the same error. */
  lemma IneligibleIgnoresHotelData(
    store: Store, userId: int, hotelId: int,
    hotels: seq<Hotel>, hotelWithRooms: int -> Option<HotelWithRooms>)
    requires !Eligible(store, userId)
    ensures var other := store.(hotels := hotels, hotelWithRooms := hotelWithRooms);
      && GetHotels(other, userId) == GetHotels(store, userId)
      && GetHotelsWithRooms(other, userId, hotelId) == GetHotelsWithRooms(store, userId, hotelId)
    ensures GetHotels(store, userId).PropagateFailure<()>() ==
            GetHotelsWithRooms(store, userId, hotelId).PropagateFailure<()>()
  {
  }
}
