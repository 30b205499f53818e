/** The records the hotel endpoints read, and the lookups that fetch them.
    The persistence layer itself is not modelled: each lookup is a total
    function whose result is whatever the database would answer. */
module Records {

  datatype Option<+T> = None | Some(value: T)

  /** A database query that either answers or rejects. */
  datatype Query<+T> = Answered(value: T) | Failed

  /** A user's registration record (only the fields the hotel code reads). */
  datatype Enrollment = Enrollment(id: int, userId: int)

  /** The category of a ticket; its two flags decide access to hotels. */
  datatype TicketType = TicketType(id: int, name: string, isRemote: bool, includesHotel: bool)

  /** A ticket, fetched together with its ticket type. */
  datatype Ticket = Ticket(id: int, enrollmentId: int, status: string, ticketType: TicketType)

  /** Timestamps are kept as opaque numbers; they are only passed through. */
  datatype Hotel = Hotel(id: int, name: string, image: string, createdAt: int, updatedAt: int)

  datatype Room = Room(id: int, name: string, capacity: int, hotelId: int, createdAt: int, updatedAt: int)

  /** A hotel fetched together with its rooms. */
  datatype HotelWithRooms = HotelWithRooms(
    id: int, name: string, image: string, createdAt: int, updatedAt: int, rooms: seq<Room>)

  /** What the database answers to each query the hotel service makes:
      the enrollment of a user, the first ticket of an enrollment (with its
      type), the list of all hotels, and the first hotel with a given id
      (with its rooms). The ticket query may also reject. */
  datatype Store = Store(
    enrollmentOfUser: int -> Option<Enrollment>,
    ticketOfEnrollment: int -> Query<Option<Ticket>>,
    hotels: seq<Hotel>,
    hotelWithRooms: int -> Option<HotelWithRooms>)

  /** Every room in the record belongs to the hotel `hotelId`, which the record is. */
  predicate HotelOwnsRooms(h: HotelWithRooms, hotelId: int)
  {
    h.id == hotelId && forall i :: 0 <= i < |h.rooms| ==> h.rooms[i].hotelId == hotelId
  }

  /** The lookups answer what their `where` clauses ask for: an enrollment of
      that user, a ticket of that enrollment, the hotel with that id and its
      own rooms. */
  ghost predicate Consistent(store: Store)
  {
    && (forall u :: store.enrollmentOfUser(u).Some? ==> store.enrollmentOfUser(u).value.userId == u)
    && (forall e :: store.ticketOfEnrollment(e).Answered? && store.ticketOfEnrollment(e).value.Some? ==>
          store.ticketOfEnrollment(e).value.value.enrollmentId == e)
    && (forall h :: store.hotelWithRooms(h).Some? ==> HotelOwnsRooms(store.hotelWithRooms(h).value, h))
  }
}
