/** The part of an Express response the hotel handlers use. A handler's
    effect is the sequence of `res.status(...)` and `res.send(...)` calls it
    makes; what the client receives is decided by the first `send`, which
    carries the status set last before it. Calls after it change nothing the
    client sees, and a handler that never sends leaves the request open. */
module ExpressResponse {
  import opened Records

  const StatusOk := 200
  const StatusBadRequest := 400
  const StatusPaymentRequired := 402
  const StatusNotFound := 404
  const StatusInternalServerError := 500

  /** The status a fresh response carries until `res.status` changes it. */
  const DefaultStatus := StatusOk

  /** What a handler sends: one of the fetched records, a JSON object with a
      `message` field, or a bare string. */
  datatype Body =
    | HotelList(hotels: seq<Hotel>)
    | HotelDetail(hotel: HotelWithRooms)
    | MessageObject(message: string)
    | Text(text: string)

  datatype Call = Status(code: int) | Send(body: Body)

  /** What the client receives: a status and a body, or nothing yet (the
      response was left open, with the status it was last given). */
  datatype Reply = Sent(status: int, body: Body) | Unsent(status: int)

  /** The status in force just before call `i`: the one set by the call
      before it, when that call sets one, else the starting status. */
  function StatusBefore(calls: seq<Call>, i: nat, status: int): int
    requires i <= |calls|
  {
    if i == 0 || !calls[i - 1].Status? then status else calls[i - 1].code
  }

  /** The reply that results from making `calls` on a response whose status
      is currently `status`. */
  function Replay(calls: seq<Call>, status: int): (r: Reply)
    ensures r.Sent? <==> exists i :: 0 <= i < |calls| && calls[i].Send?
    ensures r.Sent? ==> exists i :: (0 <= i < |calls| && calls[i] == Send(r.body) &&
                                     (forall j :: 0 <= j < i ==> calls[j].Status?) &&
                                     r.status == StatusBefore(calls, i, status))
    ensures r.Unsent? && calls != [] ==> calls[|calls| - 1] == Status(r.status)
    ensures calls == [] ==> r == Unsent(status)
  {
    if calls == [] then Unsent(status)
    else match calls[0]
      case Status(code) => Replay(calls[1..], code)
      case Send(body) => Sent(status, body)
  }

  /** The reply a handler's calls produce on a fresh response. */
  function Deliver(calls: seq<Call>): Reply
  {
    Replay(calls, DefaultStatus)
  }

  /** Replaying two call sequences one after the other: once the first has
      sent, the second is ignored; otherwise the second starts from the
      status the first left. */
  lemma {:induction false} ReplayAppend(first: seq<Call>, second: seq<Call>, status: int)
    ensures Replay(first + second, status) ==
      match Replay(first, status)
      case Sent(_, _) => Replay(first, status)
      case Unsent(left) => Replay(second, left)
  {
    if first == [] {
      assert first + second == second;
    } else {
      assert (first + second)[0] == first[0];
      assert (first + second)[1..] == first[1..] + second;
      match first[0]
      case Status(code) => ReplayAppend(first[1..], second, code);
      case Send(_) =>
    }
  }

  /** Setting a status and then sending fixes both, whatever follows. */
  lemma StatusThenSend(code: int, body: Body, rest: seq<Call>, status: int)
    ensures Replay([Status(code), Send(body)] + rest, status) == Sent(code, body)
  {
  }
}
