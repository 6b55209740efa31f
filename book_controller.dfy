/** controllers/bookController.js: booking an event and listing one's
    bookings. The caller is `req.user`, `None` when the authentication
    middleware found no user for the token (reading its `_id` then throws).
    A path identifier is `None` when it is not a well-formed ObjectId (the
    cast throws). A seat count is `None` when the body gave none or gave
    something that is not a number. */
module BookController {
  import opened Common
  import opened Http
  import opened EventModel
  import opened BookingModel
  import opened Store

  datatype BookBody = Booked(message: string, booking: Booking) | Failed(message: string)

  /** `seatNumber * event.basePrice`: NaN when there is no seat count. */
  function Amount(seatNumber: Option<real>, basePrice: real): Option<real>
  {
    match seatNumber
    case Some(n) => Some(n * basePrice)
    case None => None
  }

  /** The booking `bookEvent` saves under identifier `id` at time `now`, or
      `None` when it throws instead: no caller, a malformed or unknown event
      identifier (`event.basePrice` on null), or a booking the schema
      refuses. The event's seat counts are neither read nor checked. */
  function BookingFor(events: seq<Event>, caller: Option<ObjectId>, eventId: Option<ObjectId>,
                      seatNumber: Option<real>, id: ObjectId, now: Timestamp): (r: Option<Booking>)
    ensures r.Some? <==>
      && caller.Some? && eventId.Some? && FindEvent(events, eventId.value).Some?
      && seatNumber.Some? && seatNumber.value >= 1.0
      && seatNumber.value * FindEvent(events, eventId.value).value.basePrice >= 0.0
    ensures r.Some? ==>
      && ValidBooking(r.value)
      && r.value.id == id && r.value.user == caller.value && r.value.event == eventId.value
      && r.value.status == Pending && r.value.paymentId.None? && r.value.createdAt == now
      && r.value.seatNumber == seatNumber.value
      && r.value.totalamount == seatNumber.value * FindEvent(events, eventId.value).value.basePrice
  {
    if caller.None? || eventId.None? then None
    else
      match FindEvent(events, eventId.value)
      case None => None
      case Some(event) =>
        var amount := Amount(seatNumber, event.basePrice);
        CreateBookingSpec(id, caller.value, eventId.value, seatNumber, amount, "pending", now);
        match CreateBooking(id, caller.value, eventId.value, seatNumber, amount, "pending", now)
        case Ok(b) => Some(b)
        case Err(_) => None
  }

  /** `bookEvent`: saves the booking `BookingFor` describes and answers 200
      with it, or answers 500 and saves nothing. Users and events are left
      as they were; in particular no seat is taken from the event. */
  method BookEvent(db: Database, caller: Option<ObjectId>, eventId: Option<ObjectId>, seatNumber: Option<real>, now: Timestamp)
    returns (r: Response<BookBody>)
    requires db.Valid()
    modifies db
    ensures db.Valid()
    ensures db.users == old(db.users) && db.events == old(db.events)
    ensures match BookingFor(old(db.events), caller, eventId, seatNumber, old(db.nextId), now)
      case Some(b) => r == Response(200, Booked("Book Event Successfully", b)) && db.bookings == old(db.bookings) + [b]
      case None => r == Response(500, Failed(SomethingWentWrong)) && db.bookings == old(db.bookings)
  {
    var id := db.NewId();
    var b := BookingFor(db.events, caller, eventId, seatNumber, id, now);
    if b.Some? {
      db.InsertBooking(b.value);
      r := Response(200, Booked("Book Event Successfully", b.value));
    } else {
      r := Response(500, Failed(SomethingWentWrong));
    }
  }

  /** On events that satisfy the schema, booking fails only for want of a
      caller, of a known event or of a seat count of at least 1. */
  lemma BookingOnValidEvents(events: seq<Event>, caller: Option<ObjectId>, eventId: Option<ObjectId>,
                             seatNumber: Option<real>, id: ObjectId, now: Timestamp)
    requires forall i :: 0 <= i < |events| ==> ValidEvent(events[i])
    ensures BookingFor(events, caller, eventId, seatNumber, id, now).Some? <==>
      caller.Some? && eventId.Some? && FindEvent(events, eventId.value).Some? && seatNumber.Some? && seatNumber.value >= 1.0
  {
    if eventId.Some? && FindEvent(events, eventId.value).Some? {
      FoundEventPriced(events, eventId.value);
    }
    BookingAtNonNegativePrice(events, caller, eventId, seatNumber, id, now);
  }

  lemma FoundEventPriced(events: seq<Event>, id: ObjectId)
    requires forall i :: 0 <= i < |events| ==> ValidEvent(events[i])
    requires FindEvent(events, id).Some?
    ensures FindEvent(events, id).value.basePrice >= 0.0
  {
  }

  /** A non-negative price makes every amount for at least one seat
      admissible. */
  lemma BookingAtNonNegativePrice(events: seq<Event>, caller: Option<ObjectId>, eventId: Option<ObjectId>,
                                  seatNumber: Option<real>, id: ObjectId, now: Timestamp)
    requires eventId.Some? && FindEvent(events, eventId.value).Some? ==> FindEvent(events, eventId.value).value.basePrice >= 0.0
    ensures BookingFor(events, caller, eventId, seatNumber, id, now).Some? <==>
      caller.Some? && eventId.Some? && FindEvent(events, eventId.value).Some? && seatNumber.Some? && seatNumber.value >= 1.0
  {
    if caller.Some? && eventId.Some? && FindEvent(events, eventId.value).Some? && seatNumber.Some? && seatNumber.value >= 1.0 {
      NonNegativeProduct(seatNumber.value, FindEvent(events, eventId.value).value.basePrice);
    }
  }

  lemma NonNegativeProduct(a: real, b: real)
    requires a >= 0.0 && b >= 0.0
    ensures a * b >= 0.0
  {
  }

  /** Two event tables that differ at most in their available seat counts. */
  predicate SameButSeats(a: seq<Event>, b: seq<Event>)
  {
    |a| == |b| && forall i :: 0 <= i < |a| ==> a[i] == b[i].(availableSeats := a[i].availableSeats)
  }

  lemma {:induction false} FindEventIgnoresSeats(a: seq<Event>, b: seq<Event>, id: ObjectId)
    requires SameButSeats(a, b)
    ensures FindEvent(a, id).Some? == FindEvent(b, id).Some?
    ensures FindEvent(a, id).Some? ==>
      FindEvent(a, id).value == FindEvent(b, id).value.(availableSeats := FindEvent(a, id).value.availableSeats)
    decreases |a|
  {
    if a != [] {
      assert a[0] == b[0].(availableSeats := a[0].availableSeats);
      FindEventIgnoresSeats(a[1..], b[1..], id);
    }
  }

  /** What `bookEvent` does cannot depend on how many seats the event has
      left: on tables that differ only in `availableSeats` it saves the same
      booking, or fails on both. */
  lemma BookingIgnoresAvailableSeats(a: seq<Event>, b: seq<Event>, caller: Option<ObjectId>, eventId: Option<ObjectId>,
                                     seatNumber: Option<real>, id: ObjectId, now: Timestamp)
    requires SameButSeats(a, b)
    ensures BookingFor(a, caller, eventId, seatNumber, id, now) == BookingFor(b, caller, eventId, seatNumber, id, now)
  {
    if eventId.Some? {
      FindEventIgnoresSeats(a, b, eventId.value);
      if FindEvent(a, eventId.value).Some? {
        assert FindEvent(a, eventId.value).value.basePrice == FindEvent(b, eventId.value).value.basePrice;
      }
    }
  }

  datatype ListBody = Bookings(bookings: seq<Booking>) | Message(message: string)

  /** A `status` query parameter that is present and non-empty (truthy). */
  predicate StatusGiven(status: Option<string>)
  {
    status.Some? && status.value != ""
  }

  predicate HasStatus(b: Booking, status: string)
  {
    StatusName(b.status) == status
  }

  /** The condition of `Booking.find({user, status?})`. */
  predicate Matches(b: Booking, caller: ObjectId, status: Option<string>)
  {
    b.user == caller && (StatusGiven(status) ==> HasStatus(b, status.value))
  }

  /** The query's result: the caller's bookings, narrowed to the given
      status when there is one, in store order. */
  function QueryBookings(bookings: seq<Booking>, caller: ObjectId, status: Option<string>): seq<Booking>
  {
    Filter(bookings, (b: Booking) => Matches(b, caller, status))
  }

  /** `getBookByStatusbyUserId`. Every answer has status 200: the catch-all
      answers with `res.json` and sets no status. */
  function GetBookings(bookings: seq<Booking>, caller: Option<ObjectId>, status: Option<string>): (r: Response<ListBody>)
    ensures r.status == 200
    ensures r.body.Bookings? <==> caller.Some?
    ensures r.body.Message? ==> r.body.message == SomethingWentWrong
    ensures r.body.Bookings? ==>
      && (forall i :: 0 <= i < |r.body.bookings| ==>
            r.body.bookings[i] in bookings && Matches(r.body.bookings[i], caller.value, status))
      && (forall i :: 0 <= i < |bookings| && Matches(bookings[i], caller.value, status) ==>
            bookings[i] in r.body.bookings)
  {
    match caller
    case None => Response(200, Message(SomethingWentWrong))
    case Some(user) =>
      var found := QueryBookings(bookings, user, status);
      if !StatusGiven(status) then Response(200, Bookings(found))
      else Response(200, Bookings(Filter(found, (b: Booking) => HasStatus(b, status.value))))
  }

  /** The in-memory `filter` after the status query removes nothing: the
      answer is the query's result, unchanged and in store order. */
  lemma {:induction false} ListingIsQuery(bookings: seq<Booking>, caller: ObjectId, status: Option<string>)
    ensures GetBookings(bookings, Some(caller), status) == Response(200, Bookings(QueryBookings(bookings, caller, status)))
    ensures Subsequence(GetBookings(bookings, Some(caller), status).body.bookings, bookings)
  {
    var found := QueryBookings(bookings, caller, status);
    if StatusGiven(status) {
      FilterKeepsAll(found, (b: Booking) => HasStatus(b, status.value));
    }
    FilterIsSubsequence(bookings, (b: Booking) => Matches(b, caller, status));
  }

  /** A successful booking appears at the end of its maker's listing, both
      unfiltered and filtered by `pending`. */
  lemma ListingAfterBooking(bookings: seq<Booking>, b: Booking, status: Option<string>)
    requires b.status == Pending
    requires status == None || status == Some("pending")
    ensures GetBookings(bookings + [b], Some(b.user), status).body.bookings
         == GetBookings(bookings, Some(b.user), status).body.bookings + [b]
  {
    var p := (x: Booking) => Matches(x, b.user, status);
    ListingIsQuery(bookings, b.user, status);
    ListingIsQuery(bookings + [b], b.user, status);
    FilterAppend(bookings, [b], p);
    assert Filter([b], p) == [b] + Filter([b][1..], p);
  }
}
