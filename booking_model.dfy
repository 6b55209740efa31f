/** The Booking document (models/Booking.js). `seatNumber` is a count of
    seats, not a seat position. */
module BookingModel {
  import opened Common
  import opened Schema

  datatype BookingStatus = Pending | Confirmed | Cancelled

  /** The string the schema's `enum` lists for each status. */
  function StatusName(s: BookingStatus): string
  {
    match s
    case Pending => "pending"
    case Confirmed => "confirmed"
    case Cancelled => "cancelled"
  }

  /** The `enum` check on the `status` path. */
  function ParseStatus(s: string): (r: Option<BookingStatus>)
    ensures r.Some? ==> StatusName(r.value) == s
  {
    if s == "pending" then Some(Pending)
    else if s == "confirmed" then Some(Confirmed)
    else if s == "cancelled" then Some(Cancelled)
    else None
  }

  lemma StatusNameRoundTrip(s: BookingStatus)
    ensures ParseStatus(StatusName(s)) == Some(s)
  {
  }

  datatype Booking = Booking(
    id: ObjectId,
    user: ObjectId,
    event: ObjectId,
    seatNumber: real,
    totalamount: real,
    status: BookingStatus,
    paymentId: Option<string>,
    createdAt: Timestamp)

  /** A stored booking satisfies the schema's bounds. */
  predicate ValidBooking(b: Booking)
  {
    b.seatNumber >= 1.0 && b.totalamount >= 0.0
  }

  /** The validation issues of a new booking, in schema order. `None` for a
      number is a missing seat count, or an amount computed from one (NaN). */
  function BookingIssues(seatNumber: Option<real>, totalamount: Option<real>, status: string): seq<Issue>
  {
    RequiredNumberAtLeast("seatNumber", seatNumber, 1.0)
    + (match totalamount
       case None => [CastFailed("totalamount")]
       case Some(a) => if a < 0.0 then [BelowMinimum("totalamount", 0.0)] else [])
    + (if ParseStatus(status).None? then [NotInEnum("status")] else [])
  }

  /** `new Booking({...}).save()` under the identifier `id`, stamped with
      `createdAt` = `now`; no payment is attached. */
  function CreateBooking(id: ObjectId, user: ObjectId, event: ObjectId, seatNumber: Option<real>,
                         totalamount: Option<real>, status: string, now: Timestamp): Result<Booking, seq<Issue>>
  {
    var issues := BookingIssues(seatNumber, totalamount, status);
    if issues != [] then Err(issues)
    else Ok(Booking(id, user, event, seatNumber.value, totalamount.value, ParseStatus(status).value, None, now))
  }

  /** Saving succeeds exactly when the seat count is at least 1, the amount
      is a non-negative number and the status is one of the three names;
      the saved booking keeps every value and satisfies the schema. */
  lemma CreateBookingSpec(id: ObjectId, user: ObjectId, event: ObjectId, seatNumber: Option<real>,
                          totalamount: Option<real>, status: string, now: Timestamp)
    ensures CreateBooking(id, user, event, seatNumber, totalamount, status, now).Ok? <==>
      && seatNumber.Some? && seatNumber.value >= 1.0
      && totalamount.Some? && totalamount.value >= 0.0
      && status in {"pending", "confirmed", "cancelled"}
    ensures CreateBooking(id, user, event, seatNumber, totalamount, status, now).Ok? ==>
      var b := CreateBooking(id, user, event, seatNumber, totalamount, status, now).value;
      && ValidBooking(b) && b.id == id && b.user == user && b.event == event
      && b.seatNumber == seatNumber.value && b.totalamount == totalamount.value
      && StatusName(b.status) == status && b.paymentId.None? && b.createdAt == now
  {
  }
}
