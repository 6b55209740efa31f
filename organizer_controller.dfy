/** controllers/organizerController.js: the organizer's dashboard figures,
    computed from the events and bookings collections. The caller is
    `req.user`, `None` when the authentication middleware found no user
    (reading its `_id` then throws). */
module OrganizerController {
  import opened Common
  import opened Http
  import opened ErrorHandler
  import opened EventModel
  import opened BookingModel
  import opened Store

  datatype Stats = Stats(
    totalEvents: nat,
    totalBookings: nat,
    totalRevenue: real,
    upcomingEventsCount: nat,
    upcomingEvents: seq<Event>)

  datatype DashboardBody = Dashboard(success: bool, stats: Stats) | Failure(error: Json)

  /** `events.map(event => event._id)`. */
  function IdsOf(events: seq<Event>): (r: seq<ObjectId>)
    ensures |r| == |events|
    ensures forall i :: 0 <= i < |events| ==> r[i] == events[i].id
  {
    if events == [] then [] else [events[0].id] + IdsOf(events[1..])
  }

  /** `Booking.find({ event: { $in: eventIds } })`. */
  function BookingsOfEvents(bookings: seq<Booking>, ids: seq<ObjectId>): seq<Booking>
  {
    Filter(bookings, (b: Booking) => b.event in ids)
  }

  /** The sum of the amounts. */
  function Total(bookings: seq<Booking>): real
  {
    if bookings == [] then 0.0 else bookings[0].totalamount + Total(bookings[1..])
  }

  /** `bookings.reduce((acc, booking) => acc + booking.totalamount, acc)`:
      the sum taken from the left. */
  function Reduce(acc: real, bookings: seq<Booking>): real
    decreases |bookings|
  {
    if bookings == [] then acc else Reduce(acc + bookings[0].totalamount, bookings[1..])
  }

  /** `events.filter(event => new Date(event.date) > new Date())`. */
  function Upcoming(events: seq<Event>, now: Timestamp): seq<Event>
  {
    Filter(events, (e: Event) => e.date > now)
  }

  const DashboardFailure: string := "Failed to fetch dashboard stats"

  /** `getDashboardStats` at time `now`. `error` is what was thrown when
      there is no caller, and `env` is `NODE_ENV`. */
  function GetDashboardStats(events: seq<Event>, bookings: seq<Booking>, caller: Option<ObjectId>, now: Timestamp,
                             error: ThrownError, env: Option<string>): (r: Response<DashboardBody>)
    ensures r.status == 200 <==> caller.Some?
    ensures r.status == 200 ==> r.body.Dashboard? && r.body.success
    ensures r.status != 200 ==>
      && r.status == 500 && r.body.Failure?
      && Member(r.body.error, "message") == Some(JStr(DashboardFailure))
      && Member(r.body.error, "success") == Some(JBool(false))
    ensures r.status == 200 ==>
      var s := r.body.stats;
      && s.totalEvents == |EventsOf(events, caller.value)|
      && s.upcomingEventsCount == |s.upcomingEvents| <= s.totalEvents
      && (forall i :: 0 <= i < |s.upcomingEvents| ==>
            s.upcomingEvents[i] in events && s.upcomingEvents[i].user == caller.value && s.upcomingEvents[i].date > now)
  {
    match caller
    case None =>
      var failure := HandleError(error, Some(DashboardFailure), None, env);
      Response(failure.status, Failure(failure.body))
    case Some(organizer) =>
      var mine := EventsOf(events, organizer);
      var considered := BookingsOfEvents(bookings, IdsOf(mine));
      var upcoming := Upcoming(mine, now);
      Response(200, Dashboard(true, Stats(|mine|, |considered|, Reduce(0.0, considered), |upcoming|, upcoming)))
  }

  /** The left fold computes the sum. */
  lemma {:induction false} ReduceIsTotal(acc: real, bookings: seq<Booking>)
    ensures Reduce(acc, bookings) == acc + Total(bookings)
    decreases |bookings|
  {
    if bookings != [] {
      ReduceIsTotal(acc + bookings[0].totalamount, bookings[1..]);
    }
  }

  lemma {:induction false} TotalNonNegative(bookings: seq<Booking>)
    requires forall i :: 0 <= i < |bookings| ==> bookings[i].totalamount >= 0.0
    ensures Total(bookings) >= 0.0
    decreases |bookings|
  {
    if bookings != [] {
      TotalNonNegative(bookings[1..]);
    }
  }

  /** Splitting bookings by any condition splits their total. */
  lemma {:induction false} TotalSplits(bookings: seq<Booking>, p: Booking -> bool, q: Booking -> bool)
    requires forall b :: q(b) == !p(b)
    ensures Total(bookings) == Total(Filter(bookings, p)) + Total(Filter(bookings, q))
    decreases |bookings|
  {
    if bookings != [] {
      TotalSplits(bookings[1..], p, q);
    }
  }

  predicate IsCancelled(b: Booking)
  {
    b.status == Cancelled
  }

  predicate NotCancelled(b: Booking)
  {
    b.status != Cancelled
  }

  /** The bookings the dashboard counts are exactly those made for one of
      the organizer's events. */
  lemma ConsideredBookings(events: seq<Event>, bookings: seq<Booking>, organizer: ObjectId, b: Booking)
    ensures b in BookingsOfEvents(bookings, IdsOf(EventsOf(events, organizer))) <==>
      b in bookings && exists e :: e in events && e.user == organizer && e.id == b.event
  {
    var mine := EventsOf(events, organizer);
    var ids := IdsOf(mine);
    var considered := BookingsOfEvents(bookings, ids);
    if b in considered {
      var k :| 0 <= k < |considered| && considered[k] == b;
      assert b.event in ids;
      var j :| 0 <= j < |ids| && ids[j] == b.event;
      assert mine[j] in events && mine[j].user == organizer;
    }
    if b in bookings && exists e :: e in events && e.user == organizer && e.id == b.event {
      var e :| e in events && e.user == organizer && e.id == b.event;
      var j :| 0 <= j < |events| && events[j] == e;
      assert e in mine;
      var m :| 0 <= m < |mine| && mine[m] == e;
      assert ids[m] == b.event;
      var k :| 0 <= k < |bookings| && bookings[k] == b;
      assert b in considered;
    }
  }

  /** The bookings counted and their revenue: the sum of the amounts of
      the bookings made for the organizer's events. */
  lemma RevenueIsTotal(events: seq<Event>, bookings: seq<Booking>, organizer: ObjectId, now: Timestamp,
                       error: ThrownError, env: Option<string>)
    ensures var s := GetDashboardStats(events, bookings, Some(organizer), now, error, env).body.stats;
      var considered := BookingsOfEvents(bookings, IdsOf(EventsOf(events, organizer)));
      s.totalBookings == |considered| && s.totalRevenue == Total(considered)
  {
    var considered := BookingsOfEvents(bookings, IdsOf(EventsOf(events, organizer)));
    ReduceIsTotal(0.0, considered);
  }

  /** No status is left out of the revenue: it is the cancelled bookings'
      total plus everyone else's. */
  lemma RevenueCountsCancelled(events: seq<Event>, bookings: seq<Booking>, organizer: ObjectId, now: Timestamp,
                               error: ThrownError, env: Option<string>)
    ensures var s := GetDashboardStats(events, bookings, Some(organizer), now, error, env).body.stats;
      var considered := BookingsOfEvents(bookings, IdsOf(EventsOf(events, organizer)));
      s.totalRevenue == Total(Filter(considered, IsCancelled)) + Total(Filter(considered, NotCancelled))
  {
    var considered := BookingsOfEvents(bookings, IdsOf(EventsOf(events, organizer)));
    RevenueIsTotal(events, bookings, organizer, now, error, env);
    TotalSplits(considered, IsCancelled, NotCancelled);
  }

  /** The revenue is never negative when no stored amount is, which the
      Booking schema's minimum guarantees. */
  lemma RevenueNonNegative(events: seq<Event>, bookings: seq<Booking>, organizer: ObjectId, now: Timestamp,
                           error: ThrownError, env: Option<string>)
    requires forall i :: 0 <= i < |bookings| ==> bookings[i].totalamount >= 0.0
    ensures GetDashboardStats(events, bookings, Some(organizer), now, error, env).body.stats.totalRevenue >= 0.0
  {
    var considered := BookingsOfEvents(bookings, IdsOf(EventsOf(events, organizer)));
    RevenueIsTotal(events, bookings, organizer, now, error, env);
    forall i | 0 <= i < |considered| ensures considered[i].totalamount >= 0.0 {
      assert considered[i] in bookings;
    }
    TotalNonNegative(considered);
  }

  /** The upcoming events are the organizer's events dated strictly after
      `now`, in store order. */
  lemma UpcomingInOrder(events: seq<Event>, bookings: seq<Booking>, organizer: ObjectId, now: Timestamp,
                        error: ThrownError, env: Option<string>)
    ensures var s := GetDashboardStats(events, bookings, Some(organizer), now, error, env).body.stats;
      Subsequence(s.upcomingEvents, EventsOf(events, organizer)) && Subsequence(EventsOf(events, organizer), events)
  {
    FilterIsSubsequence(EventsOf(events, organizer), (e: Event) => e.date > now);
    FilterIsSubsequence(events, (e: Event) => e.user == organizer);
  }

  /** ... and all of them: one selection by owner and date gives the same
      list. */
  lemma UpcomingSelection(events: seq<Event>, bookings: seq<Booking>, organizer: ObjectId, now: Timestamp,
                          error: ThrownError, env: Option<string>)
    ensures GetDashboardStats(events, bookings, Some(organizer), now, error, env).body.stats.upcomingEvents
         == Filter(events, (e: Event) => e.user == organizer && e.date > now)
  {
    UpcomingOfOwned(events, organizer, now);
  }

  lemma {:induction false} UpcomingOfOwned(events: seq<Event>, organizer: ObjectId, now: Timestamp)
    ensures Upcoming(EventsOf(events, organizer), now) == Filter(events, (e: Event) => e.user == organizer && e.date > now)
    decreases |events|
  {
    if events != [] {
      UpcomingOfOwned(events[1..], organizer, now);
    }
  }
}
