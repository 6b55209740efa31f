/** controllers/eventController.js: publishing an event and the three
    event queries. The caller is `req.user`, `None` when the authentication
    middleware found no user (reading its `_id` then throws). A path
    identifier is `None` when it is not a well-formed ObjectId. */
module EventController {
  import opened Common
  import opened Http
  import opened Schema
  import opened EventModel
  import opened Store

  /** Why `createEvent` answers 500: there was no caller, or the document
      failed validation (the answer's message is the ValidationError's). */
  datatype CreateFailure = NoCaller | Invalid(issues: seq<Issue>)

  datatype CreateBody = Created(message: string, event: Event) | CreateError(failure: CreateFailure)

  /** The fields `createEvent` hands to `Event.create`: those of the body,
      with the owner replaced by the caller. */
  function Submitted(body: EventFields, owner: ObjectId): EventFields
  {
    body.(user := Some(owner))
  }

  /** The event `createEvent` stores under identifier `id`, or why it
      stores none. */
  function NewEvent(caller: Option<ObjectId>, body: EventFields, id: ObjectId): (r: Result<Event, CreateFailure>)
    ensures r.Ok? <==> caller.Some? && Admissible(Submitted(body, caller.value))
    ensures r.Err? ==> (r.error.NoCaller? <==> caller.None?)
    ensures r.Ok? ==>
      && ValidEvent(r.value) && r.value.id == id && r.value.user == caller.value
      && r.value.totalSeats == body.totalSeats.value && r.value.availableSeats == body.availableSeats.value
      && r.value.basePrice == body.basePrice.value
  {
    match caller
    case None => Err(NoCaller)
    case Some(owner) =>
      CreateEventSpec(id, Submitted(body, owner));
      match EventModel.CreateEvent(id, Submitted(body, owner))
      case Ok(e) => Ok(e)
      case Err(issues) => Err(Invalid(issues))
  }

  /** Whatever owner the request body names, the stored event belongs to
      the caller: bodies that differ only in `user` give the same result. */
  lemma OwnerFromCaller(caller: Option<ObjectId>, body: EventFields, other: Option<ObjectId>, id: ObjectId)
    ensures NewEvent(caller, body, id) == NewEvent(caller, body.(user := other), id)
  {
    if caller.Some? {
      assert Submitted(body, caller.value) == Submitted(body.(user := other), caller.value);
    }
  }

  /** `createEvent`: stores the event `NewEvent` describes and answers 201
      with it, or answers 500 and stores nothing. */
  method CreateEvent(db: Database, caller: Option<ObjectId>, body: EventFields) returns (r: Response<CreateBody>)
    requires db.Valid()
    modifies db
    ensures db.Valid()
    ensures db.users == old(db.users) && db.bookings == old(db.bookings)
    ensures match NewEvent(caller, body, old(db.nextId))
      case Ok(e) => r == Response(201, Created("Event created successfully", e)) && db.events == old(db.events) + [e]
      case Err(why) => r == Response(500, CreateError(why)) && db.events == old(db.events)
  {
    var id := db.NewId();
    var made := NewEvent(caller, body, id);
    match made
    case Ok(e) =>
      db.InsertEvent(e);
      r := Response(201, Created("Event created successfully", e));
    case Err(why) =>
      r := Response(500, CreateError(why));
  }

  datatype ListBody = Events(events: seq<Event>) | Message(message: string)

  /** `getAllEvents`: every stored event, in store order. */
  function GetAllEvents(events: seq<Event>): (r: Response<seq<Event>>)
    ensures r.status == 200
    ensures forall i :: 0 <= i < |events| ==> events[i] in r.body
    ensures |r.body| == |events| && Subsequence(r.body, events)
  {
    SubsequenceOfItself(events);
    Response(200, events)
  }

  lemma {:induction false} SubsequenceOfItself<T>(s: seq<T>)
    ensures Subsequence(s, s)
    decreases |s|
  {
    if s != [] {
      SubsequenceOfItself(s[1..]);
    }
  }

  datatype FoundBody = Found(event: Option<Event>) | CastError

  /** `getEventById`: 200 with the event, or with null when no event has a
      well-formed identifier (never 404); 500 on a malformed one. */
  function GetEventById(events: seq<Event>, id: Option<ObjectId>): (r: Response<FoundBody>)
    ensures r.status == 200 <==> id.Some?
    ensures r.status != 200 ==> r == Response(500, CastError)
    ensures r.status == 200 ==>
      && r.body.Found?
      && (r.body.event.None? <==> forall i :: 0 <= i < |events| ==> events[i].id != id.value)
      && (r.body.event.Some? ==> r.body.event.value in events && r.body.event.value.id == id.value)
  {
    match id
    case None => Response(500, CastError)
    case Some(key) => Response(200, Found(FindEvent(events, key)))
  }

  /** `getEventByUserId`: the caller's events in store order. The catch-all
      answers with `res.json`, so it too has status 200. */
  function GetEventByUserId(events: seq<Event>, caller: Option<ObjectId>): (r: Response<ListBody>)
    ensures r.status == 200
    ensures r.body.Events? <==> caller.Some?
    ensures r.body.Message? ==> r.body.message == SomethingWentWrong
    ensures r.body.Events? ==>
      && (forall i :: 0 <= i < |r.body.events| ==> r.body.events[i] in events && r.body.events[i].user == caller.value)
      && (forall i :: 0 <= i < |events| && events[i].user == caller.value ==> events[i] in r.body.events)
  {
    match caller
    case None => Response(200, Message(SomethingWentWrong))
    case Some(owner) => Response(200, Events(EventsOf(events, owner)))
  }

  /** Once `createEvent` has stored an event, `getEventById` finds it under
      its identifier, and it closes its owner's `getEventByUserId` list. */
  lemma CreatedEventIsFound(events: seq<Event>, e: Event)
    requires forall i :: 0 <= i < |events| ==> events[i].id != e.id
    ensures GetEventById(events + [e], Some(e.id)) == Response(200, Found(Some(e)))
    ensures GetEventByUserId(events + [e], Some(e.user)).body.events
         == GetEventByUserId(events, Some(e.user)).body.events + [e]
  {
    FindEventAfterInsert(events, e, e.id);
    FilterAppend(events, [e], (x: Event) => x.user == e.user);
    assert Filter([e], (x: Event) => x.user == e.user) == [e] + Filter([e][1..], (x: Event) => x.user == e.user);
  }
}
