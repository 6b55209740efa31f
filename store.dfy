/** The three MongoDB collections the controllers read and write, held in
    memory. A collection is a sequence in insertion order, and the model
    takes an unsorted `find` to answer in that order (MongoDB itself
    promises no order without a sort). Identifiers come from one counter, so
    a new document's `_id` is never already in use. */
module Store {
  import opened Common
  import opened UserModel
  import opened EventModel
  import opened BookingModel

  /** `Event.findById(id)`: the event with that identifier, `None` (null)
      when there is none. */
  function FindEvent(events: seq<Event>, id: ObjectId): (r: Option<Event>)
    ensures r.Some? ==> r.value in events && r.value.id == id
    ensures r.None? <==> forall i :: 0 <= i < |events| ==> events[i].id != id
  {
    if events == [] then None
    else if events[0].id == id then Some(events[0])
    else FindEvent(events[1..], id)
  }

  /** `Event.find({ user: owner })`: the owner's events in store order. */
  function EventsOf(events: seq<Event>, owner: ObjectId): seq<Event>
  {
    Filter(events, (e: Event) => e.user == owner)
  }

  /** No user before position `i` has address `email`. */
  predicate FirstWithEmail(users: seq<User>, email: string, i: nat)
    requires i <= |users|
  {
    forall j :: 0 <= j < i ==> users[j].email != email
  }

  /** `User.findOne({email})`: the first user, in insertion order, with that
      e-mail address. */
  function FindUserByEmail(users: seq<User>, email: string): (r: Option<User>)
    ensures r.Some? ==> r.value in users && r.value.email == email
    ensures r.None? <==> forall i :: 0 <= i < |users| ==> users[i].email != email
    ensures forall i :: 0 <= i < |users| && users[i].email == email && FirstWithEmail(users, email, i) ==> r == Some(users[i])
  {
    if users == [] then None
    else if users[0].email == email then Some(users[0])
    else FindUserByEmail(users[1..], email)
  }

  /** `User.findById(id)`. */
  function FindUserById(users: seq<User>, id: ObjectId): (r: Option<User>)
    ensures r.Some? ==> r.value in users && r.value.id == id
    ensures r.None? <==> forall i :: 0 <= i < |users| ==> users[i].id != id
  {
    if users == [] then None
    else if users[0].id == id then Some(users[0])
    else FindUserById(users[1..], id)
  }

  /** A lookup in a collection that grew by one document finds the new
      document under its own identifier and the old answer under any
      other. */
  lemma {:induction false} FindEventAfterInsert(events: seq<Event>, e: Event, id: ObjectId)
    requires forall i :: 0 <= i < |events| ==> events[i].id != e.id
    ensures FindEvent(events + [e], id) == if id == e.id then Some(e) else FindEvent(events, id)
    decreases |events|
  {
    if events == [] {
      assert events + [e] == [e];
    } else {
      assert (events + [e])[1..] == events[1..] + [e];
      FindEventAfterInsert(events[1..], e, id);
    }
  }

  /** A user appended under an e-mail address nobody had is the one
      `findOne` returns for it; other addresses find what they found
      before. */
  lemma {:induction false} FindUserByEmailAfterInsert(users: seq<User>, u: User, email: string)
    requires forall i :: 0 <= i < |users| ==> users[i].email != u.email
    ensures FindUserByEmail(users + [u], email) == if email == u.email then Some(u) else FindUserByEmail(users, email)
    decreases |users|
  {
    if users == [] {
      assert users + [u] == [u];
    } else {
      assert (users + [u])[1..] == users[1..] + [u];
      FindUserByEmailAfterInsert(users[1..], u, email);
    }
  }

  ghost predicate UserTableValid(users: seq<User>, nextId: ObjectId)
  {
    && (forall i :: 0 <= i < |users| ==> ValidUser(users[i]) && users[i].id < nextId)
    && (forall i, j :: 0 <= i < j < |users| ==> users[i].id != users[j].id)
    && EmailsUnique(users)
  }

  ghost predicate EventTableValid(events: seq<Event>, nextId: ObjectId)
  {
    && (forall i :: 0 <= i < |events| ==> ValidEvent(events[i]) && events[i].id < nextId)
    && (forall i, j :: 0 <= i < j < |events| ==> events[i].id != events[j].id)
  }

  ghost predicate BookingTableValid(bookings: seq<Booking>, nextId: ObjectId)
  {
    && (forall i :: 0 <= i < |bookings| ==> ValidBooking(bookings[i]) && bookings[i].id < nextId)
    && (forall i, j :: 0 <= i < j < |bookings| ==> bookings[i].id != bookings[j].id)
  }

  class Database {
    var users: seq<User>
    var events: seq<Event>
    var bookings: seq<Booking>
    var nextId: ObjectId

    /** Every stored document satisfies its schema, identifiers are unique
        and below the counter, and no two users share an e-mail address. */
    ghost predicate Valid()
      reads this
    {
      && UserTableValid(users, nextId)
      && EventTableValid(events, nextId)
      && BookingTableValid(bookings, nextId)
    }

    constructor ()
      ensures Valid()
      ensures users == [] && events == [] && bookings == [] && nextId == 0
    {
      users, events, bookings, nextId := [], [], [], 0;
    }

    /** A new `_id`. */
    method NewId() returns (id: ObjectId)
      requires Valid()
      modifies this`nextId
      ensures Valid()
      ensures id == old(nextId) && nextId == id + 1
      ensures forall i :: 0 <= i < |users| ==> users[i].id != id
      ensures forall i :: 0 <= i < |events| ==> events[i].id != id
      ensures forall i :: 0 <= i < |bookings| ==> bookings[i].id != id
    {
      id := nextId;
      nextId := nextId + 1;
    }

    /** Saving a document that passed validation under an identifier drawn
        from `NewId`. */
    method InsertEvent(e: Event)
      requires Valid() && ValidEvent(e) && e.id < nextId
      requires forall i :: 0 <= i < |events| ==> events[i].id != e.id
      modifies this`events
      ensures Valid()
      ensures events == old(events) + [e]
    {
      events := events + [e];
    }

    method InsertBooking(b: Booking)
      requires Valid() && ValidBooking(b) && b.id < nextId
      requires forall i :: 0 <= i < |bookings| ==> bookings[i].id != b.id
      modifies this`bookings
      ensures Valid()
      ensures bookings == old(bookings) + [b]
    {
      bookings := bookings + [b];
    }

    /** The unique index on `email` refuses a second user with the same
        address, so an insert requires the address to be new. */
    method InsertUser(u: User)
      requires Valid() && ValidUser(u) && u.id < nextId
      requires forall i :: 0 <= i < |users| ==> users[i].id != u.id && users[i].email != u.email
      modifies this`users
      ensures Valid()
      ensures users == old(users) + [u]
    {
      users := users + [u];
    }
  }
}
