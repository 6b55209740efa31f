/** The Event document (models/Event.js): what an organizer publishes, with
    its price and seat counts. Prices and seat counts are JavaScript Numbers,
    modelled as reals. */
module EventModel {
  import opened Common
  import opened JsStrings
  import opened Schema

  datatype Event = Event(
    id: ObjectId,
    title: string,
    description: string,
    date: Timestamp,
    venue: string,
    basePrice: real,
    dynamicPrice: bool,
    totalSeats: real,
    availableSeats: real,
    image: string,
    user: ObjectId)         // the organizer who owns the event

  /** The fields handed to `Event.create`; any of them may be absent. */
  datatype EventFields = EventFields(
    title: Option<string>,
    description: Option<string>,
    date: Option<Timestamp>,
    venue: Option<string>,
    basePrice: Option<real>,
    dynamicPrice: Option<bool>,
    totalSeats: Option<real>,
    availableSeats: Option<real>,
    image: Option<string>,
    user: Option<ObjectId>)

  /** A stored event satisfies the schema: required strings are non-empty,
      `title` and `description` carry no surrounding white space, the price is
      non-negative, there is at least one seat and the available count is
      non-negative. Nothing relates `availableSeats` to `totalSeats`. */
  predicate ValidEvent(e: Event)
  {
    && e.title != "" && Unpadded(e.title)
    && e.description != "" && Unpadded(e.description)
    && e.venue != "" && e.image != ""
    && e.basePrice >= 0.0
    && e.totalSeats >= 1.0
    && e.availableSeats >= 0.0
  }

  /** The `trim: true` setter, applied before validation. */
  function Trimmed(v: Option<string>): Option<string>
  {
    match v
    case Some(s) => Some(Trim(s))
    case None => None
  }

  /** The validation issues of a new event, in schema order. */
  function EventIssues(f: EventFields): seq<Issue>
  {
    RequiredString("title", Trimmed(f.title))
    + RequiredString("description", Trimmed(f.description))
    + RequiredPresent("date", f.date)
    + RequiredString("venue", f.venue)
    + RequiredNumberAtLeast("basePrice", f.basePrice, 0.0)
    + RequiredNumberAtLeast("totalSeats", f.totalSeats, 1.0)
    + RequiredNumberAtLeast("availableSeats", f.availableSeats, 0.0)
    + RequiredString("image", f.image)
    + RequiredPresent("user", f.user)
  }

  /** What the schema admits, stated field by field. */
  predicate Admissible(f: EventFields)
  {
    && f.title.Some? && Trim(f.title.value) != ""
    && f.description.Some? && Trim(f.description.value) != ""
    && f.date.Some?
    && f.venue.Some? && f.venue.value != ""
    && f.basePrice.Some? && f.basePrice.value >= 0.0
    && f.totalSeats.Some? && f.totalSeats.value >= 1.0
    && f.availableSeats.Some? && f.availableSeats.value >= 0.0
    && f.image.Some? && f.image.value != ""
    && f.user.Some?
  }

  /** `Event.create(fields)` under the identifier `id`: the setters and the
      default for `dynamicPrice` are applied, then the document is
      validated. */
  function CreateEvent(id: ObjectId, f: EventFields): Result<Event, seq<Issue>>
  {
    var issues := EventIssues(f);
    if issues != [] then Err(issues)
    else Ok(Event(id, Trim(f.title.value), Trim(f.description.value), f.date.value, f.venue.value,
                  f.basePrice.value, match f.dynamicPrice case Some(b) => b case None => false,
                  f.totalSeats.value, f.availableSeats.value, f.image.value, f.user.value))
  }

  /** `Event.create` succeeds exactly on admissible fields, and what it
      stores satisfies the schema, keeps every supplied value (titles and
      descriptions trimmed), and sets `dynamicPrice` to false when it was
      not given. */
  lemma CreateEventSpec(id: ObjectId, f: EventFields)
    ensures CreateEvent(id, f).Ok? <==> Admissible(f)
    ensures CreateEvent(id, f).Ok? ==>
      var e := CreateEvent(id, f).value;
      && ValidEvent(e) && e.id == id
      && e.title == Trim(f.title.value) && e.description == Trim(f.description.value)
      && e.date == f.date.value && e.venue == f.venue.value
      && e.basePrice == f.basePrice.value
      && e.totalSeats == f.totalSeats.value && e.availableSeats == f.availableSeats.value
      && e.image == f.image.value && e.user == f.user.value
      && e.dynamicPrice == (f.dynamicPrice.Some? && f.dynamicPrice.value)
  {
    if Admissible(f) {
      TrimUnpadded(f.title.value);
      TrimUnpadded(f.description.value);
    }
  }

  /** The fields of a stored event, as they would be handed back to
      `Event.create`. */
  function FieldsOf(e: Event): EventFields
  {
    EventFields(Some(e.title), Some(e.description), Some(e.date), Some(e.venue),
                Some(e.basePrice), Some(e.dynamicPrice), Some(e.totalSeats),
                Some(e.availableSeats), Some(e.image), Some(e.user))
  }

  /** Re-creating a stored event from its own fields gives it back exactly
      when it satisfies the schema. */
  lemma CreateFromFieldsRoundTrip(e: Event)
    ensures CreateEvent(e.id, FieldsOf(e)) == Ok(e) <==> ValidEvent(e)
  {
    CreateEventSpec(e.id, FieldsOf(e));
    TrimFixes(e.title);
    TrimFixes(e.description);
  }

  /** The schema does not tie the available seats to the total: admissible
      fields offering more available seats than there are seats are stored
      as they are. */
  lemma AvailableSeatsUnbounded(id: ObjectId, f: EventFields)
    requires Admissible(f) && f.availableSeats.value > f.totalSeats.value
    ensures CreateEvent(id, f).Ok?
    ensures CreateEvent(id, f).value.availableSeats > CreateEvent(id, f).value.totalSeats
  {
    CreateEventSpec(id, f);
  }
}
