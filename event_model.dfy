/**
 * The event entity: its stored form (`EventData`, as read from the `events`
 * collection, where dates may arrive as a Date, a `{ toDate }` wrapper or a
 * Firestore Timestamp) and its in-memory form (`Event`, with dates resolved to
 * millisecond instants), with the conversions between them.
 */
module EventModel {
  import opened Wrappers

  type Nanoseconds = n: int | 0 <= n < 1_000_000_000

  /** The shapes a date field can take in a stored event. */
  datatype DateRepr =
    | JsDate(millis: int)                                  // a JavaScript Date (integral milliseconds)
    | DateWrapper(millis: int)                             // an object whose only method is `toDate()`
    | Timestamp(seconds: int, nanoseconds: Nanoseconds)   // an Admin SDK Timestamp: `toMillis()` and `toDate()`

  /**
   * The Admin SDK's `Timestamp.toMillis()`: seconds * 1000 plus the nanoseconds
   * in whole milliseconds, rounded down (`Math.floor`), so always an integer.
   */
  function TimestampMillis(seconds: int, nanoseconds: Nanoseconds): (ms: int)
    ensures ms * 1_000_000 <= seconds * 1_000_000_000 + nanoseconds < (ms + 1) * 1_000_000
  {
    seconds * 1000 + nanoseconds / 1_000_000
  }

  /**
   * The Admin SDK's `Timestamp.toDate()`: a Date at seconds * 1000 plus the
   * nanoseconds rounded to the nearest millisecond (`Math.round`, halves up).
   */
  function TimestampDateMillis(seconds: int, nanoseconds: Nanoseconds): (ms: int)
    ensures ms * 1_000_000 - 500_000 <= seconds * 1_000_000_000 + nanoseconds < ms * 1_000_000 + 500_000
  {
    seconds * 1000 + (nanoseconds + 500_000) / 1_000_000
  }

  /**
   * The instant of the Date a date field stands for: the Date itself, or the
   * Date returned by `toDate()` (`value instanceof Date ? value : value.toDate()`).
   */
  function Instant(d: DateRepr): int {
    match d
    case JsDate(ms) => ms
    case DateWrapper(ms) => ms
    case Timestamp(s, n) => TimestampDateMillis(s, n)
  }

  /** The stored form of an event document (the `EventData` interface). */
  datatype EventData = EventData(
    title: string,
    description: string,
    date: Option<DateRepr>,
    image: string,
    category: string,
    ownerId: string,
    ownerName: string,
    createdAt: Option<DateRepr>,
    attendeesAmount: int,
    invitees: Option<seq<string>>,
    place: string)

  /** The `Event` class: an event with its document id and resolved dates. */
  datatype Event = Event(
    id: string,
    title: string,
    description: string,
    date: int,
    image: string,
    category: string,
    ownerId: string,
    ownerName: string,
    createdAt: int,
    attendeesAmount: int,
    invitees: seq<string>,
    place: string)

  /** A document snapshot of the `events` collection: it exists exactly when it has data. */
  datatype EventSnapshot = EventSnapshot(id: string, data: Option<EventData>) {
    predicate Exists() { data.Some? }
  }

  /** How an event changed between two snapshots (`'updated' | 'cancelled'`). */
  datatype ChangeType = Updated | Cancelled

  /** The TypeError raised when `.toDate()` is called on a missing date field. */
  const MissingDateError := "Cannot read properties of undefined (reading 'toDate')"

  /**
   * `Event.fromFirestoreData`: copies every field, resolves both dates and
   * replaces a missing invitee list by `[]`; a missing date field makes the
   * `toDate()` call throw.
   */
  function FromFirestoreData(data: EventData, id: string): (r: Result<Event>)
    ensures r.Ok? <==> data.date.Some? && data.createdAt.Some?
    ensures r.Err? ==> r.error == MissingDateError
  {
    if data.date.None? || data.createdAt.None? then Err(MissingDateError)
    else Ok(Event(
      id,
      data.title,
      data.description,
      Instant(data.date.value),
      data.image,
      data.category,
      data.ownerId,
      data.ownerName,
      Instant(data.createdAt.value),
      data.attendeesAmount,
      data.invitees.GetOr([]),
      data.place))
  }

  const NoDataError := "Firestore document has no data"

  /** `Event.fromFirestore`: reads a snapshot, failing when the document has no data. */
  function FromFirestore(doc: EventSnapshot): (r: Result<Event>)
    ensures doc.data.None? ==> r == Err(NoDataError)
  {
    match doc.data
    case None => Err(NoDataError)
    case Some(data) => FromFirestoreData(data, doc.id)
  }

  /** `Event.toFirestore`: every field but the id, dates stored as Dates. */
  function ToFirestore(e: Event): (data: EventData)
  {
    EventData(
      e.title,
      e.description,
      Some(JsDate(e.date)),
      e.image,
      e.category,
      e.ownerId,
      e.ownerName,
      Some(JsDate(e.createdAt)),
      e.attendeesAmount,
      Some(e.invitees),
      e.place)
  }

  /** Writing an event and reading it back under its own id gives the same event. */
  lemma RoundTrip(e: Event)
    ensures FromFirestoreData(ToFirestore(e), e.id) == Ok(e)
  {
  }

  /** `toFirestore` keeps every field of the event and drops nothing but the id. */
  lemma ToFirestoreKeepsFields(e: Event)
    ensures var d := ToFirestore(e);
      && d.title == e.title && d.description == e.description && d.image == e.image
      && d.category == e.category && d.ownerId == e.ownerId && d.ownerName == e.ownerName
      && d.attendeesAmount == e.attendeesAmount && d.place == e.place
      && d.invitees == Some(e.invitees)
      && d.date.Some? && Instant(d.date.value) == e.date
      && d.createdAt.Some? && Instant(d.createdAt.value) == e.createdAt
  {
  }

  /**
   * Reading stored data and writing it back reproduces it field for field, with
   * the two dates equal as instants whatever their stored representation.
   */
  lemma StoredRoundTrip(data: EventData, id: string)
    requires data.date.Some? && data.createdAt.Some?
    ensures FromFirestoreData(data, id).Ok?
    ensures var d := ToFirestore(FromFirestoreData(data, id).value);
      && d.(date := data.date, createdAt := data.createdAt, invitees := data.invitees) == data
      && Instant(d.date.value) == Instant(data.date.value)
      && Instant(d.createdAt.value) == Instant(data.createdAt.value)
      && d.invitees == Some(data.invitees.GetOr([]))
  {
  }

  /** A document without an invitee list is read as an event with no invitees. */
  lemma MissingInviteesAreEmpty(data: EventData, id: string)
    requires data.invitees.None? && data.date.Some? && data.createdAt.Some?
    ensures FromFirestoreData(data, id).Ok? && FromFirestoreData(data, id).value.invitees == []
  {
  }

  /**
   * A Date field is kept as it is; any other representation is resolved through
   * `toDate()`, which for a Timestamp is the nearest millisecond, a half rounding up.
   * So its instant is the floored `toMillis()` or one millisecond later.
   */
  lemma DateResolution(ms: int, seconds: int, nanoseconds: Nanoseconds)
    ensures Instant(JsDate(ms)) == ms && Instant(DateWrapper(ms)) == ms
    ensures Instant(Timestamp(seconds, nanoseconds)) ==
      if nanoseconds % 1_000_000 < 500_000 then TimestampMillis(seconds, nanoseconds)
      else TimestampMillis(seconds, nanoseconds) + 1
  {
  }

  /** `fromFirestore` on an existing snapshot agrees with `fromFirestoreData` on its data and id. */
  lemma FromFirestoreAgrees(doc: EventSnapshot)
    requires doc.Exists()
    ensures FromFirestore(doc) == FromFirestoreData(doc.data.value, doc.id)
  {
  }
}
