/**
 * `EventService`: change detection between two snapshots of an event
 * document, and the event reads and invitee writes the handlers make through
 * the store.
 */
module EventService {
  import opened Wrappers
  import opened Text
  import opened EventModel
  import opened Firestore

  /**
   * `getTime`: the millisecond value of a date field. A Timestamp answers
   * `toMillis()` (the floored millisecond), a `{ toDate }` wrapper the time of
   * its Date, a Date its own time; a missing field has none.
   */
  function GetTime(value: Option<DateRepr>): (t: Option<int>)
    ensures t.None? <==> value.None?
    ensures value.Some? && !value.value.Timestamp? ==> t == Some(Instant(value.value))
  {
    match value
    case None => None
    case Some(Timestamp(s, n)) => Some(TimestampMillis(s, n))
    case Some(DateWrapper(ms)) => Some(ms)
    case Some(JsDate(ms)) => Some(ms)
  }

  /** The fields `detectEventChange` compares. */
  datatype Field = Title | Description | Date | Place | Invitees

  const ImportantFields: seq<Field> := [Title, Description, Date, Place, Invitees]

  /** The array comparison: a different length, or some position holding a different entry. */
  predicate InviteesChanged(before: seq<string>, after: seq<string>) {
    |before| != |after| || exists i :: 0 <= i < |before| && before[i] != after[i]
  }

  /** Position-by-position comparison is sequence inequality. */
  lemma InviteesChangedIff(before: seq<string>, after: seq<string>)
    ensures InviteesChanged(before, after) <==> before != after
  {
    if |before| == |after| && before != after {
      var i :| 0 <= i < |before| && before[i] != after[i];
    }
  }

  /** Whether one important field differs: dates by `getTime`, invitees by content (missing as `[]`), the rest by `!==`. */
  predicate FieldChanged(field: Field, before: EventData, after: EventData) {
    match field
    case Title => before.title != after.title
    case Description => before.description != after.description
    case Date => GetTime(before.date) != GetTime(after.date)
    case Place => before.place != after.place
    case Invitees => InviteesChanged(InviteesOf(before), InviteesOf(after))
  }

  /** `importantFields.some(...)`. */
  predicate AnyChanged(fields: seq<Field>, before: EventData, after: EventData) {
    fields != [] && (FieldChanged(fields[0], before, after) || AnyChanged(fields[1..], before, after))
  }

  /** `detectEventChange`: `cancelled` for a deletion, `updated` when an important field differs, otherwise none. */
  function DetectEventChange(before: EventSnapshot, after: EventSnapshot): Option<ChangeType> {
    if !after.Exists() && before.Exists() then Some(Cancelled)
    else if after.Exists() && before.Exists() && AnyChanged(ImportantFields, before.data.value, after.data.value) then Some(Updated)
    else None
  }

  /** The fields `detectEventChange` looks at agree: same title, description, date time, place and invitees. */
  predicate SameSignificantFields(before: EventData, after: EventData) {
    before.title == after.title && before.description == after.description &&
    GetTime(before.date) == GetTime(after.date) && before.place == after.place &&
    InviteesOf(before) == InviteesOf(after)
  }

  /** The `some` over the five fields is false exactly when they all agree. */
  lemma AnyChangedIff(before: EventData, after: EventData)
    ensures AnyChanged(ImportantFields, before, after) <==> !SameSignificantFields(before, after)
  {
    InviteesChangedIff(InviteesOf(before), InviteesOf(after));
    assert AnyChanged([Invitees], before, after) == FieldChanged(Invitees, before, after) by {
      assert [Invitees][1..] == [];
    }
    assert AnyChanged([Place, Invitees], before, after) ==
      (FieldChanged(Place, before, after) || AnyChanged([Invitees], before, after)) by {
      assert [Place, Invitees][1..] == [Invitees];
    }
    assert AnyChanged([Date, Place, Invitees], before, after) ==
      (FieldChanged(Date, before, after) || AnyChanged([Place, Invitees], before, after)) by {
      assert [Date, Place, Invitees][1..] == [Place, Invitees];
    }
    assert AnyChanged([Description, Date, Place, Invitees], before, after) ==
      (FieldChanged(Description, before, after) || AnyChanged([Date, Place, Invitees], before, after)) by {
      assert [Description, Date, Place, Invitees][1..] == [Date, Place, Invitees];
    }
    assert AnyChanged(ImportantFields, before, after) ==
      (FieldChanged(Title, before, after) || AnyChanged([Description, Date, Place, Invitees], before, after)) by {
      assert ImportantFields[1..] == [Description, Date, Place, Invitees];
    }
  }

  /** `cancelled` exactly when the document was deleted, whatever either version held. */
  lemma CancelledIffDeleted(before: EventSnapshot, after: EventSnapshot)
    ensures DetectEventChange(before, after) == Some(Cancelled) <==> !after.Exists() && before.Exists()
  {
  }

  /** A creation, and a pair of absent snapshots, are no change. */
  lemma CreationIsNoChange(before: EventSnapshot, after: EventSnapshot)
    requires !before.Exists()
    ensures DetectEventChange(before, after) == None
  {
  }

  /** With both versions present the result is `updated` exactly when a significant field differs, and none otherwise. */
  lemma UpdatedIffSignificantChange(before: EventSnapshot, after: EventSnapshot)
    requires before.Exists() && after.Exists()
    ensures DetectEventChange(before, after) == Some(Updated) <==> !SameSignificantFields(before.data.value, after.data.value)
    ensures DetectEventChange(before, after) == None <==> SameSignificantFields(before.data.value, after.data.value)
  {
    AnyChangedIff(before.data.value, after.data.value);
  }

  /** Exchanging two distinct invitees is a change, even though the set of invitees is the same. */
  lemma ReorderedInviteesAreUpdate(before: EventSnapshot, after: EventSnapshot, x: string, y: string)
    requires before.Exists() && after.Exists() && x != y
    requires before.data.value.invitees == Some([x, y]) && after.data.value.invitees == Some([y, x])
    ensures DetectEventChange(before, after) == Some(Updated)
  {
    UpdatedIffSignificantChange(before, after);
    assert InviteesOf(before.data.value)[0] != InviteesOf(after.data.value)[0];
  }

  /** A missing invitee list compares as `[]`. */
  lemma MissingInviteesCompareAsEmpty(before: EventSnapshot, after: EventSnapshot)
    requires before.Exists() && after.Exists()
    requires after.data.value == before.data.value.(invitees := None)
    requires before.data.value.invitees == Some([])
    ensures DetectEventChange(before, after) == None
  {
    UpdatedIffSignificantChange(before, after);
  }

  /** A Date, a `{ toDate }` wrapper and a Timestamp for the same whole millisecond have the same time. */
  lemma SameInstantSameTime(ms: int, seconds: int, nanoseconds: Nanoseconds)
    requires nanoseconds % 1_000_000 == 0 && ms == seconds * 1000 + nanoseconds / 1_000_000
    ensures GetTime(Some(JsDate(ms))) == GetTime(Some(DateWrapper(ms))) == GetTime(Some(Timestamp(seconds, nanoseconds)))
  {
  }

  /**
   * A Timestamp's `toMillis()` is the time of its own `toDate()` exactly when
   * its sub-millisecond part is below half a millisecond.
   */
  lemma TimestampTimeIsDateTimeIff(seconds: int, nanoseconds: Nanoseconds)
    ensures GetTime(Some(Timestamp(seconds, nanoseconds))) == GetTime(Some(JsDate(Instant(Timestamp(seconds, nanoseconds)))))
      <==> nanoseconds % 1_000_000 < 500_000
  {
    DateResolution(0, seconds, nanoseconds);
  }

  /**
   * `getTime` floors a Timestamp to the millisecond, so moving the date within
   * one millisecond is no change, and moving it across one is an update.
   */
  lemma SubMillisecondMoveIff(before: EventSnapshot, after: EventSnapshot, seconds: int, n1: Nanoseconds, n2: Nanoseconds)
    requires before.Exists() && after.Exists()
    requires before.data.value.date == Some(Timestamp(seconds, n1))
    requires after.data.value == before.data.value.(date := Some(Timestamp(seconds, n2)))
    ensures DetectEventChange(before, after) == None <==> n1 / 1_000_000 == n2 / 1_000_000
    ensures DetectEventChange(before, after) != None ==> DetectEventChange(before, after) == Some(Updated)
  {
    UpdatedIffSignificantChange(before, after);
  }

  /**
   * A move from just below to just at half a millisecond is not reported,
   * although the event read through `toDate()` now falls one millisecond later.
   */
  lemma UnreportedHalfMillisecondMove(before: EventSnapshot, after: EventSnapshot, seconds: int)
    requires before.Exists() && after.Exists()
    requires before.data.value.date == Some(Timestamp(seconds, 499_999))
    requires after.data.value == before.data.value.(date := Some(Timestamp(seconds, 500_000)))
    ensures DetectEventChange(before, after) == None
    ensures Instant(after.data.value.date.value) == Instant(before.data.value.date.value) + 1
  {
    SubMillisecondMoveIff(before, after, seconds, 499_999, 500_000);
  }

  /** Image, category, attendee count, owner and creation date never make an update. */
  lemma OtherFieldsIgnored(before: EventSnapshot, after: EventSnapshot,
      image: string, category: string, ownerId: string, ownerName: string,
      createdAt: Option<DateRepr>, attendeesAmount: int)
    requires before.Exists() && after.Exists()
    requires after.data.value == before.data.value.(image := image, category := category, ownerId := ownerId,
      ownerName := ownerName, createdAt := createdAt, attendeesAmount := attendeesAmount)
    ensures DetectEventChange(before, after) == None
  {
    UpdatedIffSignificantChange(before, after);
  }

  const GetEventFailure := "Failed to get event: "
  const AddInviteeFailure := "Failed to add invitee: "

  /** `getEventById`: the stored event, none when it does not exist; store and conversion failures are rethrown wrapped. */
  method GetEventById(store: FirestoreClient, eventId: string) returns (r: Result<Option<Event>>)
    ensures r.Err? <==> (eventId in store.unavailable ||
      (eventId in store.events && FromFirestoreData(store.events[eventId], eventId).Err?))
    ensures r.Err? ==> GetEventFailure <= r.error
    ensures r == Ok(None) <==> eventId !in store.unavailable && eventId !in store.events
    ensures r.Ok? && r.value.Some? ==>
      eventId in store.events && Ok(r.value.value) == FromFirestoreData(store.events[eventId], eventId)
  {
    var eventDoc := store.GetEventDocument(eventId);
    if eventDoc.Err? {
      return Err(Rethrown(GetEventFailure, eventDoc.error));
    }
    if eventDoc.value.None? {
      return Ok(None);
    }
    var event := FromFirestoreData(eventDoc.value.value, eventId);
    if event.Err? {
      // the cause is a TypeError
      return Err(GetEventFailure + "TypeError: " + event.error);
    }
    r := Ok(Some(event.value));
  }

  /** `addInviteeToEvent`: forwards the lower-cased, trimmed address to the store; failures are rethrown wrapped. */
  method AddInviteeToEvent(store: FirestoreClient, eventId: string, email: string) returns (r: Result<Unit>)
    modifies store
    ensures r.Ok? <==> eventId !in old(store.unavailable) && eventId in old(store.events)
    ensures r.Err? ==> AddInviteeFailure <= r.error
    ensures store.events == if r.Ok? then InviteeAdded(old(store.events), eventId, NormalizeEmail(email)) else old(store.events)
    ensures store.userConfigurations == old(store.userConfigurations) && store.unavailable == old(store.unavailable)
  {
    var normalizedEmail := NormalizeEmail(email);
    var added := store.AddInviteeToEvent(eventId, normalizedEmail);
    // the store normalises again, which changes nothing
    NormalizeIdempotent(email);
    if added.Err? {
      return Err(Rethrown(AddInviteeFailure, added.error));
    }
    r := Ok(());
  }

  /** `isEmailAlreadyInvited`: exact, case-sensitive membership in the stored invitees; a missing event is an error. */
  method IsEmailAlreadyInvited(store: FirestoreClient, eventId: string, email: string) returns (r: Result<bool>)
    ensures eventId !in store.unavailable && eventId !in store.events ==> r == Err(EventNotFound)
    ensures r.Err? && !(eventId !in store.unavailable && eventId !in store.events) ==> GetEventFailure <= r.error
    ensures r.Ok? <==> (eventId !in store.unavailable && eventId in store.events &&
      FromFirestoreData(store.events[eventId], eventId).Ok?)
    ensures r.Ok? ==> (r.value <==> email in InviteesOf(store.events[eventId]))
  {
    var event := GetEventById(store, eventId);
    if event.Err? {
      return Err(event.error);
    }
    if event.value.None? {
      return Err(EventNotFound);
    }
    r := Ok(email in event.value.value.invitees);
  }

  /** `getEventInvitees`: the stored invitee list, `[]` when the field is missing; a missing event is an error. */
  method GetEventInvitees(store: FirestoreClient, eventId: string) returns (r: Result<seq<string>>)
    ensures eventId !in store.unavailable && eventId !in store.events ==> r == Err(EventNotFound)
    ensures r.Err? && !(eventId !in store.unavailable && eventId !in store.events) ==> GetEventFailure <= r.error
    ensures r.Ok? <==> (eventId !in store.unavailable && eventId in store.events &&
      FromFirestoreData(store.events[eventId], eventId).Ok?)
    ensures r.Ok? ==> r.value == InviteesOf(store.events[eventId])
  {
    var event := GetEventById(store, eventId);
    if event.Err? {
      return Err(event.error);
    }
    if event.value.None? {
      return Err(EventNotFound);
    }
    r := Ok(event.value.value.invitees);
  }
}
