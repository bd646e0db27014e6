/**
 * `FirestoreClient` over an in-memory store: the `events` collection as a map
 * from document id to stored data, the `userConfigurations` collection as a
 * sequence of documents in an abstract store order (queries return their
 * matches in that order, and a new document goes at the end), and the set of
 * keys (document ids or queried emails) whose reads fail, standing for an
 * unreachable backend.
 */
module Firestore {
  import opened Wrappers
  import opened Text
  import opened EventModel
  import opened UserConfigurationModel

  /** A document of the `userConfigurations` collection. */
  datatype StoredUser = StoredUser(id: string, data: UserConfigurationData)

  /** The result of `where('email', '==', email)`: matching documents in store order. */
  function WithEmail(docs: seq<StoredUser>, email: string): (r: seq<StoredUser>)
    ensures forall d :: d in r <==> d in docs && d.data.email == email
    ensures |r| <= |docs|
  {
    if |docs| == 0 then []
    else (if docs[0].data.email == email then [docs[0]] else []) + WithEmail(docs[1..], email)
  }

  /** The result of `where('email', 'in', batch)`: documents whose email is one of `batch`, in store order. */
  function WithEmailIn(docs: seq<StoredUser>, batch: seq<string>): (r: seq<StoredUser>)
    ensures forall d :: d in r <==> d in docs && d.data.email in batch
  {
    if |docs| == 0 then []
    else (if docs[0].data.email in batch then [docs[0]] else []) + WithEmailIn(docs[1..], batch)
  }

  /** The first document, in store order, whose email is exactly `email`. */
  function FirstWithEmail(docs: seq<StoredUser>, email: string): (r: Option<StoredUser>)
    ensures r.None? <==> forall k :: 0 <= k < |docs| ==> docs[k].data.email != email
    ensures r.Some? ==> r.value in docs && r.value.data.email == email
  {
    if |docs| == 0 then None
    else if docs[0].data.email == email then Some(docs[0])
    else FirstWithEmail(docs[1..], email)
  }

  /** The document `FirstWithEmail` returns comes before every other match. */
  lemma {:induction false} FirstWithEmailIsFirst(docs: seq<StoredUser>, email: string) returns (k: nat)
    requires FirstWithEmail(docs, email).Some?
    ensures k < |docs| && docs[k] == FirstWithEmail(docs, email).value
    ensures forall j :: 0 <= j < k ==> docs[j].data.email != email
  {
    if docs[0].data.email == email {
      k := 0;
    } else {
      var k' := FirstWithEmailIsFirst(docs[1..], email);
      k := k' + 1;
    }
  }

  /** The head of the equality query is the first match. */
  lemma {:induction false} HeadOfQueryIsFirst(docs: seq<StoredUser>, email: string)
    ensures var m := WithEmail(docs, email);
      FirstWithEmail(docs, email) == if |m| > 0 then Some(m[0]) else None
  {
    if |docs| > 0 {
      HeadOfQueryIsFirst(docs[1..], email);
      var rest := WithEmail(docs[1..], email);
      if docs[0].data.email == email {
        assert WithEmail(docs, email) == [docs[0]] + rest;
      } else {
        assert WithEmail(docs, email) == [] + rest;
      }
    }
  }

  /** The invitee list of stored event data; a missing list reads as `[]`. */
  function InviteesOf(d: EventData): seq<string> {
    d.invitees.GetOr([])
  }

  /** The event data after adding `email` to its invitees unless it is already there. */
  function WithInvitee(d: EventData, email: string): (r: EventData)
    ensures InviteesOf(r) == InviteesOf(d) + (if email in InviteesOf(d) then [] else [email])
    ensures r.(invitees := d.invitees) == d
    ensures email in InviteesOf(d) ==> r == d
  {
    if email in InviteesOf(d) then d else d.(invitees := Some(InviteesOf(d) + [email]))
  }

  /** The `events` collection after adding `email` to the invitees of event `id`. */
  function InviteeAdded(events: map<string, EventData>, id: string, email: string): (r: map<string, EventData>)
    requires id in events
    ensures r.Keys == events.Keys
    ensures forall k :: k in events && k != id ==> r[k] == events[k]
  {
    events[id := WithInvitee(events[id], email)]
  }

  predicate Distinct(s: seq<string>) {
    forall i, j :: 0 <= i < j < |s| ==> s[i] != s[j]
  }

  /** Adding the same invitee twice leaves the store as adding it once. */
  lemma InviteeAddedIdempotent(events: map<string, EventData>, id: string, email: string)
    requires id in events
    ensures InviteeAdded(InviteeAdded(events, id, email), id, email) == InviteeAdded(events, id, email)
  {
  }

  /** Adding an invitee keeps an invitee list free of duplicates, and the new address occurs exactly once. */
  lemma WithInviteeKeepsDistinct(d: EventData, email: string)
    requires Distinct(InviteesOf(d))
    ensures Distinct(InviteesOf(WithInvitee(d, email)))
    ensures multiset(InviteesOf(WithInvitee(d, email)))[email] == 1
  {
    var s := InviteesOf(d);
    if email !in s {
      assert multiset(s)[email] == 0;
    } else {
      DistinctCountsOnce(s, email);
    }
  }

  lemma {:induction false} DistinctCountsOnce(s: seq<string>, x: string)
    requires Distinct(s) && x in s
    ensures multiset(s)[x] == 1
    decreases |s|
  {
    assert s == [s[0]] + s[1..];
    if s[0] == x {
      assert x !in s[1..] by {
        forall k | 0 <= k < |s[1..]| ensures s[1..][k] != x {
          assert s[1..][k] == s[k + 1];
        }
      }
      assert multiset(s[1..])[x] == 0;
    } else {
      assert Distinct(s[1..]) by {
        forall i, j | 0 <= i < j < |s[1..]| ensures s[1..][i] != s[1..][j] {
          assert s[1..][i] == s[i + 1] && s[1..][j] == s[j + 1];
        }
      }
      DistinctCountsOnce(s[1..], x);
    }
  }

  /** `doc(id).set(data)`: replaces the document with that id, or adds it at the end of the store order. */
  function Upsert(docs: seq<StoredUser>, id: string, data: UserConfigurationData): (r: seq<StoredUser>)
    ensures StoredUser(id, data) in r
    ensures forall d :: d in docs && d.id != id ==> d in r
    ensures forall d :: d in r ==> d == StoredUser(id, data) || (d in docs && d.id != id)
  {
    if exists k :: 0 <= k < |docs| && docs[k].id == id then
      var r := seq(|docs|, k requires 0 <= k < |docs| => if docs[k].id == id then StoredUser(id, data) else docs[k]);
      assert StoredUser(id, data) in r by {
        var k :| 0 <= k < |docs| && docs[k].id == id;
        assert r[k] == StoredUser(id, data);
      }
      assert forall d :: d in docs && d.id != id ==> d in r by {
        forall d | d in docs && d.id != id ensures d in r {
          var k :| 0 <= k < |docs| && docs[k] == d;
          assert r[k] == d;
        }
      }
      r
    else docs + [StoredUser(id, data)]
  }

  const EventNotFound := "Event not found"
  const Unavailable := "the store could not be reached"

  class FirestoreClient {
    var events: map<string, EventData>
    var userConfigurations: seq<StoredUser>
    var unavailable: set<string>

    constructor (events: map<string, EventData>, userConfigurations: seq<StoredUser>, unavailable: set<string>)
      ensures this.events == events && this.userConfigurations == userConfigurations
      ensures this.unavailable == unavailable
    {
      this.events := events;
      this.userConfigurations := userConfigurations;
      this.unavailable := unavailable;
    }

    /** `getDocument('events', id)`: the stored data, or null exactly when the document does not exist. */
    method GetEventDocument(id: string) returns (r: Result<Option<EventData>>)
      ensures r.Err? <==> id in unavailable
      ensures r.Ok? ==> (r.value.None? <==> id !in events)
      ensures r.Ok? && r.value.Some? ==> id in events && r.value.value == events[id]
    {
      if id in unavailable {
        return Err(Unavailable);
      }
      if id in events {
        r := Ok(Some(events[id]));
      } else {
        r := Ok(None);
      }
    }

    /**
     * `createDocument('userConfigurations', data, id)`: stores under the given id
     * when one is given (a non-empty string), otherwise under the id the store
     * generates, `autoId`, which no stored document has; returns the id used.
     * A given id may replace a stored document, a generated one never does.
     */
    method CreateUserConfigurationDocument(data: UserConfigurationData, id: Option<string>, autoId: string)
      returns (newId: string)
      requires !(id.Some? && id.value != "") ==> forall d :: d in userConfigurations ==> d.id != autoId
      modifies this
      ensures !(id.Some? && id.value != "") ==> userConfigurations == old(userConfigurations) + [StoredUser(autoId, data)]
      ensures newId == (if id.Some? && id.value != "" then id.value else autoId)
      ensures userConfigurations == Upsert(old(userConfigurations), newId, data)
      ensures events == old(events) && unavailable == old(unavailable)
    {
      if id.Some? && id.value != "" {
        newId := id.value;
      } else {
        newId := autoId;
      }
      userConfigurations := Upsert(userConfigurations, newId, data);
    }

    /**
     * `addInviteeToEvent`: a read-modify-write of the event's invitee list that
     * appends the normalised address only when it is absent.
     */
    method AddInviteeToEvent(eventId: string, email: string) returns (r: Result<Unit>)
      modifies this
      ensures r.Ok? <==> eventId !in old(unavailable) && eventId in old(events)
      ensures r.Err? && eventId !in old(unavailable) ==> r.error == EventNotFound
      ensures events == if r.Ok? then InviteeAdded(old(events), eventId, NormalizeEmail(email)) else old(events)
      ensures userConfigurations == old(userConfigurations) && unavailable == old(unavailable)
    {
      var normalizedEmail := NormalizeEmail(email);
      var eventDoc := GetEventDocument(eventId);
      if eventDoc.Err? {
        return Err(eventDoc.error);
      }
      if eventDoc.value.None? {
        return Err(EventNotFound);
      }
      var currentInvitees := InviteesOf(eventDoc.value.value);
      if normalizedEmail !in currentInvitees {
        var updatedInvitees := currentInvitees + [normalizedEmail];
        events := events[eventId := events[eventId].(invitees := Some(updatedInvitees))];
      }
      r := Ok(());
    }

    /** `queryDocuments('userConfigurations', 'email', '==', email)`. */
    method QueryByEmail(email: string) returns (r: Result<seq<StoredUser>>)
      ensures r.Err? <==> email in unavailable
      ensures r.Ok? ==> r.value == WithEmail(userConfigurations, email)
    {
      if email in unavailable {
        return Err(Unavailable);
      }
      r := Ok(WithEmail(userConfigurations, email));
    }

    /** `where('email', 'in', batch).get()` on `userConfigurations`; fails if any queried email is unreachable. */
    method QueryByEmailIn(batch: seq<string>) returns (r: Result<seq<StoredUser>>)
      ensures r.Err? <==> exists e :: e in batch && e in unavailable
      ensures r.Ok? ==> r.value == WithEmailIn(userConfigurations, batch)
    {
      if exists e :: e in batch && e in unavailable {
        return Err(Unavailable);
      }
      r := Ok(WithEmailIn(userConfigurations, batch));
    }

    /** `getUserByEmail`: the first document whose email equals the argument exactly, or null. */
    method GetUserByEmail(email: string) returns (r: Result<Option<StoredUser>>)
      ensures r.Err? <==> email in unavailable
      ensures r.Ok? ==> r.value == FirstWithEmail(userConfigurations, email)
    {
      var docs := QueryByEmail(email);
      if docs.Err? {
        return Err(docs.error);
      }
      HeadOfQueryIsFirst(userConfigurations, email);
      r := Ok(if |docs.value| > 0 then Some(docs.value[0]) else None);
    }
  }
}
