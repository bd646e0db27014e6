/** `NotificationService`: device-token collection in query batches, and the three push kinds. */
module NotificationService {
  import opened Wrappers
  import opened Text
  import opened EventModel
  import opened UserConfigurationModel
  import opened Firestore
  import opened Messaging

  /** The most emails a `where('email', 'in', batch)` query is given. */
  const BatchSize := 10

  function Min(a: int, b: int): int {
    if a <= b then a else b
  }

  /** The slices `emails.slice(i, i + 10)` the loop queries, from index `i` on. */
  function BatchesFrom(emails: seq<string>, i: nat): (batches: seq<seq<string>>)
    decreases |emails| - i
  {
    if i >= |emails| then []
    else [emails[i..Min(i + BatchSize, |emails|)]] + BatchesFrom(emails, i + BatchSize)
  }

  function Flatten(batches: seq<seq<string>>): seq<string> {
    if |batches| == 0 then [] else batches[0] + Flatten(batches[1..])
  }

  /** The batches are consecutive slices of 1 to 10 emails: together they are the input, each index exactly once. */
  lemma {:induction false} BatchesCover(emails: seq<string>, i: nat)
    requires i <= |emails|
    ensures Flatten(BatchesFrom(emails, i)) == emails[i..]
    ensures forall k :: 0 <= k < |BatchesFrom(emails, i)| ==> 1 <= |BatchesFrom(emails, i)[k]| <= BatchSize
    decreases |emails| - i
  {
    if i < |emails| {
      var j := Min(i + BatchSize, |emails|);
      var bs := BatchesFrom(emails, i);
      assert bs[1..] == BatchesFrom(emails, i + BatchSize);
      if i + BatchSize <= |emails| {
        BatchesCover(emails, i + BatchSize);
      } else {
        assert BatchesFrom(emails, i + BatchSize) == [];
      }
      assert emails[i..] == emails[i..j] + emails[j..];
    }
  }

  /**
   * The test a queried configuration must pass for its token to be collected:
   * notifications on, a non-empty token, and the multicast filter's test of
   * trimmed length at least 20.
   */
  predicate Collectible(d: UserConfigurationData) {
    d.isEnableNotifications && d.deviceToken.Some? && d.deviceToken.value != "" && MulticastTokenAccepted(d.deviceToken.value)
  }

  /**
   * The tokens of the documents whose data passes `accept`, untrimmed, in
   * query order; `accept` is `Collectible` in the service, and the lemmas
   * below hold for any test.
   */
  function DocTokens(docs: seq<StoredUser>, accept: UserConfigurationData -> bool): (tokens: seq<string>)
    ensures |tokens| <= |docs|
  {
    if |docs| == 0 then []
    else
      var last := docs[|docs| - 1];
      DocTokens(docs[..|docs| - 1], accept)
        + if last.data.deviceToken.Some? && accept(last.data) then [last.data.deviceToken.value] else []
  }

  /** Some document passes `accept` and carries the token `t`. */
  ghost predicate Carries(docs: seq<StoredUser>, accept: UserConfigurationData -> bool, t: string) {
    exists d :: d in docs && accept(d.data) && d.data.deviceToken == Some(t)
  }

  /** A token is contributed iff an accepted document carries it. */
  lemma {:induction false} DocTokensMembers(docs: seq<StoredUser>, accept: UserConfigurationData -> bool, t: string)
    ensures t in DocTokens(docs, accept) <==> Carries(docs, accept, t)
  {
    if |docs| > 0 {
      var init := docs[..|docs| - 1];
      var last := docs[|docs| - 1];
      DocTokensMembers(init, accept, t);
      assert docs == init + [last];
      if Carries(docs, accept, t) {
        var d :| d in docs && accept(d.data) && d.data.deviceToken == Some(t);
        assert d in init || d == last;
      }
      if Carries(init, accept, t) {
        var d :| d in init && accept(d.data) && d.data.deviceToken == Some(t);
        assert d in docs;
      }
    }
  }

  /** The tokens collected over the given batches, against the store's `userConfigurations`. */
  function Collected(users: seq<StoredUser>, batches: seq<seq<string>>, accept: UserConfigurationData -> bool): seq<string> {
    if |batches| == 0 then [] else DocTokens(WithEmailIn(users, batches[0]), accept) + Collected(users, batches[1..], accept)
  }

  /** What `getDeviceTokensFromEmails` returns when every query succeeds. */
  function CollectedTokens(users: seq<StoredUser>, emails: seq<string>): seq<string> {
    Collected(users, BatchesFrom(emails, 0), Collectible)
  }

  /** Some account with an email in `emails` passes `accept` and has the token `t`. */
  ghost predicate TokenOf(users: seq<StoredUser>, emails: seq<string>, accept: UserConfigurationData -> bool, t: string) {
    exists d :: d in users && accept(d.data) && d.data.deviceToken == Some(t) && d.data.email in emails
  }

  lemma TokenOfBatch(users: seq<StoredUser>, batch: seq<string>, accept: UserConfigurationData -> bool, t: string)
    ensures t in DocTokens(WithEmailIn(users, batch), accept) <==> TokenOf(users, batch, accept, t)
  {
    var docs := WithEmailIn(users, batch);
    DocTokensMembers(docs, accept, t);
    if Carries(docs, accept, t) {
      var d :| d in docs && accept(d.data) && d.data.deviceToken == Some(t);
      assert d in users && d.data.email in batch;
    }
    if TokenOf(users, batch, accept, t) {
      var d :| d in users && accept(d.data) && d.data.deviceToken == Some(t) && d.data.email in batch;
      assert d in docs;
    }
  }

  lemma TokenOfSplit(users: seq<StoredUser>, a: seq<string>, b: seq<string>, accept: UserConfigurationData -> bool, t: string)
    ensures TokenOf(users, a + b, accept, t) <==> TokenOf(users, a, accept, t) || TokenOf(users, b, accept, t)
  {
    if TokenOf(users, a + b, accept, t) {
      var d :| d in users && accept(d.data) && d.data.deviceToken == Some(t) && d.data.email in a + b;
      assert d.data.email in a || d.data.email in b;
    }
    if TokenOf(users, a, accept, t) {
      var d :| d in users && accept(d.data) && d.data.deviceToken == Some(t) && d.data.email in a;
      assert d.data.email in a + b;
    }
    if TokenOf(users, b, accept, t) {
      var d :| d in users && accept(d.data) && d.data.deviceToken == Some(t) && d.data.email in b;
      assert d.data.email in a + b;
    }
  }

  /** One step of the batch loop: the batch at `i` followed by the rest. */
  lemma CollectedStep(users: seq<StoredUser>, emails: seq<string>, i: nat, accept: UserConfigurationData -> bool)
    requires i < |emails|
    ensures Collected(users, BatchesFrom(emails, i), accept) ==
      DocTokens(WithEmailIn(users, emails[i..Min(i + BatchSize, |emails|)]), accept)
        + Collected(users, BatchesFrom(emails, i + BatchSize), accept)
  {
    assert BatchesFrom(emails, i)[1..] == BatchesFrom(emails, i + BatchSize);
  }

  /** A token is collected over some batches iff an accepted account with an email in one of them has it. */
  lemma {:induction false} CollectedMembers(users: seq<StoredUser>, batches: seq<seq<string>>, accept: UserConfigurationData -> bool, t: string)
    ensures t in Collected(users, batches, accept) <==> TokenOf(users, Flatten(batches), accept, t)
  {
    if |batches| > 0 {
      CollectedMembers(users, batches[1..], accept, t);
      TokenOfBatch(users, batches[0], accept, t);
      TokenOfSplit(users, batches[0], Flatten(batches[1..]), accept, t);
    }
  }

  /** A token is collected iff an account with one of the emails has notifications on and that valid token. */
  lemma CollectedTokensMembers(users: seq<StoredUser>, emails: seq<string>, t: string)
    ensures t in CollectedTokens(users, emails) <==>
      exists d :: d in users && Collectible(d.data) && d.data.deviceToken == Some(t) && d.data.email in emails
  {
    CollectedMembers(users, BatchesFrom(emails, 0), Collectible, t);
    BatchesCover(emails, 0);
    assert emails[0..] == emails;
  }

  /** No email, no token. */
  lemma NoEmailsNoTokens(users: seq<StoredUser>)
    ensures CollectedTokens(users, []) == []
  {
  }

  /** The `docs.forEach` of one batch: pushes each collectible token in store order. */
  method BatchTokens(docs: seq<StoredUser>) returns (found: seq<string>)
    ensures found == DocTokens(docs, Collectible)
  {
    found := [];
    var n := 0;
    while n < |docs|
      invariant 0 <= n <= |docs|
      invariant found == DocTokens(docs[..n], Collectible)
    {
      var data := docs[n].data;
      if data.deviceToken.Some? && Collectible(data) {
        found := found + [data.deviceToken.value];
      }
      assert docs[..n + 1][..n] == docs[..n];
      n := n + 1;
    }
    assert docs[..n] == docs;
  }

  /** The loop invariant survives appending the batch at `i`. */
  lemma CollectedAdvance(users: seq<StoredUser>, emails: seq<string>, i: nat, tokens: seq<string>, found: seq<string>)
    requires i < |emails|
    requires CollectedTokens(users, emails) == tokens + Collected(users, BatchesFrom(emails, i), Collectible)
    requires found == DocTokens(WithEmailIn(users, emails[i..Min(i + BatchSize, |emails|)]), Collectible)
    ensures CollectedTokens(users, emails) == (tokens + found) + Collected(users, BatchesFrom(emails, i + BatchSize), Collectible)
  {
    CollectedStep(users, emails, i, Collectible);
  }

  /** One iteration of the batch loop: the `in` query for the slice at `i` and the tokens its documents give. */
  method CollectBatch(store: FirestoreClient, emails: seq<string>, i: nat) returns (r: Option<seq<string>>)
    requires i < |emails|
    ensures r.None? <==> exists k :: i <= k < Min(i + BatchSize, |emails|) && emails[k] in store.unavailable
    ensures r.Some? ==> r.value == DocTokens(WithEmailIn(store.userConfigurations, emails[i..Min(i + BatchSize, |emails|)]), Collectible)
  {
    var end := Min(i + BatchSize, |emails|);
    var batch := emails[i..end];
    var docs := store.QueryByEmailIn(batch);
    if docs.Err? {
      var e :| e in batch && e in store.unavailable;
      var j :| 0 <= j < |batch| && batch[j] == e;
      assert emails[i + j] == e;
      return None;
    }
    assert forall k :: i <= k < end ==> emails[k] == batch[k - i];
    var found := BatchTokens(docs.value);
    r := Some(found);
  }

  /**
   * `getDeviceTokensFromEmails`: queries the emails ten at a time and keeps
   * the collectible tokens; a failed query discards everything and yields `[]`.
   */
  method GetDeviceTokensFromEmails(store: FirestoreClient, inviteeEmails: seq<string>) returns (tokens: seq<string>)
    ensures (exists k :: 0 <= k < |inviteeEmails| && inviteeEmails[k] in store.unavailable) ==> tokens == []
    ensures (forall k :: 0 <= k < |inviteeEmails| ==> inviteeEmails[k] !in store.unavailable) ==>
      tokens == CollectedTokens(store.userConfigurations, inviteeEmails)
  {
    if |inviteeEmails| == 0 {
      return [];
    }
    tokens := [];
    var i := 0;
    while i < |inviteeEmails|
      invariant 0 <= i
      invariant forall k :: 0 <= k < i && k < |inviteeEmails| ==> inviteeEmails[k] !in store.unavailable
      invariant CollectedTokens(store.userConfigurations, inviteeEmails)
        == tokens + Collected(store.userConfigurations, BatchesFrom(inviteeEmails, i), Collectible)
      decreases |inviteeEmails| - i
    {
      var found := CollectBatch(store, inviteeEmails, i);
      if found.None? {
        return [];
      }
      CollectedAdvance(store.userConfigurations, inviteeEmails, i, tokens, found.value);
      tokens := tokens + found.value;
      i := i + BatchSize;
    }
    assert BatchesFrom(inviteeEmails, i) == [];
  }

  /** What `getDeviceTokensFromEmails` returns: `[]` when a lookup fails, the collected tokens otherwise. */
  function TokensFor(users: seq<StoredUser>, unavailable: set<string>, emails: seq<string>): seq<string> {
    if exists k :: 0 <= k < |emails| && emails[k] in unavailable then []
    else CollectedTokens(users, emails)
  }

  /** The three push notifications the service sends. */
  datatype PushKind = EventUpdated | EventCancelled | EventInvitation

  function PushTitle(kind: PushKind): string {
    match kind
    case EventUpdated => "📅 Event Updated"
    case EventCancelled => "❌ Event Cancelled"
    case EventInvitation => "📩 New Event Invitation"
  }

  function PushBody(kind: PushKind, eventTitle: string): string {
    match kind
    case EventUpdated => "The event \"" + eventTitle + "\" has been updated"
    case EventCancelled => "The event \"" + eventTitle + "\" has been cancelled"
    case EventInvitation => "You have been invited to \"" + eventTitle + "\""
  }

  /** The payload `type` a client uses to tell the kinds apart. */
  function PushType(kind: PushKind): string {
    match kind
    case EventUpdated => "event_updated"
    case EventCancelled => "event_cancelled"
    case EventInvitation => "event_invitation"
  }

  function Payload(kind: PushKind, event: Event): map<string, Scalar> {
    map["type" := Str(PushType(kind)), "eventId" := Str(event.id), "eventTitle" := Str(event.title)]
  }

  /** The multicast a `notify*` method asks for, if any: none on an empty token list. */
  function Notification(kind: PushKind, tokens: seq<string>, event: Event, now: string): (r: seq<PushMessage>)
    ensures |tokens| == 0 ==> r == []
  {
    if |tokens| == 0 then []
    else MulticastAttempt(tokens, PushTitle(kind), PushBody(kind, event.title), Payload(kind, event), now)
  }

  /** A kind's payload type names that kind and no other. */
  lemma PushTypeInjective(k1: PushKind, k2: PushKind)
    ensures PushType(k1) == PushType(k2) <==> k1 == k2
  {
    if k1 != k2 {
      assert PushType(k1)[6] != PushType(k2)[6] || |PushType(k1)| != |PushType(k2)|;
    }
  }

  /** With at least one valid token, a `notify*` call is one multicast to the valid tokens. */
  lemma NotificationIsOneMulticast(kind: PushKind, tokens: seq<string>, event: Event, now: string)
    requires ValidTokens(tokens) != []
    ensures Notification(kind, tokens, event, now) ==
      [ToDevices(ValidTokens(tokens), MessageData(PushTitle(kind), PushBody(kind, event.title), Payload(kind, event), now))]
  {
  }

  /** The message carries the kind's title, the body naming the event, its type, id and title, and the timestamp. */
  lemma NotificationData(kind: PushKind, event: Event, now: string)
    ensures var data := MessageData(PushTitle(kind), PushBody(kind, event.title), Payload(kind, event), now);
      data.Keys == {"title", "body", "type", "eventId", "eventTitle", TimestampKey} &&
      data["title"] == PushTitle(kind) && data["body"] == PushBody(kind, event.title) &&
      data["type"] == PushType(kind) && data["eventId"] == event.id && data["eventTitle"] == event.title &&
      data[TimestampKey] == now
  {
    var payload := Payload(kind, event);
    assert "title" !in payload && "body" !in payload;
    StringifiedValues(payload, now);
    MessageDataOverrides(PushTitle(kind), PushBody(kind, event.title), payload, now);
  }

  /** A `notify*` push is a multicast of the kind's payload type to tokens of the given list. */
  lemma NotificationShape(kind: PushKind, tokens: seq<string>, event: Event, now: string, m: PushMessage)
    requires m in Notification(kind, tokens, event, now)
    ensures m.ToDevices? && m.data["type"] == PushType(kind)
    ensures forall t :: t in m.tokens ==> t in tokens
  {
    MulticastAttemptShape(tokens, PushTitle(kind), PushBody(kind, event.title), Payload(kind, event), now, m);
    NotificationData(kind, event, now);
  }

  /** `notifyEventUpdated`. */
  method NotifyEventUpdated(client: NotificationClient, tokens: seq<string>, event: Event, now: string)
    modifies client
    ensures client.sent == old(client.sent) + Notification(EventUpdated, tokens, event, now)
  {
    if |tokens| == 0 {
      return;
    }
    client.SendToMultipleDevices(tokens, PushTitle(EventUpdated), PushBody(EventUpdated, event.title), Payload(EventUpdated, event), now);
  }

  /** `notifyEventCancelled`. */
  method NotifyEventCancelled(client: NotificationClient, tokens: seq<string>, event: Event, now: string)
    modifies client
    ensures client.sent == old(client.sent) + Notification(EventCancelled, tokens, event, now)
  {
    if |tokens| == 0 {
      return;
    }
    client.SendToMultipleDevices(tokens, PushTitle(EventCancelled), PushBody(EventCancelled, event.title), Payload(EventCancelled, event), now);
  }

  /** `notifyInvited`. */
  method NotifyInvited(client: NotificationClient, tokens: seq<string>, event: Event, now: string)
    modifies client
    ensures client.sent == old(client.sent) + Notification(EventInvitation, tokens, event, now)
  {
    if |tokens| == 0 {
      return;
    }
    client.SendToMultipleDevices(tokens, PushTitle(EventInvitation), PushBody(EventInvitation, event.title), Payload(EventInvitation, event), now);
  }
}
