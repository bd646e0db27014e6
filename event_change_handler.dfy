/**
 * `onEventsWritten`, the trigger that runs when an event document is
 * written: it classifies the write, picks the version of the event to report
 * (the old one for a cancellation, the new one for an update), splits the
 * invitees into registered accounts and other addresses, and sends mail to
 * both and push notifications to the registered ones. Every failure inside is
 * caught and logged, so the trigger itself never fails.
 */
module EventChangeHandler {
  import opened Wrappers
  import opened EventModel
  import opened UserConfigurationModel
  import opened Firestore
  import opened Mailer
  import opened Messaging
  import EventService
  import UserService
  import EmailService
  import NotificationService

  // ---------- toDate and detectImportantChanges ----------

  /** `toDate(value)?.getTime()`: the instant of the Date a date field stands for, none when it is missing. */
  function ToDate(value: Option<DateRepr>): (t: Option<int>)
    ensures t.None? <==> value.None?
  {
    match value
    case None => None
    case Some(d) => Some(Instant(d))
  }

  /** The fields `detectImportantChanges` reports. */
  datatype ReportedField = TitleField | DescriptionField | DateField | PlaceField

  datatype Labelled = Labelled(field: ReportedField, caption: string)

  const ImportantLabels: seq<Labelled> := [
    Labelled(TitleField, "Título"), Labelled(DescriptionField, "Descripción"),
    Labelled(DateField, "Fecha"), Labelled(PlaceField, "Lugar")]

  /** Whether a reported field differs: the date by `toDate(..)?.getTime()`, the others by `!==`. */
  predicate Differs(field: ReportedField, before: EventData, after: EventData) {
    match field
    case TitleField => before.title != after.title
    case DescriptionField => before.description != after.description
    case DateField => ToDate(before.date) != ToDate(after.date)
    case PlaceField => before.place != after.place
  }

  /** The labels the `forEach` pushes for a list of labelled fields, in list order. */
  function LabelsOf(fields: seq<Labelled>, before: EventData, after: EventData): (labels: seq<string>)
    ensures |labels| <= |fields|
  {
    if fields == [] then []
    else
      var last := fields[|fields| - 1];
      LabelsOf(fields[..|fields| - 1], before, after) + (if Differs(last.field, before, after) then [last.caption] else [])
  }

  function ChangedLabels(before: EventData, after: EventData): seq<string> {
    LabelsOf(ImportantLabels, before, after)
  }

  /**
   * The labels are, in this order, "Título", "Descripción", "Fecha" and
   * "Lugar", each present exactly when its field differs.
   */
  lemma ChangedLabelsSpelledOut(before: EventData, after: EventData)
    ensures ChangedLabels(before, after) ==
      (if before.title != after.title then ["Título"] else []) +
      (if before.description != after.description then ["Descripción"] else []) +
      (if ToDate(before.date) != ToDate(after.date) then ["Fecha"] else []) +
      (if before.place != after.place then ["Lugar"] else [])
  {
    var l := ImportantLabels;
    assert LabelsOf(l[..1], before, after) == (if before.title != after.title then ["Título"] else []) by {
      assert l[..1][..0] == [];
    }
    assert LabelsOf(l[..2], before, after) == LabelsOf(l[..1], before, after) +
      (if before.description != after.description then ["Descripción"] else []) by {
      assert l[..2][..1] == l[..1];
    }
    assert LabelsOf(l[..3], before, after) == LabelsOf(l[..2], before, after) +
      (if ToDate(before.date) != ToDate(after.date) then ["Fecha"] else []) by {
      assert l[..3][..2] == l[..2];
    }
    assert l[..4][..3] == l[..3] && l[..4] == l;
  }

  /** Each label appears at most once. */
  lemma ChangedLabelsDistinct(before: EventData, after: EventData)
    ensures Distinct(ChangedLabels(before, after))
  {
    ChangedLabelsSpelledOut(before, after);
  }

  /** The invitee list is not among the reported fields: a write that changes only it reports nothing. */
  lemma InviteesNeverReported(before: EventData, invitees: Option<seq<string>>)
    ensures ChangedLabels(before, before.(invitees := invitees)) == []
  {
    ChangedLabelsSpelledOut(before, before.(invitees := invitees));
  }

  /**
   * `detectImportantChanges`: fills `changes` by a loop over the labelled fields.
   * `onEventsWritten` never calls it, so its labels reach no mail or push.
   */
  method DetectImportantChanges(before: EventData, after: EventData) returns (changes: seq<string>)
    ensures changes == ChangedLabels(before, after)
  {
    changes := [];
    var i := 0;
    while i < |ImportantLabels|
      invariant 0 <= i <= |ImportantLabels|
      invariant changes == LabelsOf(ImportantLabels[..i], before, after)
    {
      var entry := ImportantLabels[i];
      assert ImportantLabels[..i + 1][..i] == ImportantLabels[..i];
      if Differs(entry.field, before, after) {
        changes := changes + [entry.caption];
      }
      i := i + 1;
    }
    assert ImportantLabels[..i] == ImportantLabels;
  }

  // ---------- the audience ----------

  /** The emails of the registered users (`new Set(registeredUsers.map(u => u.email))`). */
  function RegisteredEmails(users: seq<UserConfiguration>): set<string> {
    set u | u in users :: u.email
  }

  /** `invitees.filter(email => !registeredEmails.has(email))`. */
  function Unregistered(invitees: seq<string>, registered: set<string>): (r: seq<string>)
    ensures |r| <= |invitees|
  {
    if invitees == [] then []
    else
      var last := invitees[|invitees| - 1];
      Unregistered(invitees[..|invitees| - 1], registered) + (if last in registered then [] else [last])
  }

  /** The filter keeps every unregistered occurrence and drops every registered one. */
  lemma {:induction false} UnregisteredCounts(invitees: seq<string>, registered: set<string>, e: string)
    ensures multiset(Unregistered(invitees, registered))[e] == if e in registered then 0 else multiset(invitees)[e]
  {
    if invitees != [] {
      var init, last := invitees[..|invitees| - 1], invitees[|invitees| - 1];
      assert invitees == init + [last];
      UnregisteredCounts(init, registered, e);
    }
  }

  lemma UnregisteredMembers(invitees: seq<string>, registered: set<string>, e: string)
    ensures e in Unregistered(invitees, registered) <==> e in invitees && e !in registered
  {
    UnregisteredCounts(invitees, registered, e);
  }

  // ---------- the trigger ----------

  /** The two snapshots of a write. */
  datatype WriteChange = WriteChange(before: EventSnapshot, after: EventSnapshot)

  /** The snapshot reported on: the old one for a cancellation, the new one otherwise. */
  function Source(change: WriteChange, changeType: ChangeType): EventSnapshot {
    if changeType == Cancelled then change.before else change.after
  }

  /** What the trigger decides to send: nothing, or mail and push about an event to its split audience. */
  datatype Plan =
    | NoAction
    | Notify(changeType: ChangeType, event: Event, invitees: seq<string>,
             registered: seq<UserConfiguration>, unregistered: seq<string>)

  /**
   * The decisions of `onEventsWritten`, given the accounts in the store and
   * the emails whose lookups fail. Nothing happens without write data or a
   * change, when the reported version cannot be converted, when it has no
   * invitees, or when looking up the invitees fails.
   */
  function TriggerPlan(change: Option<WriteChange>, docs: seq<StoredUser>, unavailable: set<string>): Plan {
    if change.None? then NoAction
    else
      var changeType := EventService.DetectEventChange(change.value.before, change.value.after);
      if changeType.None? then NoAction
      else
        var source := Source(change.value, changeType.value);
        assert source.Exists();
        var event := FromFirestoreData(source.data.value, source.id);
        var invitees := InviteesOf(source.data.value);
        if event.Err? || |invitees| == 0 || (exists k :: 0 <= k < |invitees| && invitees[k] in unavailable) then NoAction
        else
          var registered := UserService.RegisteredUsers(docs, invitees);
          Notify(changeType.value, event.value, invitees, registered, Unregistered(invitees, RegisteredEmails(registered)))
  }

  /** The registered users' fan-out (`sendEventChangeNotification`), made when there is one. */
  function RegisteredMails(plan: Plan): seq<MailOptions>
    requires plan.Notify?
  {
    if |plan.registered| > 0 then EmailService.ChangeMails(EmailService.Emails(plan.registered), plan.event, plan.changeType) else []
  }

  /** The other addresses' fan-out (`sendNotificationToInvitees`), made when there is one. */
  function OtherMails(plan: Plan): seq<MailOptions>
    requires plan.Notify?
  {
    if |plan.unregistered| > 0 then EmailService.ChangeMails(plan.unregistered, plan.event, plan.changeType) else []
  }

  /** The mails of a plan: the registered users' fan-out, then the other addresses'. */
  function TriggerMails(plan: Plan): seq<MailOptions> {
    if plan.NoAction? then [] else RegisteredMails(plan) + OtherMails(plan)
  }

  /** The push kind for a change: cancellations get `notifyEventCancelled`, updates `notifyEventUpdated`. */
  function KindOf(changeType: ChangeType): NotificationService.PushKind {
    if changeType == Cancelled then NotificationService.EventCancelled else NotificationService.EventUpdated
  }

  /** The pushes of a plan: one `notify*` call for the registered users' tokens, when there are registered users. */
  function TriggerPushes(plan: Plan, docs: seq<StoredUser>, unavailable: set<string>, now: string): seq<PushMessage> {
    match plan
    case NoAction => []
    case Notify(changeType, event, _, registered, _) =>
      if |registered| > 0 then
        NotificationService.Notification(KindOf(changeType),
          NotificationService.TokensFor(docs, unavailable, EmailService.Emails(registered)), event, now)
      else []
  }

  /**
   * `onEventsWritten`: runs the decisions of `TriggerPlan` and sends what
   * `TriggerMails` and `TriggerPushes` describe. It has no error result: every
   * failure is caught inside.
   */
  method OnEventsWritten(change: Option<WriteChange>, store: FirestoreClient,
      mailer: EmailClient, push: NotificationClient, now: string)
    requires mailer.Valid()
    modifies mailer, push
    ensures mailer.Valid() && mailer.rejects == old(mailer.rejects)
    ensures mailer.outbox == old(mailer.outbox) + TriggerMails(TriggerPlan(change, store.userConfigurations, store.unavailable))
    ensures push.sent == old(push.sent) +
      TriggerPushes(TriggerPlan(change, store.userConfigurations, store.unavailable), store.userConfigurations, store.unavailable, now)
  {
    if change.None? {
      return;
    }
    var changeType := EventService.DetectEventChange(change.value.before, change.value.after);
    if changeType.None? {
      return;
    }
    var source := Source(change.value, changeType.value);
    // a cancellation has an old version and an update a new one, so the `exists` test always passes
    assert source.Exists();
    var eventData := FromFirestoreData(source.data.value, source.id);
    if eventData.Err? {
      return;
    }
    var invitees := InviteesOf(source.data.value);
    if |invitees| == 0 {
      return;
    }
    var found := UserService.GetUsersByEmails(store, invitees);
    if found.Err? {
      return;
    }
    var registeredUsers := found.value;
    var plan := Notify(changeType.value, eventData.value, invitees, registeredUsers,
      Unregistered(invitees, RegisteredEmails(registeredUsers)));
    assert plan == TriggerPlan(change, store.userConfigurations, store.unavailable);
    Dispatch(plan, store, mailer, push, now);
  }

  /** The sending half of the trigger: mail and push to the registered users, then mail to the other addresses. */
  method Dispatch(plan: Plan, store: FirestoreClient, mailer: EmailClient, push: NotificationClient, now: string)
    requires plan.Notify? && mailer.Valid()
    modifies mailer, push
    ensures mailer.Valid() && mailer.rejects == old(mailer.rejects)
    ensures mailer.outbox == old(mailer.outbox) + TriggerMails(plan)
    ensures push.sent == old(push.sent) + TriggerPushes(plan, store.userConfigurations, store.unavailable, now)
  {
    ghost var start := mailer.outbox;
    if |plan.registered| > 0 {
      NotifyRegistered(plan, store, mailer, push, now);
    }
    assert mailer.outbox == start + RegisteredMails(plan);
    if |plan.unregistered| > 0 {
      var _, _ := EmailService.SendNotificationToInvitees(mailer, plan.unregistered, plan.event, plan.changeType);
    }
    assert mailer.outbox == (start + RegisteredMails(plan)) + OtherMails(plan);
    ConcatAssociative(start, RegisteredMails(plan), OtherMails(plan));
  }

  lemma ConcatAssociative<T>(a: seq<T>, b: seq<T>, c: seq<T>)
    ensures (a + b) + c == a + (b + c)
  {
  }

  /** Mail to every registered user, then one push for their device tokens, of the kind the change calls for. */
  method NotifyRegistered(plan: Plan, store: FirestoreClient, mailer: EmailClient, push: NotificationClient, now: string)
    requires plan.Notify? && |plan.registered| > 0 && mailer.Valid()
    modifies mailer, push
    ensures mailer.Valid() && mailer.rejects == old(mailer.rejects)
    ensures mailer.outbox == old(mailer.outbox) + RegisteredMails(plan)
    ensures push.sent == old(push.sent) + TriggerPushes(plan, store.userConfigurations, store.unavailable, now)
  {
    EmailService.SendEventChangeNotification(mailer, plan.registered, plan.event, plan.changeType);
    var tokens := NotificationService.GetDeviceTokensFromEmails(store, EmailService.Emails(plan.registered));
    assert tokens == NotificationService.TokensFor(store.userConfigurations, store.unavailable, EmailService.Emails(plan.registered));
    if plan.changeType == Cancelled {
      NotificationService.NotifyEventCancelled(push, tokens, plan.event, now);
    } else {
      NotificationService.NotifyEventUpdated(push, tokens, plan.event, now);
    }
  }

  // ---------- what the trigger promises ----------

  /** The trigger acts exactly when the write is a change whose reported version converts, has invitees and can be looked up. */
  lemma NoActionIff(change: Option<WriteChange>, docs: seq<StoredUser>, unavailable: set<string>)
    ensures TriggerPlan(change, docs, unavailable) == NoAction <==>
      change.None? ||
      EventService.DetectEventChange(change.value.before, change.value.after).None? ||
      (var source := Source(change.value, EventService.DetectEventChange(change.value.before, change.value.after).value);
       FromFirestoreData(source.data.value, source.id).Err? || InviteesOf(source.data.value) == [] ||
       exists k :: 0 <= k < |InviteesOf(source.data.value)| && InviteesOf(source.data.value)[k] in unavailable)
  {
  }

  /** A plan that does nothing sends neither mail nor push. */
  lemma NoActionSendsNothing(docs: seq<StoredUser>, unavailable: set<string>, now: string)
    ensures TriggerMails(NoAction) == [] && TriggerPushes(NoAction, docs, unavailable, now) == []
  {
  }

  /** No write data, no change, or no invitees: nothing is sent. */
  lemma NothingWithoutChangeOrInvitees(change: Option<WriteChange>, docs: seq<StoredUser>, unavailable: set<string>)
    requires change.None? || EventService.DetectEventChange(change.value.before, change.value.after).None? ||
      InviteesOf(Source(change.value, EventService.DetectEventChange(change.value.before, change.value.after).value).data.value) == []
    ensures TriggerPlan(change, docs, unavailable) == NoAction
  {
  }

  /** A cancellation reports the old version and its invitees, an update the new version and its invitees. */
  lemma ReportedVersion(change: Option<WriteChange>, docs: seq<StoredUser>, unavailable: set<string>)
    requires TriggerPlan(change, docs, unavailable).Notify?
    ensures var plan := TriggerPlan(change, docs, unavailable);
      var chosen := if plan.changeType == Cancelled then change.value.before else change.value.after;
      chosen.Exists() &&
      Ok(plan.event) == FromFirestoreData(chosen.data.value, chosen.id) &&
      plan.invitees == InviteesOf(chosen.data.value) &&
      Some(plan.changeType) == EventService.DetectEventChange(change.value.before, change.value.after)
  {
  }

  /**
   * The audience: registered users are the accounts an invitee's email looks
   * up whose notifications are on; the other addresses are the invitees whose
   * email no registered user has, so the two groups never share an address.
   */
  lemma AudiencePartition(change: Option<WriteChange>, docs: seq<StoredUser>, unavailable: set<string>, u: UserConfiguration, e: string)
    requires TriggerPlan(change, docs, unavailable).Notify?
    ensures var plan := TriggerPlan(change, docs, unavailable);
      (u in plan.registered <==> u.isEnableNotifications && UserService.LookedUp(docs, plan.invitees, u)) &&
      (e in plan.unregistered <==> e in plan.invitees && e !in RegisteredEmails(plan.registered))
  {
    var plan := TriggerPlan(change, docs, unavailable);
    UserService.RegisteredUsersMembers(docs, plan.invitees, u);
    UnregisteredMembers(plan.invitees, RegisteredEmails(plan.registered), e);
  }

  /** Every invitee gets a mail: the registered ones through their account, the others directly. */
  lemma EveryInviteeMailed(change: Option<WriteChange>, docs: seq<StoredUser>, unavailable: set<string>, e: string)
    requires TriggerPlan(change, docs, unavailable).Notify?
    requires e in TriggerPlan(change, docs, unavailable).invitees
    ensures exists m :: m in TriggerMails(TriggerPlan(change, docs, unavailable)) && m.to == e
  {
    var plan := TriggerPlan(change, docs, unavailable);
    var regMails, otherMails := RegisteredMails(plan), OtherMails(plan);
    assert TriggerMails(plan) == regMails + otherMails;
    if e in RegisteredEmails(plan.registered) {
      var u :| u in plan.registered && u.email == e;
      var i :| 0 <= i < |plan.registered| && plan.registered[i] == u;
      var emails := EmailService.Emails(plan.registered);
      EmailService.EmailsAt(plan.registered);
      EmailService.ChangeMailsRecipients(emails, plan.event, plan.changeType);
      assert regMails[i] in TriggerMails(plan);
    } else {
      UnregisteredMembers(plan.invitees, RegisteredEmails(plan.registered), e);
      var i :| 0 <= i < |plan.unregistered| && plan.unregistered[i] == e;
      EmailService.ChangeMailsRecipients(plan.unregistered, plan.event, plan.changeType);
      assert otherMails[i] in TriggerMails(plan);
    }
  }

  /** A push happens only with registered users, and its payload type follows the change: cancelled or updated. */
  lemma PushKindMatchesChange(plan: Plan, docs: seq<StoredUser>, unavailable: set<string>, now: string, m: PushMessage)
    requires m in TriggerPushes(plan, docs, unavailable, now)
    ensures plan.Notify? && |plan.registered| > 0
    ensures m.ToDevices? && m.data["type"] == (if plan.changeType == Cancelled then "event_cancelled" else "event_updated")
  {
    NotificationService.NotificationShape(KindOf(plan.changeType),
      NotificationService.TokensFor(docs, unavailable, EmailService.Emails(plan.registered)), plan.event, now, m);
  }

  /** A pushed token is one of the tokens collected for the registered users' emails. */
  lemma PushedTokensCollected(plan: Plan, docs: seq<StoredUser>, unavailable: set<string>, now: string, m: PushMessage, t: string)
    requires m in TriggerPushes(plan, docs, unavailable, now) && m.ToDevices? && t in m.tokens
    ensures plan.Notify? && t in NotificationService.TokensFor(docs, unavailable, EmailService.Emails(plan.registered))
  {
    NotificationService.NotificationShape(KindOf(plan.changeType),
      NotificationService.TokensFor(docs, unavailable, EmailService.Emails(plan.registered)), plan.event, now, m);
  }

  /** A token collected for the registered users' emails belongs to a stored account of one of them, with notifications on. */
  lemma CollectedTokenOwner(registered: seq<UserConfiguration>, docs: seq<StoredUser>, unavailable: set<string>, t: string)
    requires t in NotificationService.TokensFor(docs, unavailable, EmailService.Emails(registered))
    ensures exists d :: (d in docs && NotificationService.Collectible(d.data) && d.data.deviceToken == Some(t) &&
      d.data.email in RegisteredEmails(registered))
  {
    var emails := EmailService.Emails(registered);
    NotificationService.CollectedTokensMembers(docs, emails, t);
    var d :| d in docs && NotificationService.Collectible(d.data) && d.data.deviceToken == Some(t) && d.data.email in emails;
    var i :| 0 <= i < |emails| && emails[i] == d.data.email;
    EmailService.EmailsAt(registered);
    var u := registered[i];
    assert u in registered && u.email == d.data.email;
    assert d.data.email in RegisteredEmails(registered);
  }

  /**
   * Every pushed token is the device token of a stored account, with
   * notifications on, whose email is a registered user's: an address outside
   * the registered group is never pushed to.
   */
  lemma PushTokensAreRegistered(plan: Plan, docs: seq<StoredUser>, unavailable: set<string>, now: string, m: PushMessage, t: string)
    requires m in TriggerPushes(plan, docs, unavailable, now) && m.ToDevices? && t in m.tokens
    ensures plan.Notify?
    ensures exists d :: (d in docs && NotificationService.Collectible(d.data) && d.data.deviceToken == Some(t) &&
      d.data.email in RegisteredEmails(plan.registered))
  {
    PushedTokensCollected(plan, docs, unavailable, now, m, t);
    CollectedTokenOwner(plan.registered, docs, unavailable, t);
  }
}
