/**
 * `EmailService`: the mails the backend sends about events, built from an
 * `Event` and handed to the mail client one recipient at a time. The fan-out
 * methods swallow each recipient's failure, so every recipient gets an
 * attempt whatever happens to the others.
 */
module EmailService {
  import opened Wrappers
  import opened EventModel
  import opened UserConfigurationModel
  import opened EmailFormat
  import opened Mailer

  /** `formatDate`: the es-ES long date of an instant, left symbolic. */
  function FormatDate(instant: int): DisplayDate {
    SpanishLongDate(instant)
  }

  /** The event fields a mail shows: copied from the event, with the date formatted. */
  function MailDataOf(e: Event): MailEventData {
    MailEventData(e.title, e.description, FormatDate(e.date), e.place, e.ownerName)
  }

  /** The mails a fan-out attempts: one change mail per address, in the order given. */
  function ChangeMails(emails: seq<string>, event: Event, changeType: ChangeType): (mails: seq<MailOptions>)
    ensures |mails| == |emails|
  {
    if emails == [] then []
    else ChangeMails(emails[..|emails| - 1], event, changeType) + [ChangeMail(emails[|emails| - 1], MailDataOf(event), changeType)]
  }

  /** A fan-out over one more address attempts one more mail, at the end. */
  lemma ChangeMailsStep(emails: seq<string>, i: nat, event: Event, changeType: ChangeType)
    requires i < |emails|
    ensures ChangeMails(emails[..i + 1], event, changeType) ==
      ChangeMails(emails[..i], event, changeType) + [ChangeMail(emails[i], MailDataOf(event), changeType)]
  {
    assert emails[..i + 1][..i] == emails[..i];
  }

  /** `users.map(user => user.email)`. */
  function Emails(users: seq<UserConfiguration>): (emails: seq<string>)
    ensures |emails| == |users|
  {
    if users == [] then [] else Emails(users[..|users| - 1]) + [users[|users| - 1].email]
  }

  /** The fan-out's mail at position `i` is the change mail for the address at position `i`. */
  lemma {:induction false} ChangeMailsAt(emails: seq<string>, event: Event, changeType: ChangeType)
    ensures forall i :: 0 <= i < |emails| ==> ChangeMails(emails, event, changeType)[i] == ChangeMail(emails[i], MailDataOf(event), changeType)
  {
    if emails != [] {
      ChangeMailsAt(emails[..|emails| - 1], event, changeType);
    }
  }

  /** The address at position `i` is the email of the user at position `i`. */
  lemma {:induction false} EmailsAt(users: seq<UserConfiguration>)
    ensures forall i :: 0 <= i < |users| ==> Emails(users)[i] == users[i].email
  {
    if users != [] {
      EmailsAt(users[..|users| - 1]);
    }
  }

  /** Each change mail goes to its own address, so the recipients of a fan-out are its inputs in order. */
  lemma ChangeMailsRecipients(emails: seq<string>, event: Event, changeType: ChangeType)
    ensures forall i :: 0 <= i < |emails| ==> ChangeMails(emails, event, changeType)[i].to == emails[i]
  {
    ChangeMailsAt(emails, event, changeType);
    forall i | 0 <= i < |emails|
      ensures ChangeMails(emails, event, changeType)[i].to == emails[i]
    {
      ChangeMailShape(emails[i], MailDataOf(event), changeType);
    }
  }

  const InvitationFailure := "Failed to send invitation email: "
  const InvalidEmailFormat := "Invalid email format: "

  /** `sendRegistrationInvitation`: one invitation mail; a client failure is rethrown wrapped. */
  method SendRegistrationInvitation(client: EmailClient, email: string, event: Event) returns (r: Result<Unit>)
    requires client.Valid()
    modifies client
    ensures client.Valid()
    ensures client.outbox == old(client.outbox) + [InvitationMail(email, MailDataOf(event))]
    ensures r.Ok? <==> email !in client.rejects
    ensures r.Err? ==> InvitationFailure + "Error: " + SendFailure <= r.error
    ensures client.rejects == old(client.rejects)
  {
    var sent := client.SendInvitationEmail(email, MailDataOf(event));
    if sent.Err? {
      return Err(Rethrown(InvitationFailure, sent.error));
    }
    r := Ok(());
  }

  /** `sendEventChangeToUser`: one change mail; its failure is logged and swallowed. */
  method SendEventChangeToUser(client: EmailClient, email: string, event: Event, changeType: ChangeType)
    requires client.Valid()
    modifies client
    ensures client.Valid()
    ensures client.outbox == old(client.outbox) + [ChangeMail(email, MailDataOf(event), changeType)]
    ensures client.rejects == old(client.rejects)
  {
    var _ := client.SendEventUpdateEmail(email, MailDataOf(event), changeType);
  }

  /** `sendEventChangeNotification`: one attempt per user, addressed to that user's email. */
  method SendEventChangeNotification(client: EmailClient, users: seq<UserConfiguration>, event: Event, changeType: ChangeType)
    requires client.Valid()
    modifies client
    ensures client.Valid()
    ensures client.outbox == old(client.outbox) + ChangeMails(Emails(users), event, changeType)
    ensures client.rejects == old(client.rejects)
  {
    var emails := Emails(users);
    EmailsAt(users);
    var i := 0;
    while i < |users|
      invariant 0 <= i <= |users|
      invariant client.Valid() && client.rejects == old(client.rejects)
      invariant client.outbox == old(client.outbox) + ChangeMails(emails[..i], event, changeType)
    {
      SendEventChangeToUser(client, users[i].email, event, changeType);
      ChangeMailsStep(emails, i, event, changeType);
      i := i + 1;
    }
    assert emails[..i] == emails;
  }

  /** How an attempt of `Promise.allSettled` ended. */
  datatype Settlement = Fulfilled | Rejected

  /** `results.filter(result => result.status === status).length`. */
  function CountOf(results: seq<Settlement>, status: Settlement): (n: nat)
    ensures n <= |results|
  {
    if results == [] then 0
    else CountOf(results[..|results| - 1], status) + (if results[|results| - 1] == status then 1 else 0)
  }

  /** Every settlement is counted once, as fulfilled or as rejected. */
  lemma {:induction false} CountsPartition(results: seq<Settlement>)
    ensures CountOf(results, Fulfilled) + CountOf(results, Rejected) == |results|
  {
    if results != [] {
      CountsPartition(results[..|results| - 1]);
    }
  }

  /** A run of fulfilled attempts has no rejection. */
  lemma {:induction false} NoRejection(results: seq<Settlement>)
    requires forall k :: 0 <= k < |results| ==> results[k] == Fulfilled
    ensures CountOf(results, Rejected) == 0
  {
    if results != [] {
      NoRejection(results[..|results| - 1]);
    }
  }

  /**
   * `sendNotificationToInvitees`: one attempt per address. The attempts
   * swallow their own failures, so every one settles as fulfilled: the counts
   * add up to the number of addresses and `failed` is 0 even when the mail
   * server rejects some of them.
   */
  method SendNotificationToInvitees(client: EmailClient, inviteeEmails: seq<string>, event: Event, changeType: ChangeType)
    returns (successful: nat, failed: nat)
    requires client.Valid()
    modifies client
    ensures client.Valid()
    ensures client.outbox == old(client.outbox) + ChangeMails(inviteeEmails, event, changeType)
    ensures successful + failed == |inviteeEmails|
    ensures failed == 0
    ensures client.rejects == old(client.rejects)
  {
    var results: seq<Settlement> := [];
    var i := 0;
    while i < |inviteeEmails|
      invariant 0 <= i <= |inviteeEmails| && |results| == i
      invariant forall k :: 0 <= k < i ==> results[k] == Fulfilled
      invariant client.Valid() && client.rejects == old(client.rejects)
      invariant client.outbox == old(client.outbox) + ChangeMails(inviteeEmails[..i], event, changeType)
    {
      SendEventChangeToUser(client, inviteeEmails[i], event, changeType);
      ChangeMailsStep(inviteeEmails, i, event, changeType);
      results := results + [Fulfilled];
      i := i + 1;
    }
    assert inviteeEmails[..i] == inviteeEmails;
    successful := CountOf(results, Fulfilled);
    failed := CountOf(results, Rejected);
    CountsPartition(results);
    NoRejection(results);
  }

  /**
   * `sendEmailWithValidation`: an address that fails `isValidEmail` (the
   * shape of `EmailFormat`) is refused before the client is reached; any
   * other is sent, and a client failure is rethrown as it is.
   */
  method SendEmailWithValidation(client: EmailClient, email: string, subject: string, template: string, context: MailContext)
    returns (r: Result<Unit>)
    requires client.Valid()
    modifies client
    ensures client.Valid()
    ensures !IsEmailShaped(email) ==> r == Err(InvalidEmailFormat + email) && client.outbox == old(client.outbox)
    ensures IsEmailShaped(email) ==>
      client.outbox == old(client.outbox) + [MailOptions(email, subject, RenderTemplate(template, context))] &&
      (r.Ok? <==> email !in client.rejects) &&
      (r.Err? ==> SendFailure <= r.error)
    ensures client.rejects == old(client.rejects)
  {
    if !IsEmailShaped(email) {
      return Err(InvalidEmailFormat + email);
    }
    r := client.SendEmail(email, subject, template, context);
  }
}
