/**
 * The two invitation endpoints. `inviteUserToEvent` (callable) runs a fixed
 * sequence of checks on the caller and the address, then either adds an
 * existing account to the invitee list and pushes to it, or mails a
 * registration invitation. `inviteUserToEventHTTP` does the same over HTTP,
 * answering with a status code, but it adds the invitee before it checks
 * whether the account exists and it checks the address as given.
 */
module InviteUserHandler {
  import opened Wrappers
  import opened Text
  import opened EmailFormat
  import opened EventModel
  import opened Firestore
  import opened Mailer
  import opened Messaging
  import EventService
  import UserService
  import EmailService
  import NotificationService

  // ---------- errors ----------

  datatype ErrorCode = Unauthenticated | InvalidArgument | NotFound | PermissionDenied | AlreadyExists | Internal

  /** An `HttpsError`: a code and a message. */
  datatype HttpsError = HttpsError(code: ErrorCode, message: string)

  const UnauthenticatedError := HttpsError(Unauthenticated, "User must be authenticated to invite others.")
  const MissingArgumentError := HttpsError(InvalidArgument, "eventId and email are required.")
  const FormatError := HttpsError(InvalidArgument, "Invalid email format.")
  const NotFoundError := HttpsError(NotFound, "Event not found.")
  const NotOwnerError := HttpsError(PermissionDenied, "Only the event owner can send invitations.")
  const AlreadyInvitedError := HttpsError(AlreadyExists, "This email is already invited to the event.")
  const InternalError := HttpsError(Internal, "An internal error occurred while processing the invitation.")

  /** What the handler's body can throw: an `HttpsError`, or any other error with its message. */
  datatype Failure = Raised(error: HttpsError) | Crashed(message: string)

  /** The `catch` block: an `HttpsError` is rethrown as it is, anything else becomes `internal`. */
  function Rethrow(failure: Failure): (e: HttpsError)
    ensures failure.Raised? ==> e == failure.error
    ensures failure.Crashed? ==> e == InternalError
  {
    match failure
    case Raised(error) => error
    case Crashed(_) => InternalError
  }

  // ---------- the callable ----------

  /** `request.data`: fields the caller may leave out. */
  datatype CallData = CallData(eventId: Option<string>, email: Option<string>, inviteeEmail: Option<string>)

  /** A callable request: the caller's uid when authenticated, and the data. */
  datatype CallRequest = CallRequest(auth: Option<string>, data: CallData)

  /** JavaScript truthiness of an optional string: present and non-empty. */
  predicate Truthy(s: Option<string>) {
    s.Some? && s.value != ""
  }

  /** `emailRaw || inviteeEmail || ''`. */
  function RequestedEmail(data: CallData): string {
    if Truthy(data.email) then data.email.value
    else if Truthy(data.inviteeEmail) then data.inviteeEmail.value
    else ""
  }

  /** The address every check uses: the requested one, lower-cased and trimmed. */
  function InviteeAddress(data: CallData): string {
    NormalizeEmail(RequestedEmail(data))
  }

  datatype InviteResult = InviteResult(success: bool, message: string, userExists: bool, action: string)

  const AddedResult := InviteResult(true, "User successfully invited to the event.", true, "added_as_invitee")
  const MailedResult := InviteResult(true, "Invitation email sent. User will be added to the event once they register.", false, "invitation_email_sent")

  /** What a call ends with: a returned result, or a thrown `HttpsError`. */
  datatype CallOutcome = Returned(result: InviteResult) | Thrown(error: HttpsError)

  /** The outcome of the checks: refuse with an error, add an existing account, or mail an invitation. */
  datatype CallStep = Refuse(error: HttpsError) | AddExisting(event: Event) | InviteByMail(event: Event)

  /** Some stored account has exactly this email (`userExistsByEmail`). */
  predicate HasAccount(docs: seq<StoredUser>, email: string) {
    exists k :: 0 <= k < |docs| && docs[k].data.email == email
  }

  /**
   * The checks of `inviteUserToEvent` in their order, for the caller `auth`,
   * the requested event id and the normalised address `email`, over the
   * stored events, the stored accounts and the keys whose reads fail:
   * authentication, the required fields, the address format, the event (a
   * failed read is `internal`), its owner, the invitee list, and the account
   * lookup.
   */
  function CallableStep(auth: Option<string>, eventId: Option<string>, email: string,
      events: map<string, EventData>, docs: seq<StoredUser>, unavailable: set<string>): CallStep {
    if auth.None? then Refuse(UnauthenticatedError)
    else if !Truthy(eventId) || email == "" then Refuse(MissingArgumentError)
    else if !IsEmailShaped(email) then Refuse(FormatError)
    else
      var id := eventId.value;
      if id in unavailable || (id in events && FromFirestoreData(events[id], id).Err?) then Refuse(InternalError)
      else if id !in events then Refuse(NotFoundError)
      else
        var event := FromFirestoreData(events[id], id).value;
        if event.ownerId != auth.value then Refuse(NotOwnerError)
        else if email in InviteesOf(events[id]) then Refuse(AlreadyInvitedError)
        else if email in unavailable then Refuse(InternalError)
        else if HasAccount(docs, email) then AddExisting(event)
        else InviteByMail(event)
  }

  /** The checks applied to a request: its caller, its event id and its normalised address. */
  function RequestStep(req: CallRequest, events: map<string, EventData>, docs: seq<StoredUser>, unavailable: set<string>): CallStep {
    CallableStep(req.auth, req.data.eventId, InviteeAddress(req.data), events, docs, unavailable)
  }

  /**
   * `inviteUserToEvent`: a refusal throws and changes nothing; an existing
   * account is added (normalised) to the invitee list and pushed to; any
   * other address gets a registration mail, and a mail failure is `internal`.
   */
  method InviteUserToEvent(req: CallRequest, store: FirestoreClient, mailer: EmailClient, push: NotificationClient, now: string)
    returns (out: CallOutcome)
    requires mailer.Valid()
    modifies store, mailer, push
    ensures mailer.Valid() && mailer.rejects == old(mailer.rejects)
    ensures store.userConfigurations == old(store.userConfigurations) && store.unavailable == old(store.unavailable)
    ensures var step := RequestStep(req, old(store.events), old(store.userConfigurations), old(store.unavailable));
      CallEffects(out, store.events, mailer.outbox, push.sent) ==
        Effects(step, req.data.eventId, InviteeAddress(req.data), old(store.events), old(store.userConfigurations), old(store.unavailable),
          old(mailer.outbox), old(mailer.rejects), old(push.sent), now)
  {
    var email := InviteeAddress(req.data);
    out := InviteAddress(req.auth, req.data.eventId, email, store, mailer, push, now);
  }

  /** What a call leaves behind: its outcome, the stored events, the mail outbox and the pushes sent. */
  datatype CallEffects = CallEffects(out: CallOutcome, events: map<string, EventData>, outbox: seq<MailOptions>, sent: seq<PushMessage>)

  /**
   * The effects of the step the checks chose: a refusal throws its error and
   * changes nothing; an existing account is listed (in normalised form, as
   * `addInviteeToEvent` stores it) and pushed to; any other
   * address is mailed, the call throwing `internal` exactly when the mail
   * fails.
   */
  function Effects(step: CallStep, eventId: Option<string>, email: string, events: map<string, EventData>,
      docs: seq<StoredUser>, unavailable: set<string>, outbox: seq<MailOptions>, rejects: set<string>,
      sent: seq<PushMessage>, now: string): CallEffects
  {
    match step
    case Refuse(error) => CallEffects(Thrown(error), events, outbox, sent)
    case AddExisting(event) =>
      CallEffects(Returned(AddedResult),
        if eventId.Some? && eventId.value in events then InviteeAdded(events, eventId.value, NormalizeEmail(email)) else events,
        outbox,
        sent + NotificationService.Notification(NotificationService.EventInvitation,
          NotificationService.TokensFor(docs, unavailable, [email]), event, now))
    case InviteByMail(event) =>
      CallEffects(if email in rejects then Thrown(InternalError) else Returned(MailedResult),
        events, outbox + [InvitationMail(email, EmailService.MailDataOf(event))], sent)
  }

  /** The checks and their effects for a normalised address. */
  method InviteAddress(auth: Option<string>, eventId: Option<string>, email: string,
      store: FirestoreClient, mailer: EmailClient, push: NotificationClient, now: string)
    returns (out: CallOutcome)
    requires mailer.Valid()
    modifies store, mailer, push
    ensures mailer.Valid() && mailer.rejects == old(mailer.rejects)
    ensures store.userConfigurations == old(store.userConfigurations) && store.unavailable == old(store.unavailable)
    ensures var step := CallableStep(auth, eventId, email, old(store.events), old(store.userConfigurations), old(store.unavailable));
      CallEffects(out, store.events, mailer.outbox, push.sent) ==
        Effects(step, eventId, email, old(store.events), old(store.userConfigurations), old(store.unavailable),
          old(mailer.outbox), old(mailer.rejects), old(push.sent), now)
  {
    if auth.None? {
      return Thrown(Rethrow(Raised(UnauthenticatedError)));
    }
    if !Truthy(eventId) || email == "" {
      return Thrown(Rethrow(Raised(MissingArgumentError)));
    }
    if !IsEmailShaped(email) {
      return Thrown(Rethrow(Raised(FormatError)));
    }
    out := InviteToStoredEvent(auth, eventId, email, store, mailer, push, now);
  }

  /** From the event lookup on, for a caller and an address that passed the first checks. */
  method InviteToStoredEvent(auth: Option<string>, eventId: Option<string>, email: string,
      store: FirestoreClient, mailer: EmailClient, push: NotificationClient, now: string)
    returns (out: CallOutcome)
    requires mailer.Valid()
    requires auth.Some? && Truthy(eventId) && email != "" && IsEmailShaped(email)
    modifies store, mailer, push
    ensures mailer.Valid() && mailer.rejects == old(mailer.rejects)
    ensures store.userConfigurations == old(store.userConfigurations) && store.unavailable == old(store.unavailable)
    ensures var step := CallableStep(auth, eventId, email, old(store.events), old(store.userConfigurations), old(store.unavailable));
      CallEffects(out, store.events, mailer.outbox, push.sent) ==
        Effects(step, eventId, email, old(store.events), old(store.userConfigurations), old(store.unavailable),
          old(mailer.outbox), old(mailer.rejects), old(push.sent), now)
  {
    var found := EventService.GetEventById(store, eventId.value);
    if found.Err? {
      return Thrown(Rethrow(Crashed(found.error)));
    }
    if found.value.None? {
      return Thrown(Rethrow(Raised(NotFoundError)));
    }
    var event := found.value.value;
    if event.ownerId != auth.value {
      return Thrown(Rethrow(Raised(NotOwnerError)));
    }
    OwnedEventStep(auth.value, eventId.value, email, event, store.events, store.userConfigurations, store.unavailable);
    ghost var accounts := store.userConfigurations;
    out := CheckInviteesThenInvite(eventId.value, email, event, store, mailer, push, now);
    assert store.userConfigurations == accounts;
  }

  /** For a readable event the caller owns, the remaining checks are the invitee list and the account lookup. */
  lemma OwnedEventStep(uid: string, eventId: string, email: string, event: Event,
      events: map<string, EventData>, docs: seq<StoredUser>, unavailable: set<string>)
    requires email != "" && IsEmailShaped(email) && eventId != ""
    requires eventId !in unavailable && eventId in events
    requires FromFirestoreData(events[eventId], eventId) == Ok(event) && event.ownerId == uid
    ensures CallableStep(Some(uid), Some(eventId), email, events, docs, unavailable) ==
      if email in InviteesOf(events[eventId]) then Refuse(AlreadyInvitedError)
      else if email in unavailable then Refuse(InternalError)
      else if HasAccount(docs, email) then AddExisting(event)
      else InviteByMail(event)
  {
  }

  /** The invitee-list check, the account lookup and the branch it selects. */
  method CheckInviteesThenInvite(eventId: string, email: string, event: Event,
      store: FirestoreClient, mailer: EmailClient, push: NotificationClient, now: string)
    returns (out: CallOutcome)
    requires mailer.Valid()
    requires eventId !in store.unavailable && eventId in store.events
    requires FromFirestoreData(store.events[eventId], eventId) == Ok(event)
    modifies store, mailer, push
    ensures mailer.Valid() && mailer.rejects == old(mailer.rejects)
    ensures store.userConfigurations == old(store.userConfigurations) && store.unavailable == old(store.unavailable)
    ensures var step :=
        if email in InviteesOf(old(store.events)[eventId]) then Refuse(AlreadyInvitedError)
        else if email in old(store.unavailable) then Refuse(InternalError)
        else if HasAccount(old(store.userConfigurations), email) then AddExisting(event)
        else InviteByMail(event);
      CallEffects(out, store.events, mailer.outbox, push.sent) ==
        Effects(step, Some(eventId), email, old(store.events), old(store.userConfigurations), old(store.unavailable),
          old(mailer.outbox), old(mailer.rejects), old(push.sent), now)
  {
    var invited := EventService.IsEmailAlreadyInvited(store, eventId, email);
    assert invited.Ok?;  // the requires: the event is stored and readable
    if invited.value {
      return Thrown(Rethrow(Raised(AlreadyInvitedError)));
    }
    var known := UserService.UserExistsByEmail(store, email);
    if known.Err? {
      return Thrown(Rethrow(Crashed(known.error)));
    }
    if known.value {
      ghost var accounts := store.userConfigurations;
      out := AddExistingInvitee(store, push, eventId, email, event, now);
      assert store.userConfigurations == accounts;
    } else {
      var sent := EmailService.SendRegistrationInvitation(mailer, email, event);
      if sent.Err? {
        return Thrown(Rethrow(Crashed(sent.error)));
      }
      out := Returned(MailedResult);
    }
  }

  /** The existing-account branch: add the address, then push the invitation to its tokens. */
  method AddExistingInvitee(store: FirestoreClient, push: NotificationClient, eventId: string, email: string, event: Event, now: string)
    returns (out: CallOutcome)
    requires eventId !in store.unavailable && eventId in store.events
    modifies store, push
    ensures out == Returned(AddedResult)
    ensures store.events == InviteeAdded(old(store.events), eventId, NormalizeEmail(email))
    ensures store.userConfigurations == old(store.userConfigurations) && store.unavailable == old(store.unavailable)
    ensures push.sent == old(push.sent) + NotificationService.Notification(NotificationService.EventInvitation,
      NotificationService.TokensFor(old(store.userConfigurations), old(store.unavailable), [email]), event, now)
  {
    var added := EventService.AddInviteeToEvent(store, eventId, email);
    assert added.Ok?;  // the requires: the event is stored and readable
    PushInvitation(store, push, email, event, now);
    out := Returned(AddedResult);
  }

  /** `getDeviceTokensFromEmails([email])` followed by `notifyInvited`. */
  method PushInvitation(store: FirestoreClient, push: NotificationClient, email: string, event: Event, now: string)
    modifies push
    ensures push.sent == old(push.sent) + NotificationService.Notification(NotificationService.EventInvitation,
      NotificationService.TokensFor(store.userConfigurations, store.unavailable, [email]), event, now)
  {
    var tokens := NotificationService.GetDeviceTokensFromEmails(store, [email]);
    NotificationService.NotifyInvited(push, tokens, event, now);
  }

  // ---------- what the callable promises ----------

  /**
   * The first failing check decides: no caller beats everything, then a
   * missing field, then a malformed address, whatever the store holds.
   */
  lemma CallerChecksComeFirst(auth: Option<string>, eventId: Option<string>, email: string,
      events: map<string, EventData>, docs: seq<StoredUser>, unavailable: set<string>)
    ensures auth.None? ==> CallableStep(auth, eventId, email, events, docs, unavailable) == Refuse(UnauthenticatedError)
    ensures auth.Some? && (!Truthy(eventId) || email == "") ==>
      CallableStep(auth, eventId, email, events, docs, unavailable) == Refuse(MissingArgumentError)
    ensures auth.Some? && Truthy(eventId) && email != "" && !IsEmailShaped(email) ==>
      CallableStep(auth, eventId, email, events, docs, unavailable) == Refuse(FormatError)
  {
  }

  /**
   * Once the caller and the address pass, the stored event decides in order:
   * a failed read, a missing event, a different owner, an address already
   * listed.
   */
  lemma EventChecksInOrder(auth: Option<string>, eventId: Option<string>, email: string,
      events: map<string, EventData>, docs: seq<StoredUser>, unavailable: set<string>)
    requires auth.Some? && Truthy(eventId) && email != "" && IsEmailShaped(email)
    ensures var id := eventId.value;
      var step := CallableStep(auth, eventId, email, events, docs, unavailable);
      (id in unavailable ==> step == Refuse(InternalError)) &&
      (id !in unavailable && id !in events ==> step == Refuse(NotFoundError)) &&
      (id !in unavailable && id in events && FromFirestoreData(events[id], id).Ok? ==>
        (events[id].ownerId != auth.value ==> step == Refuse(NotOwnerError)) &&
        (events[id].ownerId == auth.value && email in InviteesOf(events[id]) ==> step == Refuse(AlreadyInvitedError)))
  {
  }

  /** An accepted address is non-empty and shaped like an email. */
  lemma AcceptedIsShaped(auth: Option<string>, eventId: Option<string>, email: string,
      events: map<string, EventData>, docs: seq<StoredUser>, unavailable: set<string>)
    requires !CallableStep(auth, eventId, email, events, docs, unavailable).Refuse?
    ensures auth.Some? && Truthy(eventId) && IsEmailShaped(email)
    ensures eventId.value in events && events[eventId.value].ownerId == auth.value
    ensures email !in InviteesOf(events[eventId.value]) && email !in unavailable
  {
  }

  /**
   * An accepted address is shaped like an email: no white space, exactly one
   * "@" with a non-empty local part, and it matches the regular expression
   * the handler tests it with.
   */
  lemma AcceptedAddressIsWellFormed(auth: Option<string>, eventId: Option<string>, email: string,
      events: map<string, EventData>, docs: seq<StoredUser>, unavailable: set<string>)
    requires !CallableStep(auth, eventId, email, events, docs, unavailable).Refuse?
    ensures NoSpace(email) && multiset(email)['@'] == 1 && 0 < IndexOf(email, '@') < |email| - 3
    ensures MatchesEmailRegex(email)
  {
    AcceptedIsShaped(auth, eventId, email, events, docs, unavailable);
    AcceptedHasOneAt(email);
    EmailShapedIffRegex(email);
  }

  /** The address a request is checked with is already in normal form, so it is stored as it was checked. */
  lemma InviteeAddressIsNormal(data: CallData)
    ensures NormalizeEmail(InviteeAddress(data)) == InviteeAddress(data)
  {
    NormalizeIdempotent(RequestedEmail(data));
  }

  /** Sending the normalised address instead of the raw one gives the same address to check. */
  lemma NormalisedRequestSameAddress(data: CallData)
    ensures InviteeAddress(CallData(data.eventId, Some(InviteeAddress(data)), None)) == InviteeAddress(data)
  {
    var address := InviteeAddress(data);
    assert RequestedEmail(CallData(data.eventId, Some(address), None)) == address;
    NormalizeIdempotent(RequestedEmail(data));
  }

  /** The address comes from `email`, then from `inviteeEmail`, whichever is first non-empty. */
  lemma RequestedEmailFallback(data: CallData)
    ensures Truthy(data.email) ==> RequestedEmail(data) == data.email.value
    ensures !Truthy(data.email) && Truthy(data.inviteeEmail) ==> RequestedEmail(data) == data.inviteeEmail.value
    ensures !Truthy(data.email) && !Truthy(data.inviteeEmail) ==> InviteeAddress(data) == ""
  {
    if !Truthy(data.email) && !Truthy(data.inviteeEmail) {
      assert NormalizeEmail("") == "";
    }
  }

  /** Past the checks, the existing-account branch is taken exactly when an account has the address. */
  lemma AddsOnlyExistingAccounts(auth: Option<string>, eventId: Option<string>, email: string,
      events: map<string, EventData>, docs: seq<StoredUser>, unavailable: set<string>)
    requires !CallableStep(auth, eventId, email, events, docs, unavailable).Refuse?
    ensures CallableStep(auth, eventId, email, events, docs, unavailable).AddExisting? <==> HasAccount(docs, email)
  {
  }

  // ---------- the HTTP endpoint ----------

  /** An HTTP request: its method, its `Authorization` header and the body fields. */
  datatype HttpRequest = HttpRequest(httpMethod: string, authorization: Option<string>,
    eventId: Option<string>, email: Option<string>, ownerUid: Option<string>)

  datatype HttpBody = NoContent | ErrorBody(error: string) | SuccessBody(message: string, userExists: bool)

  datatype HttpResponse = HttpResponse(status: int, body: HttpBody)

  const InternalServerError := HttpResponse(500, ErrorBody("Internal server error"))
  const InvitedResponse := HttpResponse(200, SuccessBody("User successfully invited", true))
  const MailedResponse := HttpResponse(200, SuccessBody("Invitation email sent", false))

  /** What happens after the address has been added: the account lookup fails, or the account exists, or not. */
  datatype AfterAdd = LookupFailed | PushInvitee | MailInvitee

  /** The outcome of the HTTP checks: answer at once, or add the address and go on. */
  datatype HttpStep = Respond(response: HttpResponse) | AddThen(event: Event, next: AfterAdd)

  /**
   * The checks of `inviteUserToEventHTTP` in their order. The address is used
   * as given for the listed-already check and the account lookup.
   */
  function HttpPlan(req: HttpRequest, events: map<string, EventData>, docs: seq<StoredUser>, unavailable: set<string>): HttpStep {
    if req.httpMethod == "OPTIONS" then Respond(HttpResponse(204, NoContent))
    else if req.httpMethod != "POST" then Respond(HttpResponse(405, ErrorBody("Method not allowed")))
    else if req.authorization.None? || !("Bearer " <= req.authorization.value) then
      Respond(HttpResponse(401, ErrorBody("Unauthorized - Bearer token required")))
    else if !Truthy(req.eventId) || !Truthy(req.email) || !Truthy(req.ownerUid) then
      Respond(HttpResponse(400, ErrorBody("eventId, email, and ownerUid are required")))
    else
      var id, email := req.eventId.value, req.email.value;
      if id in unavailable || (id in events && FromFirestoreData(events[id], id).Err?) then Respond(InternalServerError)
      else if id !in events then Respond(HttpResponse(404, ErrorBody("Event not found")))
      else
        var event := FromFirestoreData(events[id], id).value;
        if event.ownerId != req.ownerUid.value then Respond(HttpResponse(403, ErrorBody("Permission denied - not event owner")))
        else if email in InviteesOf(events[id]) then Respond(HttpResponse(409, ErrorBody("Email already invited")))
        else AddThen(event, if email in unavailable then LookupFailed else if HasAccount(docs, email) then PushInvitee else MailInvitee)
  }

  /**
   * `inviteUserToEventHTTP`: an early answer changes nothing; otherwise the
   * normalised address is added first, and then the account lookup decides
   * between a push and a registration mail, any failure answering 500.
   */
  method InviteUserToEventHttp(req: HttpRequest, store: FirestoreClient, mailer: EmailClient, push: NotificationClient, now: string)
    returns (response: HttpResponse)
    requires mailer.Valid()
    modifies store, mailer, push
    ensures mailer.Valid() && mailer.rejects == old(mailer.rejects)
    ensures store.userConfigurations == old(store.userConfigurations) && store.unavailable == old(store.unavailable)
    ensures var step := HttpPlan(req, old(store.events), old(store.userConfigurations), old(store.unavailable));
      (step.Respond? ==> (response == step.response &&
        store.events == old(store.events) && mailer.outbox == old(mailer.outbox) && push.sent == old(push.sent))) &&
      (step.AddThen? ==> store.events == InviteeAdded(old(store.events), req.eventId.value, NormalizeEmail(req.email.value))) &&
      (step.AddThen? && step.next == LookupFailed ==> (response == InternalServerError &&
        mailer.outbox == old(mailer.outbox) && push.sent == old(push.sent))) &&
      (step.AddThen? && step.next == PushInvitee ==> (response == InvitedResponse && mailer.outbox == old(mailer.outbox) &&
        push.sent == old(push.sent) + NotificationService.Notification(NotificationService.EventInvitation,
          NotificationService.TokensFor(old(store.userConfigurations), old(store.unavailable), [req.email.value]), step.event, now))) &&
      (step.AddThen? && step.next == MailInvitee ==> (push.sent == old(push.sent) &&
        mailer.outbox == old(mailer.outbox) + [InvitationMail(req.email.value, EmailService.MailDataOf(step.event))] &&
        response == (if req.email.value in mailer.rejects then InternalServerError else MailedResponse)))
  {
    if req.httpMethod == "OPTIONS" {
      return HttpResponse(204, NoContent);
    }
    if req.httpMethod != "POST" {
      return HttpResponse(405, ErrorBody("Method not allowed"));
    }
    if req.authorization.None? || !("Bearer " <= req.authorization.value) {
      return HttpResponse(401, ErrorBody("Unauthorized - Bearer token required"));
    }
    if !Truthy(req.eventId) || !Truthy(req.email) || !Truthy(req.ownerUid) {
      return HttpResponse(400, ErrorBody("eventId, email, and ownerUid are required"));
    }
    var eventId, email := req.eventId.value, req.email.value;
    var found := EventService.GetEventById(store, eventId);
    if found.Err? {
      return InternalServerError;
    }
    if found.value.None? {
      return HttpResponse(404, ErrorBody("Event not found"));
    }
    var event := found.value.value;
    if event.ownerId != req.ownerUid.value {
      return HttpResponse(403, ErrorBody("Permission denied - not event owner"));
    }
    var invited := EventService.IsEmailAlreadyInvited(store, eventId, email);
    if invited.Err? {
      return InternalServerError;
    }
    if invited.value {
      return HttpResponse(409, ErrorBody("Email already invited"));
    }
    response := AddThenNotify(store, mailer, push, eventId, email, event, now);
  }

  /** The HTTP tail: add the address, look the account up, then push or mail. */
  method AddThenNotify(store: FirestoreClient, mailer: EmailClient, push: NotificationClient,
      eventId: string, email: string, event: Event, now: string)
    returns (response: HttpResponse)
    requires eventId !in store.unavailable && eventId in store.events && mailer.Valid()
    modifies store, mailer, push
    ensures mailer.Valid() && mailer.rejects == old(mailer.rejects)
    ensures store.userConfigurations == old(store.userConfigurations) && store.unavailable == old(store.unavailable)
    ensures store.events == InviteeAdded(old(store.events), eventId, NormalizeEmail(email))
    ensures email in store.unavailable ==>
      (response == InternalServerError && mailer.outbox == old(mailer.outbox) && push.sent == old(push.sent))
    ensures email !in store.unavailable && HasAccount(store.userConfigurations, email) ==>
      (response == InvitedResponse && mailer.outbox == old(mailer.outbox) &&
       push.sent == old(push.sent) + NotificationService.Notification(NotificationService.EventInvitation,
        NotificationService.TokensFor(store.userConfigurations, store.unavailable, [email]), event, now))
    ensures email !in store.unavailable && !HasAccount(store.userConfigurations, email) ==>
      (push.sent == old(push.sent) &&
       mailer.outbox == old(mailer.outbox) + [InvitationMail(email, EmailService.MailDataOf(event))] &&
       response == (if email in mailer.rejects then InternalServerError else MailedResponse))
  {
    var added := EventService.AddInviteeToEvent(store, eventId, email);
    if added.Err? {
      return InternalServerError;
    }
    var known := UserService.UserExistsByEmail(store, email);
    if known.Err? {
      return InternalServerError;
    }
    if known.value {
      // a failure of the push is caught and logged; the push methods never fail
      var tokens := NotificationService.GetDeviceTokensFromEmails(store, [email]);
      NotificationService.NotifyInvited(push, tokens, event, now);
      response := InvitedResponse;
    } else {
      var sent := EmailService.SendRegistrationInvitation(mailer, email, event);
      if sent.Err? {
        return InternalServerError;
      }
      response := MailedResponse;
    }
  }

  // ---------- what the HTTP endpoint promises ----------

  /**
   * The status codes: 204 for OPTIONS, 405 for another non-POST method, then
   * 401, 400, 404, 403 and 409 for the failing check, otherwise the address is
   * added and the answer is 200 or 500.
   */
  lemma HttpStatusMapping(req: HttpRequest, events: map<string, EventData>, docs: seq<StoredUser>, unavailable: set<string>)
    ensures var step := HttpPlan(req, events, docs, unavailable);
      (req.httpMethod == "OPTIONS" <==> step == Respond(HttpResponse(204, NoContent))) &&
      (req.httpMethod != "OPTIONS" && req.httpMethod != "POST" ==> step.Respond? && step.response.status == 405) &&
      (req.httpMethod == "POST" && (req.authorization.None? || !("Bearer " <= req.authorization.value)) ==>
        step.Respond? && step.response.status == 401) &&
      (step.Respond? ==> step.response.status in {204, 405, 401, 400, 404, 403, 409, 500}) &&
      (step.AddThen? ==> (req.httpMethod == "POST" && req.authorization.Some? && "Bearer " <= req.authorization.value &&
        Truthy(req.eventId) && Truthy(req.email) && Truthy(req.ownerUid) &&
        req.eventId.value in events && events[req.eventId.value].ownerId == req.ownerUid.value &&
        req.email.value !in InviteesOf(events[req.eventId.value])))
  {
  }

  /** Past the 409 check the address is added whether or not an account has it. */
  lemma HttpAddsInBothBranches(req: HttpRequest, events: map<string, EventData>, docs: seq<StoredUser>, unavailable: set<string>)
    requires HttpPlan(req, events, docs, unavailable).AddThen?
    ensures HttpPlan(req, events, docs, unavailable).next == PushInvitee <==> req.email.value !in unavailable && HasAccount(docs, req.email.value)
    ensures HttpPlan(req, events, docs, unavailable).next == MailInvitee <==> req.email.value !in unavailable && !HasAccount(docs, req.email.value)
  {
  }

  // ---------- the raw address in the HTTP endpoint ----------

  /**
   * The HTTP checks with the address normalised first, as the callable does:
   * the listed-already check and the account lookup see the stored form.
   */
  function HttpPlanNormalized(req: HttpRequest, events: map<string, EventData>, docs: seq<StoredUser>, unavailable: set<string>): HttpStep {
    var email := if req.email.Some? then Some(NormalizeEmail(req.email.value)) else None;
    HttpPlan(req.(email := email), events, docs, unavailable)
  }

  /** In the corrected endpoint, addresses that normalise alike are treated alike. */
  lemma NormalizedPlanIgnoresCase(req: HttpRequest, other: string, events: map<string, EventData>, docs: seq<StoredUser>, unavailable: set<string>)
    requires req.email.Some? && NormalizeEmail(other) == NormalizeEmail(req.email.value)
    ensures HttpPlanNormalized(req.(email := Some(other)), events, docs, unavailable) == HttpPlanNormalized(req, events, docs, unavailable)
  {
  }

  /** Once every check up to the invitee list passes, the address is added and the account lookup decides what follows. */
  lemma HttpPlanAfterChecks(req: HttpRequest, events: map<string, EventData>, docs: seq<StoredUser>, unavailable: set<string>)
    requires req.httpMethod == "POST" && req.authorization.Some? && "Bearer " <= req.authorization.value
    requires Truthy(req.eventId) && Truthy(req.ownerUid) && Truthy(req.email)
    requires req.eventId.value !in unavailable && req.eventId.value in events
    requires FromFirestoreData(events[req.eventId.value], req.eventId.value).Ok?
    requires events[req.eventId.value].ownerId == req.ownerUid.value
    requires req.email.value !in InviteesOf(events[req.eventId.value])
    ensures HttpPlan(req, events, docs, unavailable) == AddThen(FromFirestoreData(events[req.eventId.value], req.eventId.value).value,
      if req.email.value in unavailable then LookupFailed else if HasAccount(docs, req.email.value) then PushInvitee else MailInvitee)
  {
  }

  /** An address found in the invitee list, as compared, is refused with 409 once the earlier checks pass. */
  lemma HttpListedAddressConflicts(req: HttpRequest, events: map<string, EventData>, docs: seq<StoredUser>, unavailable: set<string>)
    requires req.httpMethod == "POST" && req.authorization.Some? && "Bearer " <= req.authorization.value
    requires Truthy(req.eventId) && Truthy(req.ownerUid) && Truthy(req.email)
    requires req.eventId.value !in unavailable && req.eventId.value in events
    requires FromFirestoreData(events[req.eventId.value], req.eventId.value).Ok?
    requires events[req.eventId.value].ownerId == req.ownerUid.value
    requires req.email.value in InviteesOf(events[req.eventId.value])
    ensures HttpPlan(req, events, docs, unavailable) == Respond(HttpResponse(409, ErrorBody("Email already invited")))
  {
  }

  /** In the corrected endpoint, an address whose stored form is listed is refused with 409, however it is written. */
  lemma NormalizedPlanFindsListedAddress(req: HttpRequest, events: map<string, EventData>, docs: seq<StoredUser>, unavailable: set<string>)
    requires req.httpMethod == "POST" && req.authorization.Some? && "Bearer " <= req.authorization.value
    requires Truthy(req.eventId) && Truthy(req.ownerUid) && req.email.Some? && NormalizeEmail(req.email.value) != ""
    requires req.eventId.value !in unavailable && req.eventId.value in events
    requires FromFirestoreData(events[req.eventId.value], req.eventId.value).Ok?
    requires events[req.eventId.value].ownerId == req.ownerUid.value
    requires NormalizeEmail(req.email.value) in InviteesOf(events[req.eventId.value])
    ensures HttpPlanNormalized(req, events, docs, unavailable) == Respond(HttpResponse(409, ErrorBody("Email already invited")))
  {
    HttpListedAddressConflicts(req.(email := Some(NormalizeEmail(req.email.value))), events, docs, unavailable);
  }

  /** An event owned by "o" whose invitee list is empty, with the dates set. */
  function SampleEvent(): (d: EventData)
    ensures FromFirestoreData(d, "e").Ok? && d.ownerId == "o" && InviteesOf(d) == []
  {
    EventData("t", "", Some(JsDate(0)), "", "", "o", "", Some(JsDate(0)), 0, Some([]), "")
  }

  /** The one stored account of the counterexample, registered as "a@b.co". */
  function SampleAccounts(): (docs: seq<StoredUser>)
    ensures HasAccount(docs, "a@b.co") && !HasAccount(docs, "A@b.co")
  {
    var docs := [StoredUser("u", UserConfigurationModel.UserConfigurationData("a@b.co", "uid", UserConfigurationModel.User, true, None))];
    assert docs[0].data.email[0] != "A@b.co"[0];
    docs
  }

  lemma CapitalisedSampleNormalizes()
    ensures NormalizeEmail("A@b.co") == "a@b.co"
  {
    assert LowerAscii("A@b.co") == "a@b.co";
    assert TrimStart("a@b.co") == "a@b.co";
    assert TrimEnd("a@b.co") == "a@b.co";
  }

  /** A request from the owner "o" of event "e" inviting "A@b.co". */
  function SampleRequest(): HttpRequest {
    HttpRequest("POST", Some("Bearer x"), Some("e"), Some("A@b.co"), Some("o"))
  }

  /** The request passes every check up to the invitee list. */
  lemma SampleRequestPassesChecks()
    ensures var req := SampleRequest();
      req.httpMethod == "POST" && req.authorization.Some? && "Bearer " <= req.authorization.value &&
      Truthy(req.eventId) && Truthy(req.ownerUid) && Truthy(req.email) && req.eventId.value == "e"
  {
    assert "Bearer " <= "Bearer x";
  }

  /** As written, the request is compared with the raw "A@b.co" and a registration mail follows. */
  lemma RawSampleMailsInvitation()
    ensures HttpPlan(SampleRequest(), map["e" := SampleEvent()], SampleAccounts(), {}) ==
      AddThen(FromFirestoreData(SampleEvent(), "e").value, MailInvitee)
  {
    SampleRequestPassesChecks();
    HttpPlanAfterChecks(SampleRequest(), map["e" := SampleEvent()], SampleAccounts(), {});
  }

  /** The corrected endpoint runs the checks on the normalised address. */
  lemma NormalizedPlanIsPlanOf(req: HttpRequest, n: string, events: map<string, EventData>, docs: seq<StoredUser>, unavailable: set<string>)
    requires req.email.Some? && NormalizeEmail(req.email.value) == n
    ensures HttpPlanNormalized(req, events, docs, unavailable) == HttpPlan(req.(email := Some(n)), events, docs, unavailable)
  {
  }

  /**
   * As written, an address whose normal form belongs to an account, but
   * which is itself written differently (say "A@b.co" for an account stored
   * as "a@b.co"), is not found: the endpoint lists the normal form and then
   * mails a registration invitation to a registered user, where the
   * corrected endpoint pushes to the account.
   */
  lemma HttpRawAddressMissesAccount(req: HttpRequest, events: map<string, EventData>, docs: seq<StoredUser>, unavailable: set<string>)
    requires req.httpMethod == "POST" && req.authorization.Some? && "Bearer " <= req.authorization.value
    requires Truthy(req.eventId) && Truthy(req.ownerUid) && Truthy(req.email)
    requires req.eventId.value !in unavailable && req.eventId.value in events
    requires FromFirestoreData(events[req.eventId.value], req.eventId.value).Ok?
    requires events[req.eventId.value].ownerId == req.ownerUid.value
    requires InviteesOf(events[req.eventId.value]) == []
    requires unavailable == {}
    requires NormalizeEmail(req.email.value) != ""
    requires HasAccount(docs, NormalizeEmail(req.email.value)) && !HasAccount(docs, req.email.value)
    ensures HttpPlan(req, events, docs, unavailable) ==
      AddThen(FromFirestoreData(events[req.eventId.value], req.eventId.value).value, MailInvitee)
    ensures HttpPlanNormalized(req, events, docs, unavailable) ==
      AddThen(FromFirestoreData(events[req.eventId.value], req.eventId.value).value, PushInvitee)
  {
    HttpPlanAfterChecks(req, events, docs, unavailable);
    HttpPlanAfterChecks(req.(email := Some(NormalizeEmail(req.email.value))), events, docs, unavailable);
  }
}
