# EventMate notification and invitation pipeline, in Dafny

EventMate is an event-planning application. This project models the parts of its Firebase backend that decide who is told what, plus a few pure validators and mappers from its React front end:

- **Entities.** `Event` and `UserConfiguration` with their store conversions (`event_model.dfy`, `user_configuration_model.dfy`). Dates are a sum of a JavaScript `Date`, a `{ toDate }` wrapper and a Firestore `Timestamp`.
- **The store.** `FirestoreClient` is a class over an in-memory map of event documents and a sequence of user-configuration documents in an abstract store order: queries return their matches in that order, and a new document goes at the end. A set of keys whose reads fail models an unreachable backend (`firestore_client.dfy`).
- **Services.** User lookups (`user_service.dfy`), device-token collection in batches of ten and the `notify*` pushes (`notification_service.dfy`), mails about events (`email_service.dfy`), and event reads, invitee writes and change detection (`event_service.dfy`).
- **Transports.** The push client (`notification_client.dfy`) and the mail client (`email_client.dfy`) are classes that record what they send. The mail client also holds a set of recipients whose sends fail.
- **Handlers.** The `onEventsWritten` trigger (`event_change_handler.dfy`) and the two invitation endpoints, callable and HTTP (`invite_user_handler.dfy`).
- **Front end.** The zod form schemas (`zod_checks.dfy`, `event_schema.dfy`, `register_schema.dfy`, `login_schema.dfy`), the Firebase Auth error-message mapping (`error_messages.dfy`) and the avatar initials (`avatar.dfy`).
- **Shared helpers.** JavaScript white space, `trim`, ASCII case mapping and `split` (`text.dfy`); the email regular expression `^[^\s@]+@[^\s@]+\.[^\s@]+$` (`email_format.dfy`); `Option` and `Result` (`wrappers.dfy`).

Each effectful operation is a method whose postcondition ties the new state to a pure function of the old one. The properties are lemmas about those functions. Examples:

- The trigger mails every invitee, and pushes only to registered users' tokens.
- Adding an invitee is idempotent.
- The token batches cover the input.
- The invitation checks run in a fixed order.
- Change detection is exact.

Two behaviours of the code a reader may not expect:

- An invitee whose account exists with notifications switched off is not a "registered user" for the trigger, so that invitee gets the mail for unregistered addresses and no push. That invitee is still reached.
- The HTTP invitation endpoint runs its already-invited check and its account lookup on the address as given, not on the lower-cased, trimmed form. It stores the normalised form (see Findings).

Outside inputs are parameters. The current time (`new Date().toISOString()`), fresh uuids and the es-ES date formatting are passed in or kept symbolic. The failures of the store and of the mail server are fixed sets in the state.

## Model

| member | source | states |
|---|---|---|
| EventModel.TimestampMillis | eventmate-functions/functions/src/features/events/services/event.service.ts:14-16 | a Timestamp's `toMillis()` is its nanosecond count floored to the millisecond, an integer |
| EventModel.TimestampDateMillis | eventmate-functions/functions/src/features/events/models/event.model.ts:67 | a Timestamp's `toDate()` falls on the millisecond nearest to it, a half rounding up |
| EventModel.FromFirestoreData | eventmate-functions/functions/src/features/events/models/event.model.ts:95-110 | reading event data succeeds exactly when both date fields are present, and a missing one fails with the TypeError of calling `toDate` on undefined |
| EventModel.FromFirestore | eventmate-functions/functions/src/features/events/models/event.model.ts:59-77 | a snapshot without data fails with "Firestore document has no data" |
| EventModel.FromFirestoreAgrees | eventmate-functions/functions/src/features/events/models/event.model.ts:59-77 | on an existing snapshot `fromFirestore` is `fromFirestoreData` applied to its data and its id |
| EventModel.RoundTrip | eventmate-functions/functions/src/features/events/models/event.model.ts:79-110 | writing an event with `toFirestore` and reading it back under its id gives the same event |
| EventModel.ToFirestoreKeepsFields | eventmate-functions/functions/src/features/events/models/event.model.ts:79-93 | `toFirestore` keeps every field but the id, with the invitee list present and both dates at the same instant |
| EventModel.StoredRoundTrip | eventmate-functions/functions/src/features/events/models/event.model.ts:95-110 | reading stored data and writing it back reproduces it field for field, dates as the same instants and a missing invitee list as `[]` |
| EventModel.MissingInviteesAreEmpty | eventmate-functions/functions/src/features/events/models/event.model.ts:107 | a document without an invitee list reads as an event with no invitees |
| EventModel.DateResolution | eventmate-functions/functions/src/features/events/models/event.model.ts:100-105 | a Date is kept as it is; a Timestamp resolves to its floored `toMillis()` when its sub-millisecond part is below a half, and one millisecond later otherwise |
| UserConfigurationModel.NewUserConfiguration | eventmate-functions/functions/src/features/events/models/user-configuration.model.ts:22-36 | the constructor uses the given id or a fresh uuid, enables notifications only for an explicit `true`, and keeps the other fields |
| UserConfigurationModel.FromFirestore | eventmate-functions/functions/src/features/events/models/user-configuration.model.ts:38-52 | reading fails exactly when the snapshot has no data; the document id becomes the configuration's id |
| UserConfigurationModel.RoundTrip | eventmate-functions/functions/src/features/events/models/user-configuration.model.ts:38-62 | storing a configuration and reading it back under a document id changes only the id |
| UserConfigurationModel.StoredRoundTrip | eventmate-functions/functions/src/features/events/models/user-configuration.model.ts:38-62 | reading stored data and writing it back gives the stored data unchanged |
| UserConfigurationModel.ConstructorDefaults | eventmate-functions/functions/src/features/events/models/user-configuration.model.ts:30-35 | without the optional arguments the flag is off, the id is freshly drawn and there is no device token |
| Firestore.WithEmail | eventmate-functions/functions/src/features/shared/infrastructure/firestore.client.ts:48-59 | the equality query returns exactly the stored documents with that exact email, no more of them than the collection holds |
| Firestore.WithEmailIn | eventmate-functions/functions/src/features/events/services/notification.service.ts:16-19 | the `in` query returns exactly the stored documents whose email is one of the batch |
| Firestore.FirstWithEmail | eventmate-functions/functions/src/features/shared/infrastructure/firestore.client.ts:85-93 | nothing is found iff no document has exactly that email; what is found is a stored document with that email |
| Firestore.FirstWithEmailIsFirst | eventmate-functions/functions/src/features/shared/infrastructure/firestore.client.ts:85-93 | the document found precedes every other document with the same email |
| Firestore.HeadOfQueryIsFirst | eventmate-functions/functions/src/features/shared/infrastructure/firestore.client.ts:92 | the head of the equality query, or null for an empty result, is the first match |
| Firestore.WithInvitee | eventmate-functions/functions/src/features/shared/infrastructure/firestore.client.ts:76-82 | the invitee list gains the address at the end exactly when it is absent (a missing list counting as `[]`); nothing else in the event data changes |
| Firestore.InviteeAdded | eventmate-functions/functions/src/features/shared/infrastructure/firestore.client.ts:79-82 | adding an invitee touches only that event's document |
| Firestore.InviteeAddedIdempotent | eventmate-functions/functions/src/features/shared/infrastructure/firestore.client.ts:79 | adding the same invitee twice leaves the store as adding it once |
| Firestore.WithInviteeKeepsDistinct | eventmate-functions/functions/src/features/shared/infrastructure/firestore.client.ts:79-80 | an invitee list without duplicates stays without duplicates, and the added address occurs exactly once |
| Firestore.Upsert | eventmate-functions/functions/src/features/shared/infrastructure/firestore.client.ts:28 | `doc(id).set(data)` stores the document, keeps every document with another id and adds nothing else |
| Firestore.FirestoreClient.GetEventDocument | eventmate-functions/functions/src/features/shared/infrastructure/firestore.client.ts:14-20 | a read fails only when the store is unreachable; otherwise it gives null iff the document does not exist, and the stored data when it does |
| Firestore.FirestoreClient.CreateUserConfigurationDocument | eventmate-functions/functions/src/features/shared/infrastructure/firestore.client.ts:22-34 | with an id the document is stored under that id, which is returned; without one under, and returning, the store's generated id, which no stored document has, so the document is appended and nothing is replaced |
| Firestore.FirestoreClient.AddInviteeToEvent | eventmate-functions/functions/src/features/shared/infrastructure/firestore.client.ts:69-83 | a missing event fails with "Event not found" and changes nothing; otherwise the normalised address is appended when absent and nothing else changes |
| Firestore.FirestoreClient.QueryByEmail | eventmate-functions/functions/src/features/shared/infrastructure/firestore.client.ts:48-59 | the equality query on `userConfigurations` |
| Firestore.FirestoreClient.QueryByEmailIn | eventmate-functions/functions/src/features/events/services/notification.service.ts:16-19 | the `in` query on `userConfigurations`, failing when a queried email is unreachable |
| Firestore.FirestoreClient.GetUserByEmail | eventmate-functions/functions/src/features/shared/infrastructure/firestore.client.ts:85-93 | the first document with exactly that email, or null |
| UserService.ToUser | eventmate-functions/functions/src/features/events/services/user.service.ts:37-39 | a queried document read as a configuration keeps the document's id and data |
| UserService.LookupUserFinds | eventmate-functions/functions/src/features/events/services/user.service.ts:27-48 | the lookup finds nothing iff no configuration has exactly that email; what it finds has that email and is stored |
| UserService.RegisteredUsers | eventmate-functions/functions/src/features/events/services/user.service.ts:120-143 | the list of users has at most one entry per input email |
| UserService.RegisteredUsersAppend | eventmate-functions/functions/src/features/events/services/user.service.ts:126-131 | the result for a concatenation of email lists is the concatenation of their results: output order follows input order, and duplicates are looked up once per occurrence |
| UserService.EnabledUserMembers | eventmate-functions/functions/src/features/events/services/user.service.ts:127-130 | one email contributes a user iff its lookup finds that user with notifications on |
| UserService.RegisteredUsersSound | eventmate-functions/functions/src/features/events/services/user.service.ts:126-131 | every returned user has notifications on and was looked up from an input email |
| UserService.RegisteredUsersComplete | eventmate-functions/functions/src/features/events/services/user.service.ts:126-131 | every user with notifications on looked up from an input email is returned |
| UserService.RegisteredUsersCompleteAt | eventmate-functions/functions/src/features/events/services/user.service.ts:126-131 | the user found for the email at any input position is returned when its notifications are on |
| UserService.RegisteredUsersMembers | eventmate-functions/functions/src/features/events/services/user.service.ts:126-131 | a user is returned iff some input email looks it up and its notifications are on |
| UserService.RegisteredUsersAreEnabled | eventmate-functions/functions/src/features/events/services/user.service.ts:126-131 | every returned user has notifications on, an email from the input list and a stored document |
| UserService.UserExistsByEmail | eventmate-functions/functions/src/features/events/services/user.service.ts:9-22 | true iff some configuration has exactly that email, whatever its flag; a failed lookup is rethrown with "Failed to check user existence: " |
| UserService.GetUserByEmail | eventmate-functions/functions/src/features/events/services/user.service.ts:27-48 | the first configuration with exactly that email, or null; a failed lookup is rethrown with "Failed to get user: " |
| UserService.CreateUserConfiguration | eventmate-functions/functions/src/features/events/services/user.service.ts:53-84 | the stored configuration has the role given or `user`, the flag on only when explicitly true, no device token, and the store's fresh generated id, which is returned; the new document is appended after the stored ones |
| UserService.GetUsersByEmails | eventmate-functions/functions/src/features/events/services/user.service.ts:120-143 | the looked-up users with notifications on, in input order; a failed lookup aborts with "Failed to get users by emails: " |
| NotificationService.BatchesCover | eventmate-functions/functions/src/features/events/services/notification.service.ts:13-15 | the slices the loop queries have 1 to 10 emails each and together are the input, each index exactly once |
| NotificationService.DocTokens | eventmate-functions/functions/src/features/events/services/notification.service.ts:21-33 | a batch gives at most one token per document |
| NotificationService.DocTokensMembers | eventmate-functions/functions/src/features/events/services/notification.service.ts:21-33 | a token is contributed iff an accepted document carries it |
| NotificationService.TokenOfBatch | eventmate-functions/functions/src/features/events/services/notification.service.ts:16-33 | a batch's query contributes a token iff an accepted account with an email in the batch has it |
| NotificationService.CollectedMembers | eventmate-functions/functions/src/features/events/services/notification.service.ts:14-34 | a token is collected over the batches iff an accepted account with an email in one of them has it |
| NotificationService.CollectedTokensMembers | eventmate-functions/functions/src/features/events/services/notification.service.ts:7-45 | a token is collected iff an account with one of the emails has notifications on and that token, non-empty with trimmed length at least 20 (stored untrimmed) |
| NotificationService.NoEmailsNoTokens | eventmate-functions/functions/src/features/events/services/notification.service.ts:9-10 | no email, no token |
| NotificationService.BatchTokens | eventmate-functions/functions/src/features/events/services/notification.service.ts:21-33 | the loop over one batch's documents keeps exactly the collectible tokens in store order |
| NotificationService.CollectBatch | eventmate-functions/functions/src/features/events/services/notification.service.ts:15-33 | one iteration fails iff an email of its slice is unreachable, and otherwise gives the slice's collectible tokens |
| NotificationService.GetDeviceTokensFromEmails | eventmate-functions/functions/src/features/events/services/notification.service.ts:7-45 | `[]` when any lookup fails, otherwise the collected tokens of all batches in order |
| NotificationService.Notification | eventmate-functions/functions/src/features/events/services/notification.service.ts:47-78 | an empty token list asks for no push |
| NotificationService.PushTypeInjective | eventmate-functions/functions/src/features/events/services/notification.service.ts:47-78 | the payload `type` of each kind names that kind and no other |
| NotificationService.NotificationIsOneMulticast | eventmate-functions/functions/src/features/events/services/notification.service.ts:47-78 | with a valid token the call is one multicast to the valid tokens |
| NotificationService.NotificationData | eventmate-functions/functions/src/features/events/services/notification.service.ts:47-78 | the message carries the kind's title, the body naming the event, its type, id and title, and the timestamp, and no other key |
| NotificationService.NotificationShape | eventmate-functions/functions/src/features/events/services/notification.service.ts:47-78 | every push is a multicast of the kind's type to tokens from the given list |
| NotificationService.NotifyEventUpdated | eventmate-functions/functions/src/features/events/services/notification.service.ts:47-56 | sends the `event_updated` multicast, or nothing for no tokens |
| NotificationService.NotifyEventCancelled | eventmate-functions/functions/src/features/events/services/notification.service.ts:58-67 | sends the `event_cancelled` multicast, or nothing for no tokens |
| NotificationService.NotifyInvited | eventmate-functions/functions/src/features/events/services/notification.service.ts:69-78 | sends the `event_invitation` multicast, or nothing for no tokens |
| Messaging.JsString | eventmate-functions/functions/src/features/shared/infrastructure/notification.client.ts:7 | `String(value)` leaves a string unchanged |
| Messaging.Stringified | eventmate-functions/functions/src/features/shared/infrastructure/notification.client.ts:4-11 | the converted record has the input's keys plus `timestamp` |
| Messaging.StringifiedValues | eventmate-functions/functions/src/features/shared/infrastructure/notification.client.ts:4-11 | every key but `timestamp` keeps its converted value; `timestamp` is always the current time, overwriting an input `timestamp` |
| Messaging.StringifyData | eventmate-functions/functions/src/features/shared/infrastructure/notification.client.ts:4-11 | the loop over the entries followed by the timestamp gives the converted record |
| Messaging.MessageData | eventmate-functions/functions/src/features/shared/infrastructure/notification.client.ts:60-66 | the message data has `title`, `body`, the data keys and `timestamp` |
| Messaging.MessageDataOverrides | eventmate-functions/functions/src/features/shared/infrastructure/notification.client.ts:60-66 | the spread comes last: a `title` or `body` key in the data overrides the argument |
| Messaging.ValidTokens | eventmate-functions/functions/src/features/shared/infrastructure/notification.client.ts:52-54 | the filter keeps no more tokens than it is given |
| Messaging.ValidTokensCounts | eventmate-functions/functions/src/features/shared/infrastructure/notification.client.ts:52-54 | each accepted token is kept as often as it occurs and every other token is dropped |
| Messaging.ValidTokensMembers | eventmate-functions/functions/src/features/shared/infrastructure/notification.client.ts:52-54 | a token survives iff it is in the input and its trimmed length is at least 20 |
| Messaging.ValidTokensAppend | eventmate-functions/functions/src/features/shared/infrastructure/notification.client.ts:52-54 | the filter keeps input order: it distributes over concatenation |
| Messaging.MulticastAcceptedIsDeviceAccepted | eventmate-functions/functions/src/features/shared/infrastructure/notification.client.ts:21-53 | every token the multicast filter accepts passes the single-device guard |
| Messaging.DeviceAcceptedNotMulticast | eventmate-functions/functions/src/features/shared/infrastructure/notification.client.ts:21-53 | the converse fails: a 19-character token with a trailing space passes the untrimmed guard and not the trimmed one |
| Messaging.MulticastAttempt | eventmate-functions/functions/src/features/shared/infrastructure/notification.client.ts:52-73 | at most one multicast, made iff some token is accepted |
| Messaging.MulticastAttemptShape | eventmate-functions/functions/src/features/shared/infrastructure/notification.client.ts:52-73 | the multicast goes to the filtered tokens with the message data built from the arguments |
| Messaging.NotificationClient.SendToDevice | eventmate-functions/functions/src/features/shared/infrastructure/notification.client.ts:14-43 | a token that is empty or shorter than 20 is skipped; otherwise one data-only message goes to it |
| Messaging.NotificationClient.SendToMultipleDevices | eventmate-functions/functions/src/features/shared/infrastructure/notification.client.ts:45-83 | sends the multicast of the filtered tokens, or nothing when none remain |
| Mailer.RenderTemplate | eventmate-functions/functions/src/features/shared/infrastructure/email.client.ts:53-61 | a known template name selects its page (invitation, update, cancelled) and any other name renders no body; a rendered page carries the given context and shows the description section exactly when the description is non-empty |
| Mailer.InvitationMailShape | eventmate-functions/functions/src/features/shared/infrastructure/email.client.ts:658-672 | an invitation goes to its recipient with subject "Invitación al evento: " plus the title, uses the invitation page with the registration link of the app, carries title and date, and shows the description section iff the description is non-empty |
| Mailer.ChangeMailShape | eventmate-functions/functions/src/features/shared/infrastructure/email.client.ts:674-699 | a cancellation selects the cancelled page and subject "Evento cancelado: " plus the title; an update selects the update page and "Actualización del evento: " plus the title; the change kind travels in the context |
| Mailer.ChangeSubjectsDiffer | eventmate-functions/functions/src/features/shared/infrastructure/email.client.ts:681-684 | the cancellation and update subjects differ for every title |
| Mailer.EmailClient.EnsureTransporter | eventmate-functions/functions/src/features/shared/infrastructure/email.client.ts:30-42 | the transporter is created on first use only: the creation count grows by one iff none existed, and the outbox is untouched |
| Mailer.EmailClient.SendEmail | eventmate-functions/functions/src/features/shared/infrastructure/email.client.ts:44-76 | after the call exactly one transporter exists, exactly one mail (recipient, subject, rendered template) is appended, and the call fails iff the server rejects the recipient, with the error prefixed "Failed to send email:" |
| Mailer.EmailClient.SendInvitationEmail | eventmate-functions/functions/src/features/shared/infrastructure/email.client.ts:658-672 | appends exactly the invitation mail for the recipient and event data; fails iff the recipient is rejected |
| Mailer.EmailClient.SendEventUpdateEmail | eventmate-functions/functions/src/features/shared/infrastructure/email.client.ts:674-699 | appends exactly the change mail for the recipient, event data and change type; fails iff the recipient is rejected |
| EmailService.ChangeMails | eventmate-functions/functions/src/features/events/services/email.service.ts:126-128 | a fan-out attempts exactly one mail per address |
| EmailService.ChangeMailsAt | eventmate-functions/functions/src/features/events/services/email.service.ts:126-128 | the fan-out's mail at each position is the change mail for the address at that position, built from the event |
| EmailService.ChangeMailsRecipients | eventmate-functions/functions/src/features/events/services/email.service.ts:126-128 | the fan-out's mail at each position goes to the address at that position |
| EmailService.ChangeMailsStep | eventmate-functions/functions/src/features/events/services/email.service.ts:126-128 | one more address adds one more mail, at the end |
| EmailService.EmailsAt | eventmate-functions/functions/src/features/events/services/email.service.ts:54-56 | the addresses of a user list are the users' emails, position by position |
| EmailService.SendRegistrationInvitation | eventmate-functions/functions/src/features/events/services/email.service.ts:10-37 | appends exactly the invitation mail built from the event (date formatted); fails iff the address is rejected, with "Failed to send invitation email: Error: " ahead of the client's message |
| EmailService.SendEventChangeToUser | eventmate-functions/functions/src/features/events/services/email.service.ts:78-109 | appends exactly the change mail for the address and never fails: a rejected send is swallowed |
| EmailService.SendEventChangeNotification | eventmate-functions/functions/src/features/events/services/email.service.ts:42-73 | attempts one change mail per user, in the users' order, whatever happens to each attempt |
| EmailService.CountOf | eventmate-functions/functions/src/features/events/services/email.service.ts:132-137 | a count of settlements never exceeds the number of settlements |
| EmailService.CountsPartition | eventmate-functions/functions/src/features/events/services/email.service.ts:132-137 | the fulfilled and rejected counts add up to the number of attempts |
| EmailService.NoRejection | eventmate-functions/functions/src/features/events/services/email.service.ts:135-137 | a run of fulfilled attempts counts no rejection |
| EmailService.SendNotificationToInvitees | eventmate-functions/functions/src/features/events/services/email.service.ts:114-153 | attempts one change mail per invitee in order; the successful and failed counts add up to the number of invitees and failed is always 0, since each attempt swallows its failure |
| EmailService.SendEmailWithValidation | eventmate-functions/functions/src/features/events/services/email.service.ts:177-210 | an address outside the regex shape is refused with "Invalid email format: " plus the address and nothing is sent; any other is sent once and fails iff the server rejects it, with the client's error rethrown |
| EventService.GetTime | eventmate-functions/functions/src/features/events/services/event.service.ts:9-27 | a date field has a millisecond value exactly when it is present; a wrapper and a Date answer the time of their Date, a Timestamp its floored `toMillis()` |
| EventService.SameInstantSameTime | eventmate-functions/functions/src/features/events/services/event.service.ts:9-27 | a Date, a toDate wrapper and a Timestamp that hold the same whole millisecond resolve to the same time |
| EventService.TimestampTimeIsDateTimeIff | eventmate-functions/functions/src/features/events/services/event.service.ts:14-20 | a Timestamp's `getTime` equals the time of its own `toDate()` exactly when its sub-millisecond part is below half a millisecond |
| EventService.InviteesChangedIff | eventmate-functions/functions/src/features/events/services/event.service.ts:164-170 | the length-then-position comparison of invitee arrays is exactly sequence inequality |
| EventService.AnyChangedIff | eventmate-functions/functions/src/features/events/services/event.service.ts:127-185 | the some over the five important fields is false exactly when title, description, place, date time and invitees (missing read as empty) all agree |
| EventService.CancelledIffDeleted | eventmate-functions/functions/src/features/events/services/event.service.ts:123 | the result is cancelled exactly when the after snapshot is absent and the before snapshot exists, whatever the fields hold |
| EventService.CreationIsNoChange | eventmate-functions/functions/src/features/events/services/event.service.ts:123-190 | an absent before snapshot (a creation, or both absent) yields no change |
| EventService.UpdatedIffSignificantChange | eventmate-functions/functions/src/features/events/services/event.service.ts:124-190 | with both snapshots present the result is updated exactly when a significant field differs, and no change exactly when they all agree |
| EventService.ReorderedInviteesAreUpdate | eventmate-functions/functions/src/features/events/services/event.service.ts:164-170 | swapping two distinct invitees is reported as updated although the set of invitees is unchanged |
| EventService.MissingInviteesCompareAsEmpty | eventmate-functions/functions/src/features/events/services/event.service.ts:166-167 | a missing invitee list compares equal to an empty one |
| EventService.SubMillisecondMoveIff | eventmate-functions/functions/src/features/events/services/event.service.ts:14-16 | moving a Timestamp date within the same floored millisecond is no change, and moving it to another millisecond is an update |
| EventService.UnreportedHalfMillisecondMove | eventmate-functions/functions/src/features/events/services/event.service.ts:14-16 | a move from 499999 to 500000 nanoseconds is not reported, although the event read through `toDate()` moves one millisecond later |
| EventService.OtherFieldsIgnored | eventmate-functions/functions/src/features/events/services/event.service.ts:127-133 | changes to image, category, attendee count, owner and creation date alone never yield updated |
| EventService.GetEventById | eventmate-functions/functions/src/features/events/services/event.service.ts:30-54 | fails (prefixed "Failed to get event: ") exactly when the read fails or the stored data does not convert; none exactly when the document does not exist; otherwise the converted stored event |
| EventService.AddInviteeToEvent | eventmate-functions/functions/src/features/events/services/event.service.ts:56-69 | succeeds exactly when the event exists and is readable, and then the store holds the lower-cased, trimmed address appended to the invitees; otherwise nothing changes and the error is prefixed "Failed to add invitee: " |
| EventService.IsEmailAlreadyInvited | eventmate-functions/functions/src/features/events/services/event.service.ts:99-106 | a missing event is the error "Event not found"; any other failure keeps the "Failed to get event: " prefix; on success the answer is exact, case-sensitive membership of the address in the stored invitees |
| EventService.GetEventInvitees | eventmate-functions/functions/src/features/events/services/event.service.ts:108-117 | a missing event is the error "Event not found"; any other failure keeps the "Failed to get event: " prefix; on success the stored invitee list, empty when the field is missing |
| EventChangeHandler.ToDate | eventmate-functions/functions/src/features/events/handlers/event-change.handler.ts:17-21 | a date field has an instant exactly when it is present |
| EventChangeHandler.LabelsOf | eventmate-functions/functions/src/features/events/handlers/event-change.handler.ts:35-44 | the loop pushes at most one label per listed field |
| EventChangeHandler.ChangedLabelsSpelledOut | eventmate-functions/functions/src/features/events/handlers/event-change.handler.ts:26-47 | the labels are, in this order, "Título", "Descripción", "Fecha" and "Lugar", each present exactly when its field differs (the date by its Date's time) |
| EventChangeHandler.ChangedLabelsDistinct | eventmate-functions/functions/src/features/events/handlers/event-change.handler.ts:26-47 | no label is reported twice |
| EventChangeHandler.InviteesNeverReported | eventmate-functions/functions/src/features/events/handlers/event-change.handler.ts:28-33 | a write that changes only the invitee list reports no label |
| EventChangeHandler.DetectImportantChanges | eventmate-functions/functions/src/features/events/handlers/event-change.handler.ts:26-47 | the loop over the labelled fields returns exactly the labels of the fields that differ, in field order (the trigger never calls it) |
| EventChangeHandler.Unregistered | eventmate-functions/functions/src/features/events/handlers/event-change.handler.ts:125-127 | the filter keeps no more addresses than it was given |
| EventChangeHandler.UnregisteredCounts | eventmate-functions/functions/src/features/events/handlers/event-change.handler.ts:125-127 | every occurrence of an unregistered address is kept and every occurrence of a registered one dropped |
| EventChangeHandler.UnregisteredMembers | eventmate-functions/functions/src/features/events/handlers/event-change.handler.ts:125-127 | an address survives the filter iff it is an invitee whose email no registered user has |
| EventChangeHandler.NoActionIff | eventmate-functions/functions/src/features/events/handlers/event-change.handler.ts:61-121 | the trigger does nothing exactly when there is no write data, no change, the reported version does not convert, it has no invitees, or an invitee's account lookup fails |
| EventChangeHandler.NoActionSendsNothing | eventmate-functions/functions/src/features/events/handlers/event-change.handler.ts:61-121 | a trigger that does nothing sends neither mail nor push |
| EventChangeHandler.NothingWithoutChangeOrInvitees | eventmate-functions/functions/src/features/events/handlers/event-change.handler.ts:61-121 | no write data, no change or no invitees: nothing is sent |
| EventChangeHandler.ReportedVersion | eventmate-functions/functions/src/features/events/handlers/event-change.handler.ts:94-108 | a cancellation reports the old version and its invitees, an update the new version and its invitees (a missing list read as empty) |
| EventChangeHandler.AudiencePartition | eventmate-functions/functions/src/features/events/handlers/event-change.handler.ts:123-127 | the registered users are exactly the looked-up accounts of invitees with notifications on; the other addresses are exactly the invitees whose email no registered user has |
| EventChangeHandler.EveryInviteeMailed | eventmate-functions/functions/src/features/events/handlers/event-change.handler.ts:129-162 | every invitee is the recipient of some mail, through an account or directly |
| EventChangeHandler.PushKindMatchesChange | eventmate-functions/functions/src/features/events/handlers/event-change.handler.ts:131-152 | a push happens only when there are registered users, and its payload type is event_cancelled for a cancellation and event_updated otherwise |
| EventChangeHandler.PushedTokensCollected | eventmate-functions/functions/src/features/events/handlers/event-change.handler.ts:140-142 | every pushed token is one collected for the registered users' emails |
| EventChangeHandler.CollectedTokenOwner | eventmate-functions/functions/src/features/events/handlers/event-change.handler.ts:140-142 | a collected token belongs to a stored account, with notifications on, whose email is a registered user's |
| EventChangeHandler.PushTokensAreRegistered | eventmate-functions/functions/src/features/events/handlers/event-change.handler.ts:131-152 | an address outside the registered group is never pushed to: every pushed token is the device token of a registered user's account |
| EventChangeHandler.OnEventsWritten | eventmate-functions/functions/src/features/events/handlers/event-change.handler.ts:52-177 | the mails sent and pushes made are exactly those of the trigger's plan: the registered users' mails, then their push, then the other addresses' mails; no failure escapes |
| EventChangeHandler.Dispatch | eventmate-functions/functions/src/features/events/handlers/event-change.handler.ts:129-164 | a notifying plan sends exactly its mails and its pushes |
| EventChangeHandler.NotifyRegistered | eventmate-functions/functions/src/features/events/handlers/event-change.handler.ts:131-152 | with registered users, one change mail each and then one push of the change's kind to their collected tokens |
| InviteUserHandler.Rethrow | eventmate-functions/functions/src/features/events/handlers/invite-user.handler.ts:100-115 | an HttpsError is rethrown unchanged and any other failure becomes internal with the fixed message |
| InviteUserHandler.InviteUserToEvent | eventmate-functions/functions/src/features/events/handlers/invite-user.handler.ts:16-117 | the outcome, the stored events, the outbox and the pushes are exactly the effects of the step the ordered checks choose for the normalised address: a refusal changes nothing, an existing account is listed and pushed to, any other address is mailed and the call fails with internal iff the mail fails |
| InviteUserHandler.InviteAddress | eventmate-functions/functions/src/features/events/handlers/invite-user.handler.ts:20-40 | the caller, required-field and format checks refuse in that order; past them the effects are those of the later checks |
| InviteUserHandler.InviteToStoredEvent | eventmate-functions/functions/src/features/events/handlers/invite-user.handler.ts:48-58 | a failed read is internal, a missing event not-found, another owner permission-denied; otherwise the effects of the invitee and account checks |
| InviteUserHandler.OwnedEventStep | eventmate-functions/functions/src/features/events/handlers/invite-user.handler.ts:60-99 | for a readable event the caller owns, only the invitee list and the account lookup remain to decide |
| InviteUserHandler.CheckInviteesThenInvite | eventmate-functions/functions/src/features/events/handlers/invite-user.handler.ts:60-99 | an address already listed is refused with already-exists; a failed account lookup is internal; an existing account is added and pushed to, any other address mailed |
| InviteUserHandler.AddExistingInvitee | eventmate-functions/functions/src/features/events/handlers/invite-user.handler.ts:72-85 | the normalised address is appended to the invitees, one invitation push goes to the account's tokens and the result is added_as_invitee |
| InviteUserHandler.PushInvitation | eventmate-functions/functions/src/features/events/handlers/invite-user.handler.ts:76-79 | exactly one invitation notification for the tokens collected for the address |
| InviteUserHandler.CallerChecksComeFirst | eventmate-functions/functions/src/features/events/handlers/invite-user.handler.ts:20-40 | no caller refuses first whatever the rest holds, then a missing event id or empty address, then a malformed address |
| InviteUserHandler.EventChecksInOrder | eventmate-functions/functions/src/features/events/handlers/invite-user.handler.ts:48-69 | past the first checks a failed read, a missing event, another owner and an address already listed refuse in that order |
| InviteUserHandler.AcceptedIsShaped | eventmate-functions/functions/src/features/events/handlers/invite-user.handler.ts:20-69 | an accepted request is authenticated, names an event the caller owns, and its address is shaped like an email and not yet listed |
| InviteUserHandler.AcceptedAddressIsWellFormed | eventmate-functions/functions/src/features/events/handlers/invite-user.handler.ts:30-40 | an accepted address has no white space, exactly one "@" after a non-empty local part and matches the handler's regular expression |
| InviteUserHandler.InviteeAddressIsNormal | eventmate-functions/functions/src/features/events/handlers/invite-user.handler.ts:28 | the checked address is already lower-cased and trimmed, so it is stored as it was checked |
| InviteUserHandler.NormalisedRequestSameAddress | eventmate-functions/functions/src/features/events/handlers/invite-user.handler.ts:27-28 | sending the normalised address instead of the raw one checks the same address |
| InviteUserHandler.RequestedEmailFallback | eventmate-functions/functions/src/features/events/handlers/invite-user.handler.ts:27-28 | the address comes from email, else from inviteeEmail, else is empty |
| InviteUserHandler.AddsOnlyExistingAccounts | eventmate-functions/functions/src/features/events/handlers/invite-user.handler.ts:71-99 | past the checks the add-and-push branch is taken exactly when a stored account has the address |
| InviteUserHandler.InviteUserToEventHttp | eventmate-functions/functions/src/features/events/handlers/invite-user.handler.ts:122-215 | an early answer changes nothing; otherwise the normalised address is appended first, then a failed lookup answers 500, an existing account gets a push and 200 "User successfully invited", any other address a registration mail and 200 "Invitation email sent" or 500 when the mail fails |
| InviteUserHandler.AddThenNotify | eventmate-functions/functions/src/features/events/handlers/invite-user.handler.ts:180-213 | the address is added in every branch, before the account lookup decides between push and mail |
| InviteUserHandler.HttpStatusMapping | eventmate-functions/functions/src/features/events/handlers/invite-user.handler.ts:129-178 | 204 exactly for OPTIONS, 405 for another non-POST method, 401 without a Bearer header; every early answer is one of 204, 405, 401, 400, 404, 403, 409 or 500; going on means every check passed |
| InviteUserHandler.HttpAddsInBothBranches | eventmate-functions/functions/src/features/events/handlers/invite-user.handler.ts:180-209 | past the 409 check the push branch is taken exactly when the lookup succeeds and finds an account, the mail branch exactly when it finds none |
| InviteUserHandler.HttpPlanAfterChecks | eventmate-functions/functions/src/features/events/handlers/invite-user.handler.ts:171-183 | once every check up to the invitee list passes, the address is added and the lookup of the address as given decides what follows |
| InviteUserHandler.HttpListedAddressConflicts | eventmate-functions/functions/src/features/events/handlers/invite-user.handler.ts:171-178 | an address listed exactly as given is refused with 409 |
| InviteUserHandler.RawSampleMailsInvitation | eventmate-functions/functions/src/features/events/handlers/invite-user.handler.ts:171-203 | the owner's request for "A@b.co", with an account stored as "a@b.co", is mailed a registration invitation |
| InviteUserHandler.HttpRawAddressMissesAccount | eventmate-functions/functions/src/features/events/handlers/invite-user.handler.ts:171-181 | as written, an address written differently from its account's stored form is not found: a registration mail goes out where the corrected endpoint pushes |
| InviteUserHandler.NormalizedPlanIsPlanOf | eventmate-functions/functions/src/features/events/handlers/invite-user.handler.ts:171-181 | the corrected endpoint is the written one applied to the normalised address |
| InviteUserHandler.NormalizedPlanIgnoresCase | eventmate-functions/functions/src/features/events/handlers/invite-user.handler.ts:171-181 | in the corrected endpoint, two addresses that normalise alike get the same answer |
| InviteUserHandler.NormalizedPlanFindsListedAddress | eventmate-functions/functions/src/features/events/handlers/invite-user.handler.ts:171-178 | in the corrected endpoint an address whose stored form is listed is refused with 409, however it is written |
| EmailFormat.EmailShapedIffRegex | eventmate-functions/functions/src/features/events/handlers/invite-user.handler.ts:37-40 | the character-level shape (no white space, one "@" after a non-empty local part, a "." strictly inside the domain) holds exactly when the address matches the regular expression |
| EmailFormat.ShapedMatches | eventmate-functions/functions/src/features/events/services/email.service.ts:177-180 | a shaped address matches the regular expression |
| EmailFormat.MatchesShaped | eventmate-functions/functions/src/features/events/services/email.service.ts:177-180 | an address matching the regular expression is shaped |
| EmailFormat.AcceptedHasOneAt | eventmate-functions/functions/src/features/events/handlers/invite-user.handler.ts:37-40 | an accepted address has exactly one "@", with at least one character before it and at least three after it |
| Text.Trim | eventmate-react/src/components/profile/Avatar.tsx:10 | trimming never lengthens a string and leaves no white space at either end |
| Text.TrimIsInfix | eventmate-functions/functions/src/features/shared/infrastructure/firestore.client.ts:70 | the trimmed string is a contiguous part of the original with only white space cut off around it |
| Text.TrimIgnoresPadding | eventmate-react/src/components/profile/Avatar.tsx:10 | white space added around a string does not change its trim |
| Text.TrimIdempotent | eventmate-functions/functions/src/features/shared/infrastructure/firestore.client.ts:70 | trimming twice is trimming once |
| Text.LowerAscii | eventmate-functions/functions/src/features/events/handlers/invite-user.handler.ts:28 | lower-casing keeps the length and maps every character on its own |
| Text.UpperAscii | eventmate-react/src/components/profile/Avatar.tsx:12-14 | upper-casing keeps the length and maps every character on its own |
| Text.NormalizeIdempotent | eventmate-functions/functions/src/features/shared/infrastructure/firestore.client.ts:70 | lower-casing and trimming an already normalised address changes nothing |
| Text.NormalizedShape | eventmate-functions/functions/src/features/events/handlers/invite-user.handler.ts:28 | a normalised address has no ASCII capital and no white space at either end |
| Text.Split | eventmate-react/src/components/profile/Avatar.tsx:10 | splitting yields at least one part, exactly one iff the separator is absent, and no part holds the separator |
| Text.SplitJoin | eventmate-react/src/components/profile/Avatar.tsx:10 | joining the parts again with the separator gives the original string |
| Text.SplitFirst | eventmate-react/src/components/profile/Avatar.tsx:10 | the first part is everything before the first separator |
| ZodChecks.MinLength | eventmate-react/src/schemas/event.schema.ts:6 | a minimum-length check reports nothing exactly when the string is long enough, and otherwise exactly one issue with its message on its field |
| ZodChecks.MaxLength | eventmate-react/src/schemas/event.schema.ts:7 | a maximum-length check reports nothing exactly when the string is short enough, and otherwise exactly one issue with its message on its field |
| ZodChecks.EmailCheck | eventmate-react/src/schemas/login.schema.ts:5 | the email check reports nothing exactly when the string passes the email test, and otherwise exactly one issue |
| EventSchema.ValidEventFormIff | eventmate-react/src/schemas/event.schema.ts:3-16 | a form is valid exactly when the title has 1 to 100 characters, the description 1 to 500, and date, place and category are non-empty |
| EventSchema.EventIssuesBelongToFailingFields | eventmate-react/src/schemas/event.schema.ts:4-14 | every issue sits on a field whose check failed |
| EventSchema.ImageUnconstrained | eventmate-react/src/schemas/event.schema.ts:15 | the image never affects the issues |
| EventSchema.DefaultEventFormData | eventmate-react/src/schemas/event.schema.ts:20-27 | the default form has no image |
| EventSchema.DefaultEventFormRejected | eventmate-react/src/schemas/event.schema.ts:3-27 | the default form is invalid, with exactly the five "is required" issues in field order |
| AuthErrorMessages.MapErrorMessage | eventmate-react/src/contexts/auth/error-messages.mapping.utils.ts:7-44 | a known code gets its fixed message; any other code gets the default message when it is non-empty and the generic message otherwise |
| AuthErrorMessages.KnownMessagesNonEmpty | eventmate-react/src/contexts/auth/error-messages.mapping.utils.ts:12-37 | every known code's message is non-empty |
| AuthErrorMessages.MessageNeverEmpty | eventmate-react/src/contexts/auth/error-messages.mapping.utils.ts:7-44 | the mapped message is never empty |
| AuthErrorMessages.KnownCodeIgnoresDefault | eventmate-react/src/contexts/auth/error-messages.mapping.utils.ts:12-37 | for a known code the default message makes no difference |
| AuthErrorMessages.SampleMappings | eventmate-react/src/contexts/auth/error-messages.mapping.utils.ts:14-35 | the wrong-password and user-disabled codes get their Spanish messages |
| AuthErrorMessages.CodeMatchIsCaseSensitive | eventmate-react/src/contexts/auth/error-messages.mapping.utils.ts:11-42 | codes match exactly: an upper-cased known code falls to the generic message |
| RegisterSchema.ValidRegisterFormIff | eventmate-react/src/schemas/register.schema.ts:2-21 | a form is valid exactly when the name is non-empty, the email passes the email test and is non-empty, both passwords have 6 to 50 characters, and they are equal |
| RegisterSchema.MismatchReportedOnConfirmation | eventmate-react/src/schemas/register.schema.ts:18-21 | differing passwords are always reported, as the last issue, on the confirmation field, whatever else fails |
| RegisterSchema.MismatchIssueOnlyForMismatch | eventmate-react/src/schemas/register.schema.ts:18-21 | the mismatch message appears only when the passwords differ, and only on the confirmation field |
| RegisterSchema.EmptyEmailIssues | eventmate-react/src/schemas/register.schema.ts:5-8 | an empty email gets the format issue and then the required issue, next to each other |
| RegisterSchema.DefaultRegisterFormRejected | eventmate-react/src/schemas/register.schema.ts:2-29 | the empty default form is invalid, reports the missing name and the short password, and no mismatch |
| LoginSchema.ValidLoginFormIff | eventmate-react/src/schemas/login.schema.ts:2-11 | a form is valid exactly when the email passes the email test and is non-empty and the password has 6 to 50 characters |
| LoginSchema.OtherKeysIgnored | eventmate-react/src/schemas/login.schema.ts:2-11 | keys outside the schema never change the issues |
| LoginSchema.LoginIssuesBelongToFailingFields | eventmate-react/src/schemas/login.schema.ts:3-10 | every issue sits on a field whose check failed |
| LoginSchema.DefaultLoginFormRejected | eventmate-react/src/schemas/login.schema.ts:2-18 | the empty default form is invalid and reports the short password and the missing email |
| Avatar.Words | eventmate-react/src/components/profile/Avatar.tsx:10 | the trimmed name always splits into at least one word |
| Avatar.FirstWordNonEmpty | eventmate-react/src/components/profile/Avatar.tsx:10-12 | in a name of several words the first word is not empty |
| Avatar.AvatarInitials | eventmate-react/src/components/profile/Avatar.tsx:9-16 | where defined, the initials have at most two characters |
| Avatar.HasInitialsIff | eventmate-react/src/components/profile/Avatar.tsx:10-12 | the initials are defined exactly when the trimmed name has no space or the character after its first space is not a space |
| Avatar.InitialsOfSeveralWords | eventmate-react/src/components/profile/Avatar.tsx:11-12 | with several words, the upper-cased first character of the name and the upper-cased character after its first space |
| Avatar.InitialsOfOneWord | eventmate-react/src/components/profile/Avatar.tsx:13-14 | with one word, its first two characters (fewer if shorter), upper-cased |
| Avatar.BlankNameHasNoInitials | eventmate-react/src/components/profile/Avatar.tsx:10-14 | a name of only white space has empty initials |
| Avatar.NonBlankNameHasInitials | eventmate-react/src/components/profile/Avatar.tsx:9-16 | a non-blank name has one or two initials |
| Avatar.PaddingIgnored | eventmate-react/src/components/profile/Avatar.tsx:10 | white space around the name changes neither whether the initials are defined nor what they are |
| Avatar.DoubleSpaceAfterFirstWord | eventmate-react/src/components/profile/Avatar.tsx:10-12 | a first word followed by two spaces leaves the second word empty, so the initials are undefined |
| Avatar.CorrectedInitials | eventmate-react/src/components/profile/Avatar.tsx:9-16 | the corrected initials are defined for every name and have at most two characters |
| Avatar.CorrectedAgreesWhereDefined | eventmate-react/src/components/profile/Avatar.tsx:9-16 | wherever the component's initials are defined, the corrected initials are the same |
| Avatar.CorrectedNonBlankHasInitials | eventmate-react/src/components/profile/Avatar.tsx:9-16 | every non-blank name has one or two corrected initials |
| Avatar.CorrectedInitialsAcrossDoubleSpace | eventmate-react/src/components/profile/Avatar.tsx:10-12 | two words parted by two spaces have no initials in the component but the initials of both words when corrected |

## Left out

- Firestore, Firebase Admin messaging, nodemailer and Firebase Auth are foreign services. The store is an in-memory map and sequence. Sends are recorded in a log, and a mail send fails exactly for the recipients in a fixed set. Queries are modelled only as exact equality and `in`.
- Store writes never fail in the model. So `createUserConfiguration` has no "Failed to create user" path, and a failing `addInviteeToEvent` write is out. The configuration it builds leaves `deviceToken` undefined, and the Admin SDK, initialised without `ignoreUndefinedProperties`, refuses undefined field values. So in the deployed code that write probably always fails; the model stores a document without a token instead. Nothing was executed to confirm it.
- `updateDocument`, `deleteDocument`, `getCollection`, `EventService.updateEvent`, `EventService.deleteEvent` and `UserService.getUsersWithNotificationsEnabled` are thin pass-throughs to the store, used by no modelled operation.
- The HTML and CSS of the mail bodies are presentation. A rendered body is its page kind, its context and whether the description section is shown.
- The sender address, the mail credentials and the mail server settings are configuration.
- `formatDate` is `toLocaleDateString` with the es-ES locale (Intl). It is a symbolic value of the instant, and its `toString` fallback is out.
- Dates that are not numbers (`NaN`) are out. Instants are integers of milliseconds.
- EventModel.TimestampMillis, EventModel.TimestampDateMillis, EventService.GetTime, EventModel.DateResolution: a Timestamp follows the Admin SDK (`firebase-admin`, which the code imports): `toMillis()` floors the nanoseconds and `toDate()` rounds them to the nearest millisecond. That library is not part of this model; its rules are taken from its published code.
- Firestore.Upsert, Firestore.FirstWithEmail: the user-configuration sequence is an abstract store order, and a newly added document goes at the end. The real store returns an unordered query in document-id order, and generated ids are random. So which of two accounts with the same email `getUserByEmail` picks, and the order of collected tokens, can differ from the real store after a creation.
- `Promise.allSettled` and concurrent handler runs are out, including the read-then-write race between two invitations to the same event. Fan-outs are sequential loops.
- The outcome of a push is not modelled, because both send methods catch and log every error. A push is the multicast request that is made.
- Log lines, `console` output and the success/failure counts the push client only logs are out.
- The HTTP endpoint's CORS headers are out. Its Bearer token is only checked for the "Bearer " prefix and never verified, as in the code.
- zod's email check is a parameter `isEmail` (its regular expression is zod's own). zod counts string length in UTF-16 code units; the model counts characters.
- `toLowerCase` and `toUpperCase` are restricted to ASCII letters.
- `Avatar.AvatarInitials` indexes by character where JavaScript indexes by UTF-16 code unit.
- The push token guards, `DeviceTokenAccepted` and `MulticastTokenAccepted`, count characters where `length` counts UTF-16 code units. For ASCII tokens the two agree.
- Avatar.AvatarInitials: the component throws when the first space of the trimmed name is followed by another space. The model states that case as a precondition, `HasInitials`, and `HasInitialsIff` characterises it.
- The React pages, contexts and hooks, the file widgets, and the Firebase and build configuration hold no modelled logic.

## Findings

| source | as written | input that shows it | evidently intended | confidence | as-written member | corrected member |
|---|---|---|---|---|---|---|
| eventmate-functions/functions/src/features/events/handlers/invite-user.handler.ts:171-181 | the HTTP endpoint checks the invitee list and looks up the account with the address as received, but stores its lower-cased, trimmed form | owner's POST for "A@b.co" to an event with no invitees, with an account stored as "a@b.co": "a@b.co" is listed, yet a registration mail is sent to a registered user | check and look up the normalised address, as the callable endpoint does | medium, not executed | InviteUserHandler.HttpRawAddressMissesAccount | InviteUserHandler.HttpPlanNormalized |
| eventmate-react/src/components/profile/Avatar.tsx:10-12 | splits the trimmed name on single spaces and upper-cases the first character of the second part | "Ana  Gomez" (two spaces): the second part is empty, its first character is undefined, and upper-casing it throws | the initials of the first two words however wide the gap, "AG" | medium, not executed | Avatar.DoubleSpaceAfterFirstWord | Avatar.CorrectedInitials |
