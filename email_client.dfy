/**
 * `EmailClient`: template dispatch, subjects and the lazily created
 * transporter. Every message handed to the transporter is appended to
 * `outbox`; sending to an address in `rejects` fails. The HTML pages are
 * reduced to their structure: which page, for which context, and whether the
 * description section is present.
 */
module Mailer {
  import opened Wrappers
  import opened EventModel

  /** A date as the mails show it: `toLocaleDateString('es-ES', …)` of an instant, kept symbolic. */
  datatype DisplayDate = SpanishLongDate(instant: int)

  /** The event fields a mail shows (the client's `EventData`). */
  datatype MailEventData = MailEventData(title: string, description: string, date: DisplayDate, place: string, ownerName: string)

  /** The key a template context carries besides the event fields. */
  datatype ContextExtra = RegisterUrl(url: string) | ChangeKind(changeType: ChangeType) | NoExtra

  /** The `context` handed to a template. */
  datatype MailContext = MailContext(
    eventTitle: string, eventDescription: string, eventDate: DisplayDate,
    eventPlace: string, ownerName: string, extra: ContextExtra)

  datatype Page = InvitationPage | EventUpdatePage | EventCancelledPage

  /** The rendered body: empty, or a page built from the context, with or without the description section. */
  datatype Html = NoHtml | Html(page: Page, context: MailContext, descriptionSection: bool)

  /** The message given to `sendMail`; the fixed sender is not modelled. */
  datatype MailOptions = MailOptions(to: string, subject: string, html: Html)

  const InvitationTemplate := "invitation"
  const EventUpdateTemplate := "event-update"
  const EventCancelledTemplate := "event-cancelled"

  /** The link an invitation offers: the application URL followed by `/register`. */
  const AppUrl := "http://localhost:5173"
  const RegisterPath := "/register"

  const SendFailure := "Failed to send email: "

  /** One of the three templates `sendEmail` knows. */
  predicate KnownTemplate(template: string) {
    template == InvitationTemplate || template == EventUpdateTemplate || template == EventCancelledTemplate
  }

  /** The branch chain of `sendEmail`: a known template selects its page, any other name an empty body. */
  function RenderTemplate(template: string, context: MailContext): (h: Html)
    ensures h.NoHtml? <==> !KnownTemplate(template)
    ensures h.Html? ==> h.context == context && (h.descriptionSection <==> context.eventDescription != "")
    ensures template == InvitationTemplate ==> h.Html? && h.page == InvitationPage
    ensures template == EventUpdateTemplate ==> h.Html? && h.page == EventUpdatePage
    ensures template == EventCancelledTemplate ==> h.Html? && h.page == EventCancelledPage
  {
    var section := context.eventDescription != "";
    if template == InvitationTemplate then Html(InvitationPage, context, section)
    else if template == EventUpdateTemplate then Html(EventUpdatePage, context, section)
    else if template == EventCancelledTemplate then Html(EventCancelledPage, context, section)
    else NoHtml
  }

  function ContextOf(data: MailEventData, extra: ContextExtra): MailContext {
    MailContext(data.title, data.description, data.date, data.place, data.ownerName, extra)
  }

  /** The template `sendEventUpdateEmail` picks for a change type. */
  function ChangeTemplate(changeType: ChangeType): string {
    if changeType == Cancelled then EventCancelledTemplate else EventUpdateTemplate
  }

  /** The subject `sendEventUpdateEmail` writes for a change type. */
  function ChangeSubject(changeType: ChangeType, title: string): string {
    if changeType == Cancelled then "Evento cancelado: " + title else "Actualización del evento: " + title
  }

  function InvitationSubject(title: string): string {
    "Invitación al evento: " + title
  }

  /** The message `sendInvitationEmail` hands to the transporter. */
  function InvitationMail(to: string, data: MailEventData): MailOptions {
    MailOptions(to, InvitationSubject(data.title),
      RenderTemplate(InvitationTemplate, ContextOf(data, RegisterUrl(AppUrl + RegisterPath))))
  }

  /** The message `sendEventUpdateEmail` hands to the transporter. */
  function ChangeMail(to: string, data: MailEventData, changeType: ChangeType): MailOptions {
    MailOptions(to, ChangeSubject(changeType, data.title),
      RenderTemplate(ChangeTemplate(changeType), ContextOf(data, ChangeKind(changeType))))
  }

  /**
   * An invitation goes to its recipient with subject "Invitación al evento: "
   * and the title, shows the invitation page with the registration link, and
   * has a description section iff the description is non-empty.
   */
  lemma InvitationMailShape(to: string, data: MailEventData)
    ensures var m := InvitationMail(to, data);
      m.to == to && m.subject == InvitationSubject(data.title) &&
      m.html.Html? && m.html.page == InvitationPage &&
      m.html.context.extra == RegisterUrl("http://localhost:5173/register") &&
      m.html.context.eventTitle == data.title && m.html.context.eventDate == data.date &&
      (m.html.descriptionSection <==> data.description != "")
  {
  }

  /**
   * A cancellation selects the cancelled page and "Evento cancelado: ", an
   * update the update page and "Actualización del evento: "; either shows the
   * description section iff the description is non-empty.
   */
  lemma ChangeMailShape(to: string, data: MailEventData, changeType: ChangeType)
    ensures var m := ChangeMail(to, data, changeType);
      m.to == to && m.html.Html? &&
      (changeType == Cancelled ==> m.html.page == EventCancelledPage && m.subject == "Evento cancelado: " + data.title) &&
      (changeType == Updated ==> m.html.page == EventUpdatePage && m.subject == "Actualización del evento: " + data.title) &&
      m.html.context.extra == ChangeKind(changeType) &&
      (m.html.descriptionSection <==> data.description != "")
  {
  }

  /** The two change subjects differ for every title, so a recipient can tell them apart. */
  lemma ChangeSubjectsDiffer(title: string)
    ensures ChangeSubject(Cancelled, title) != ChangeSubject(Updated, title)
  {
    assert ChangeSubject(Cancelled, title)[0] == 'E';
    assert ChangeSubject(Updated, title)[0] == 'A';
  }

  class EmailClient {
    /** Whether `transporter` is set. */
    var transporterReady: bool
    /** How many transporters `createTransport` has made. */
    var transportersCreated: nat
    var outbox: seq<MailOptions>
    var rejects: set<string>

    /** The transporter is made once, and only once it is set. */
    ghost predicate Valid()
      reads this
    {
      transportersCreated == if transporterReady then 1 else 0
    }

    constructor (rejects: set<string>)
      ensures Valid() && !transporterReady && outbox == [] && this.rejects == rejects
    {
      transporterReady := false;
      transportersCreated := 0;
      outbox := [];
      this.rejects := rejects;
    }

    /** `ensureTransporter`: creates the transporter on first use only. */
    method EnsureTransporter()
      requires Valid()
      modifies this
      ensures Valid() && transporterReady
      ensures transportersCreated == if old(transporterReady) then old(transportersCreated) else old(transportersCreated) + 1
      ensures outbox == old(outbox) && rejects == old(rejects)
    {
      if transporterReady {
        return;
      }
      transportersCreated := transportersCreated + 1;
      transporterReady := true;
    }

    /**
     * `sendEmail`: renders the template, hands `to`, `subject` and the body to
     * the transporter, and rethrows a failure with the "Failed to send email: "
     * prefix.
     */
    method SendEmail(to: string, subject: string, template: string, context: MailContext) returns (r: Result<()>)
      requires Valid()
      modifies this
      ensures Valid() && transporterReady && transportersCreated == 1
      ensures outbox == old(outbox) + [MailOptions(to, subject, RenderTemplate(template, context))]
      ensures r.Ok? <==> to !in rejects
      ensures r.Err? ==> SendFailure <= r.error
      ensures rejects == old(rejects)
    {
      EnsureTransporter();
      var htmlContent := NoHtml;
      var section := context.eventDescription != "";
      if template == InvitationTemplate {
        htmlContent := Html(InvitationPage, context, section);
      } else if template == EventUpdateTemplate {
        htmlContent := Html(EventUpdatePage, context, section);
      } else if template == EventCancelledTemplate {
        htmlContent := Html(EventCancelledPage, context, section);
      }
      var mailOptions := MailOptions(to, subject, htmlContent);
      outbox := outbox + [mailOptions];
      if to in rejects {
        return Err(SendFailure + "Error: the mail server rejected " + to);
      }
      r := Ok(());
    }

    /** `sendInvitationEmail`. */
    method SendInvitationEmail(to: string, data: MailEventData) returns (r: Result<()>)
      requires Valid()
      modifies this
      ensures Valid() && transporterReady
      ensures outbox == old(outbox) + [InvitationMail(to, data)]
      ensures r.Ok? <==> to !in rejects
      ensures r.Err? ==> SendFailure <= r.error
      ensures rejects == old(rejects)
    {
      r := SendEmail(to, InvitationSubject(data.title), InvitationTemplate,
        ContextOf(data, RegisterUrl(AppUrl + RegisterPath)));
    }

    /** `sendEventUpdateEmail`: template and subject follow the change type. */
    method SendEventUpdateEmail(to: string, data: MailEventData, changeType: ChangeType) returns (r: Result<()>)
      requires Valid()
      modifies this
      ensures Valid() && transporterReady
      ensures outbox == old(outbox) + [ChangeMail(to, data, changeType)]
      ensures r.Ok? <==> to !in rejects
      ensures r.Err? ==> SendFailure <= r.error
      ensures rejects == old(rejects)
    {
      var template := if changeType == Cancelled then EventCancelledTemplate else EventUpdateTemplate;
      var subject := if changeType == Cancelled then "Evento cancelado: " + data.title
        else "Actualización del evento: " + data.title;
      r := SendEmail(to, subject, template, ContextOf(data, ChangeKind(changeType)));
    }
  }
}
