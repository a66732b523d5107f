/** The page for writing to another user: the recipient it needs, the
    subject it proposes, its schema, and the body it sends to the contact
    handler. Whether the send succeeded arrives as an argument. */
module ContactPage {
  import opened Wrappers
  import Zod
  import ContactController

  const SubjectMessage := "Subject is required."
  const MessageMessage := "Message must be at least 10 characters long."
  const NoRecipient := "No recipient specified. Redirecting..."
  const SentToast := "Message sent successfully!"
  const FailedToast := "Failed to send message. Please try again."
  const SubjectPrefix := "Inquiry about "

  datatype Recipient = Recipient(id: string, name: string)

  /** The route state the contact link handed over. */
  datatype RouteState = RouteState(recipient: Option<Recipient>, petName: Option<string>)

  /** `\`Inquiry about ${petName || 'your listing'}\``. */
  function DefaultSubject(petName: Option<string>): (subject: string)
    ensures SubjectPrefix <= subject
    ensures petName.Some? && petName.value != "" ==> subject[|SubjectPrefix|..] == petName.value
    ensures petName.None? || petName.value == "" ==> subject == SubjectPrefix + "your listing"
  {
    SubjectPrefix + (if petName.Some? && petName.value != "" then petName.value else "your listing")
  }

  /** The proposed subject passes the schema's subject rule. */
  lemma DefaultSubjectAccepted(petName: Option<string>)
    ensures Zod.MinLength(DefaultSubject(petName), 3, SubjectMessage) == []
  {
  }

  /** `contactSchema`. */
  function Issues(subject: string, message: string): seq<string>
  {
    Zod.MinLength(subject, 3, SubjectMessage) + Zod.MinLength(message, 10, MessageMessage)
  }

  lemma IssuesIff(subject: string, message: string)
    ensures Issues(subject, message) == [] <==> |subject| >= 3 && |message| >= 10
    ensures SubjectMessage in Issues(subject, message) <==> |subject| < 3
    ensures MessageMessage in Issues(subject, message) <==> |message| < 10
  {
  }

  /** Without a recipient the page shows the error toast, goes back and renders nothing. */
  datatype Guard = Redirect(toast: string) | Render(recipient: Recipient)

  function GuardOf(state: RouteState): (g: Guard)
    ensures g.Redirect? <==> state.recipient.None?
    ensures g.Redirect? ==> g.toast == NoRecipient
    ensures g.Render? ==> g.recipient == state.recipient.value
  {
    if state.recipient.None? then Redirect(NoRecipient) else Render(state.recipient.value)
  }

  /** The body `sendMessage` posts: the recipient's id with the subject and the message. */
  function Payload(recipient: Recipient, subject: string, message: string): ContactController.ContactBody
  {
    ContactController.ContactBody(Some(recipient.id), Some(subject), Some(message))
  }

  /** A form that passes the client's schema, sent to a recipient with an id,
      gets past the handler's check for missing fields. */
  lemma ValidFormPassesPresenceCheck(recipient: Recipient, subject: string, message: string)
    requires recipient.id != "" && Issues(subject, message) == []
    ensures var body := Payload(recipient, subject, message);
            ContactController.Truthy(body.recipientId) && ContactController.Truthy(body.subject)
            && ContactController.Truthy(body.message)
  {
    IssuesIff(subject, message);
  }

  /** After the send: back to the previous page only on success. */
  datatype AfterSend = AfterSend(goBack: bool, toast: string)

  function AfterSendOf(succeeded: bool): (a: AfterSend)
    ensures a.goBack <==> succeeded
    ensures a.toast == (if succeeded then SentToast else FailedToast)
  {
    AfterSend(succeeded, if succeeded then SentToast else FailedToast)
  }
}
