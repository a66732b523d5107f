/** `sendEmail`: a logged-in user writes to another user. The handler checks
    the body, looks the recipient up and makes one mailer call; the mailer is
    a parameter that reports whether the send succeeded. */
module ContactController {
  import opened Wrappers
  import opened Ids
  import opened Http
  import UserModel

  const MissingFields := "Recipient, subject, and message are required."
  const RecipientNotFound := "Recipient not found."
  const Sent := "Message sent successfully!"
  const SendError := "Server error while sending message."

  datatype ContactBody = ContactBody(recipientId: Option<string>, subject: Option<string>, message: Option<string>)

  /** The arguments of `sendContactEmail(to, senderName, senderEmail, subject, message)`. */
  datatype Mail = Mail(to: string, senderName: string, senderEmail: string, subject: string, message: string)

  /** The reply and the mail handed to the mailer, if any. */
  datatype Outcome = Outcome(reply: Reply<()>, mail: Option<Mail>)

  /** A body value JavaScript treats as true. */
  predicate Truthy(v: Option<string>)
  {
    v.Some? && v.value != ""
  }

  function SendEmail(users: map<Id, UserModel.User>, sender: UserModel.Profile, body: ContactBody,
                     mailer: Mail -> bool): (r: Outcome)
    ensures !(Truthy(body.recipientId) && Truthy(body.subject) && Truthy(body.message)) ==>
              r == Outcome(Respond(400, MissingFields), None)
    ensures r.reply.status == 404 <==>
              && Truthy(body.recipientId) && Truthy(body.subject) && Truthy(body.message)
              && Cast(body.recipientId.value).Some? && Cast(body.recipientId.value).value !in users
    ensures r.reply.status == 404 ==> r == Outcome(Respond(404, RecipientNotFound), None)
    ensures Truthy(body.recipientId) && Truthy(body.subject) && Truthy(body.message)
              && Cast(body.recipientId.value).None? ==>
              r == Outcome(Respond(500, SendError), None)
    ensures r.mail.Some? <==>
              && Truthy(body.recipientId) && Truthy(body.subject) && Truthy(body.message)
              && Cast(body.recipientId.value).Some? && Cast(body.recipientId.value).value in users
    ensures r.mail.Some? ==>
              r.mail.value == Mail(users[Cast(body.recipientId.value).value].email, sender.name, sender.email,
                                   body.subject.value, body.message.value)
    ensures r.reply.status == 200 <==> r.mail.Some? && mailer(r.mail.value)
    ensures r.reply.status == 200 ==> r.reply == Respond(200, Sent)
    ensures r.mail.Some? && !mailer(r.mail.value) ==> r.reply == Respond(500, SendError)
  {
    if !Truthy(body.recipientId) || !Truthy(body.subject) || !Truthy(body.message) then
      Outcome(Respond(400, MissingFields), None)
    else if Cast(body.recipientId.value).None? then
      Outcome(Respond(500, SendError), None)
    else if Cast(body.recipientId.value).value !in users then
      Outcome(Respond(404, RecipientNotFound), None)
    else
      var mail := Mail(users[Cast(body.recipientId.value).value].email, sender.name, sender.email,
                       body.subject.value, body.message.value);
      Outcome(if mailer(mail) then Respond(200, Sent) else Respond(500, SendError), Some(mail))
  }

  /** The handler never mails anyone but a stored user, and never alters the subject or the message. */
  lemma MailGoesToStoredUser(users: map<Id, UserModel.User>, sender: UserModel.Profile, body: ContactBody, mailer: Mail -> bool)
    requires SendEmail(users, sender, body, mailer).mail.Some?
    ensures exists id :: id in users && users[id].email == SendEmail(users, sender, body, mailer).mail.value.to
    ensures SendEmail(users, sender, body, mailer).mail.value.subject == body.subject.value
    ensures SendEmail(users, sender, body, mailer).mail.value.message == body.message.value
  {
    var id := Cast(body.recipientId.value).value;
    assert id in users && users[id].email == SendEmail(users, sender, body, mailer).mail.value.to;
  }
}
