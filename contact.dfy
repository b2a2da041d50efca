/** The contact endpoint: it turns the contact form into a mail to the
    business inbox and then tries to send the visitor a confirmation that
    quotes the message back. As in the form-submission endpoint, the
    templates are pure string functions and `Post` is the handler's pipeline,
    with each transport outcome given as an input. */
module Contact {
  import opened Optional
  import opened Js
  import opened Relay
  import Text
  import FormSubmission

  /** Indentation of the mail templates' body lines and closing backtick. */
  const BodyIndent: string := "        "
  const ClosingIndent: string := "      "
  /** The confirmation templates sit one block deeper. */
  const ConfirmationIndent: string := "          "
  const ConfirmationClosing: string := "        "

  const SendError: string := "Failed to send message"

  /** The request body: unparseable JSON, or the members the handler destructures. */
  datatype ContactBody =
    | Unparseable(reason: string)
    | ContactRequest(name: Value, email: Value, subject: Value, message: Value, language: Value)

  /** `language === "nl"`: no default, anything else is English. */
  predicate IsDutch(language: Value) {
    IsString(language, "nl")
  }

  datatype ContactLabels = ContactLabels(title: string, name: string, email: string, subject: string, message: string)

  function Words(isNL: bool): ContactLabels {
    if isNL then ContactLabels("Nieuw Contactformulier Bericht", "Naam:", "E-mail:", "Onderwerp:", "Bericht:")
    else ContactLabels("New Contact Form Submission", "Name:", "Email:", "Subject:", "Message:")
  }

  function Subject(r: ContactBody, isNL: bool): string
    requires r.ContactRequest?
  {
    Words(isNL).title + ": " + Render(r.subject)
  }

  /** The body lines of the plain-text mail. */
  function TextLines(r: ContactBody, w: ContactLabels): (lines: seq<string>)
    requires r.ContactRequest?
    ensures |lines| == 6
  {
    [w.name + " " + Render(r.name),
     w.email + " " + Render(r.email),
     w.subject + " " + Render(r.subject),
     "", w.message,
     Render(r.message)]
  }

  function MessageText(r: ContactBody, isNL: bool): string
    requires r.ContactRequest?
  {
    Text.Template(BodyIndent, TextLines(r, Words(isNL)), ClosingIndent)
  }

  /** The HTML body lines, given the converted message. */
  function HtmlLines(r: ContactBody, w: ContactLabels, h: string): (lines: seq<string>)
    requires r.ContactRequest?
    ensures |lines| == 6
  {
    ["<h2>" + w.title + "</h2>",
     Strong(w.name, Render(r.name)),
     Strong(w.email, Render(r.email)),
     Strong(w.subject, Render(r.subject)),
     "<h3>" + w.message + "</h3>",
     "<p>" + h + "</p>"]
  }

  // ---- confirmation to the visitor ----

  /** The wording of the confirmation in one language. */
  datatype ConfirmationLabels = ConfirmationLabels(
    subject: string, greeting: string, thanks: string, copyIntro: string,
    subjectLabel: string, regards: string, team: string)

  function ConfirmationWords(isNL: bool): ConfirmationLabels {
    if isNL then
      ConfirmationLabels("Bedankt voor uw bericht aan 8Leaps", "Beste",
        "Bedankt voor uw bericht aan 8Leaps. We hebben uw bericht ontvangen en zullen zo snel mogelijk contact met u opnemen.",
        "Hier is een kopie van uw bericht:", "Onderwerp:", "Met vriendelijke groet,", "Het 8Leaps Team")
    else
      ConfirmationLabels("Thank you for contacting 8Leaps", "Dear",
        "Thank you for contacting 8Leaps. We have received your message and will get back to you as soon as possible.",
        "Here's a copy of your message:", "Subject:", "Best regards,", "The 8Leaps Team")
  }

  /** The plain-text confirmation lines: greeting, thanks, the quoted
      subject and message, and the signature. */
  function ConfirmationTextLines(r: ContactBody, c: ConfirmationLabels): seq<string>
    requires r.ContactRequest?
  {
    [c.greeting + " " + Render(r.name) + ",", "",
     c.thanks, "",
     c.copyIntro, "",
     c.subjectLabel + " " + Render(r.subject), "",
     Render(r.message), "",
     c.regards, c.team]
  }

  /** The HTML confirmation lines, given the converted message. */
  function ConfirmationHtmlLines(r: ContactBody, c: ConfirmationLabels, h: string): seq<string>
    requires r.ContactRequest?
  {
    ["<p>" + c.greeting + " " + Render(r.name) + ",</p>", "",
     "<p>" + c.thanks + "</p>", "",
     "<p>" + c.copyIntro + "</p>", "",
     Strong(c.subjectLabel, Render(r.subject)), "",
     "<p>" + h + "</p>", "",
     "<p>" + c.regards + "<br>" + c.team + "</p>"]
  }

  /** The mail to the business: to the fixed inbox, replies to the visitor. */
  function PrimaryMail(env: Env, r: ContactBody, c: Content): Mail
    requires ConfigComplete(env) && r.ContactRequest?
  {
    Mail(Sender(env), Str(BusinessInbox), r.email, c.subject, c.text, c.html)
  }

  /** The confirmation to the visitor, without a reply-to. `h` is the
      message with its line breaks converted, the same conversion the mail
      to the business already made. */
  function ConfirmationMail(env: Env, r: ContactBody, h: string, isNL: bool): Mail
    requires ConfigComplete(env) && r.ContactRequest?
  {
    var c := ConfirmationWords(isNL);
    Mail(Sender(env), r.email, Undefined, c.subject,
         Text.Template(ConfirmationIndent, ConfirmationTextLines(r, c), ConfirmationClosing),
         Text.Template(ConfirmationIndent, ConfirmationHtmlLines(r, c, h), ConfirmationClosing))
  }

  /** The mail to the business once the message is converted. */
  function MailContent(r: ContactBody, isNL: bool, h: string): Content
    requires r.ContactRequest?
  {
    Content(Subject(r, isNL), MessageText(r, isNL), Text.Template(BodyIndent, HtmlLines(r, Words(isNL), h), ClosingIndent))
  }

  /** What the handler promises for a parsed request, given the outcome
      `converted` of `message.replace`: the configuration check first, a
      failed conversion is fatal before any transport call, and otherwise
      the shared transport phase. */
  predicate Handled(env: Env, r: ContactBody, converted: Eval<string>,
                    verify: VerifyOutcome, sent: SendOutcome, resp: Response, calls: seq<Call>)
    requires r.ContactRequest?
  {
    var isNL := IsDutch(r.language);
    && (!ConfigComplete(env) ==> resp == Failure500(ConfigIncompleteError, None) && calls == [])
    && (ConfigComplete(env) && converted.Threw? ==> resp == Failure500(SendError, Some(converted.message)) && calls == [])
    && (ConfigComplete(env) && converted.Value? ==>
          Delivered(PrimaryMail(env, r, MailContent(r, isNL, converted.value)),
                    ConfirmationMail(env, r, converted.value, isNL), SendError, verify, sent, resp, calls))
  }

  /** The response and the transport calls for a parsed request. */
  function Outcome(env: Env, r: ContactBody, converted: Eval<string>,
                   verify: VerifyOutcome, sent: SendOutcome): (o: (Response, seq<Call>))
    requires r.ContactRequest?
    ensures Handled(env, r, converted, verify, sent, o.0, o.1)
  {
    if !ConfigComplete(env) then (Failure500(ConfigIncompleteError, None), [])
    else
      var isNL := IsDutch(r.language);
      match converted
      case Threw(m) => (Failure500(SendError, Some(m)), [])
      case Value(h) =>
        DeliveryOf(PrimaryMail(env, r, MailContent(r, isNL, h)), ConfirmationMail(env, r, h, isNL), SendError, verify, sent)
  }

  /** The `POST` handler. `verify`, `sent` and `confirmationSent` are the
      outcomes the transport gives the calls it is asked to make. */
  method Post(env: Env, body: ContactBody, verify: VerifyOutcome, sent: SendOutcome, confirmationSent: SendOutcome)
    returns (resp: Response, calls: seq<Call>)
    ensures body.Unparseable? ==> resp == Failure500(SendError, Some(body.reason)) && calls == []
    ensures body.ContactRequest? ==>
              (resp, calls) == Outcome(env, body, Js.ReplaceNewlines(body.message, "message"), verify, sent)
  {
    if body.Unparseable? {
      return Failure500(SendError, Some(body.reason)), [];
    }
    if !ConfigComplete(env) {
      return Failure500(ConfigIncompleteError, None), [];
    }
    var isNL := IsString(body.language, "nl");
    var emailSubject := Subject(body, isNL);
    var emailContent := MessageText(body, isNL);
    var converted := Js.ReplaceNewlines(body.message, "message");
    if converted.Threw? {
      return Failure500(SendError, Some(converted.message)), [];
    }
    var htmlContent := Text.Template(BodyIndent, HtmlLines(body, Words(isNL), converted.value), ClosingIndent);
    var mail := Mail(Sender(env), Str(BusinessInbox), body.email, emailSubject, emailContent, htmlContent);
    assert mail == PrimaryMail(env, body, MailContent(body, isNL, converted.value));
    resp, calls := Deliver(mail, ConfirmationMail(env, body, converted.value, isNL), SendError,
                           verify, sent, confirmationSent);
  }

  // ---- properties ----

  /** A message that is not a string, a missing one included, fails the
      request with the TypeError of `message.replace` before any transport
      call, once the configuration is complete. */
  lemma NonStringMessageRejected(env: Env, r: ContactBody, verify: VerifyOutcome, sent: SendOutcome)
    requires r.ContactRequest? && ConfigComplete(env) && !r.message.Str?
    ensures var o := Outcome(env, r, Js.ReplaceNewlines(r.message, "message"), verify, sent);
      && o == (Failure500(SendError, Some(ReplaceError(r.message, "message"))), [])
      && (r.message == Undefined ==> o.0.body.details == Some(PropertyReadError(false, "replace")))
  {
  }

  /** Both endpoints choose Dutch for exactly the same `language` values,
      although only the form-submission endpoint defaults to English first. */
  lemma LanguageChoiceAgrees(language: Value)
    ensures IsDutch(language) == FormSubmission.IsDutch(language)
  {
  }

  /** The visitor's values rendered into the mail hold no line break. */
  predicate SingleLineRequest(r: ContactBody)
    requires r.ContactRequest?
  {
    Text.NoNewline(Render(r.name)) && Text.NoNewline(Render(r.email)) && Text.NoNewline(Render(r.subject))
  }

  predicate SingleLineWords(w: ContactLabels) {
    Text.NoNewline(w.title) && Text.NoNewline(w.name) && Text.NoNewline(w.email) &&
    Text.NoNewline(w.subject) && Text.NoNewline(w.message)
  }

  lemma WordsSingleLine(isNL: bool)
    ensures SingleLineWords(Words(isNL))
  {
    if isNL {
      DutchWordsSingleLine();
    } else {
      EnglishWordsSingleLine();
    }
  }

  lemma EnglishWordsSingleLine()
    ensures Text.NoNewline("New Contact Form Submission")
    ensures Text.NoNewline("Name:") && Text.NoNewline("Email:")
    ensures Text.NoNewline("Subject:") && Text.NoNewline("Message:")
  {
  }

  lemma DutchWordsSingleLine()
    ensures Text.NoNewline("Nieuw Contactformulier Bericht")
    ensures Text.NoNewline("Naam:") && Text.NoNewline("E-mail:")
    ensures Text.NoNewline("Onderwerp:") && Text.NoNewline("Bericht:")
  {
  }

  /** Read line by line, the plain-text mail is a blank line, the three
      labelled values, a line holding only the indentation, the message
      caption, the message and the closing indentation; a message on one
      line is one line of the mail. */
  lemma MessageTextLines(r: ContactBody, isNL: bool)
    requires r.ContactRequest? && SingleLineRequest(r) && Text.NoNewline(Render(r.message))
    ensures var lines := Text.SplitLines(MessageText(r, isNL));
      var w := Words(isNL);
      && |lines| == 8
      && lines[0] == ""
      && lines[1] == BodyIndent + w.name + " " + Render(r.name)
      && lines[4] == BodyIndent
      && lines[6] == BodyIndent + Render(r.message)
      && lines[7] == ClosingIndent
  {
    WordsSingleLine(isNL);
    TextLinesSplit(r, Words(isNL));
  }

  lemma TextLinesSplit(r: ContactBody, w: ContactLabels)
    requires r.ContactRequest? && SingleLineRequest(r) && Text.NoNewline(Render(r.message)) && SingleLineWords(w)
    ensures Text.SplitLines(Text.Template(BodyIndent, TextLines(r, w), ClosingIndent)) ==
            [""] + Text.Indented(BodyIndent, TextLines(r, w)) + [ClosingIndent]
  {
    Text.TemplateLines(BodyIndent, TextLines(r, w), ClosingIndent);
  }

  /** In the HTML mail the message is one paragraph on one line, whatever
      line breaks it holds: they become `<br>` and the rest is copied
      unescaped. */
  lemma HtmlMessageLine(r: ContactBody, isNL: bool)
    requires r.ContactRequest? && SingleLineRequest(r) && r.message.Str?
    ensures var lines := Text.SplitLines(MailContent(r, isNL, Text.ReplaceNewlines(r.message.s)).html);
      && |lines| == 8
      && lines[6] == BodyIndent + "<p>" + Text.ReplaceNewlines(r.message.s) + "</p>"
  {
    var h := Text.ReplaceNewlines(r.message.s);
    Text.ReplaceNewlinesRemovesNewlines(r.message.s);
    WordsSingleLine(isNL);
    HtmlLinesSplit(r, Words(isNL), h);
  }

  lemma HtmlLinesSplit(r: ContactBody, w: ContactLabels, h: string)
    requires r.ContactRequest? && SingleLineRequest(r) && Text.NoNewline(h) && SingleLineWords(w)
    ensures Text.SplitLines(Text.Template(BodyIndent, HtmlLines(r, w, h), ClosingIndent)) ==
            [""] + Text.Indented(BodyIndent, HtmlLines(r, w, h)) + [ClosingIndent]
  {
    var body := HtmlLines(r, w, h);
    MarkupSingleLine();
    forall i | 0 <= i < |body| ensures Text.NoNewline(body[i]) {
    }
    Text.TemplateLines(BodyIndent, body, ClosingIndent);
  }

  /** The confirmation goes to the visitor's own address, without a
      reply-to, under the thank-you subject of the request's language. */
  lemma ConfirmationAddressed(env: Env, r: ContactBody, h: string, isNL: bool)
    requires ConfigComplete(env) && r.ContactRequest?
    ensures var m := ConfirmationMail(env, r, h, isNL);
      && m.to == r.email && m.replyTo == Undefined && m.from == Sender(env)
      && m.subject == ConfirmationWords(isNL).subject
  {
  }

  /** In either language the confirmation quotes the subject and the
      message back, in the text and in the HTML version alike. */
  lemma ConfirmationQuotesMessage(r: ContactBody, c: ConfirmationLabels, h: string)
    requires r.ContactRequest?
    ensures var text := ConfirmationTextLines(r, c);
      var html := ConfirmationHtmlLines(r, c, h);
      && |text| == 12 && |html| == 11
      && text[6] == c.subjectLabel + " " + Render(r.subject)
      && text[8] == Render(r.message)
      && html[6] == Strong(c.subjectLabel, Render(r.subject))
      && html[8] == "<p>" + h + "</p>"
  {
  }
}
