/** The form-submission endpoint: it turns a `pricing`, `mvp` or any other
    form posted by the site into a mail to the business inbox, then tries to
    send the visitor a confirmation. The templates are pure string
    functions; `Post` is the handler's pipeline of checks and transport
    calls, with each transport outcome given as an input. */
module FormSubmission {
  import opened Optional
  import opened Js
  import opened Relay
  import Text

  /** Indentation of a template's body lines and of its closing backtick. */
  const BodyIndent: string := "          "
  const ClosingIndent: string := "        "

  const SendError: string := "Failed to send form submission"

  /** The request body: unparseable JSON, or its `formType` and `formData` members. */
  datatype SubmissionBody = Unparseable(reason: string) | Submission(formType: Value, formData: Record<FormData>)

  /** `(formData.language || "en") === "nl"` */
  function IsDutch(language: Value): (r: bool)
    ensures r <==> language == Str("nl")
  {
    Or(language, Str("en")) == Str("nl")
  }

  /** `${first} ${last}` */
  function FullName(fd: FormData): string {
    Render(fd.firstName) + " " + Render(fd.lastName)
  }

  // ---- pricing requests ----

  datatype PricingLabels = PricingLabels(
    title: string, clientInfo: string, name: string, email: string, phone: string,
    notProvided: string, details: string, package: string, customPackage: string,
    clientType: string, notSpecified: string, tier: string, technology: string,
    price: string, monthlyPrice: string, perMonth: string, additional: string, noMessage: string)

  function PricingWords(isNL: bool): PricingLabels {
    if isNL then
      PricingLabels("Nieuwe Prijsaanvraag", "Klantinformatie:", "Naam:", "E-mail:", "Telefoon:",
                    "Niet opgegeven", "Pakketdetails:", "Pakket:", "Aangepast Pakket",
                    "Klanttype:", "Niet gespecificeerd", "Niveau:", "Technologie:",
                    "Prijs:", "Maandelijkse Prijs:", "/maand", "Aanvullend Bericht:",
                    "Geen aanvullend bericht opgegeven")
    else
      PricingLabels("New Pricing Form Submission", "Client Information:", "Name:", "Email:", "Phone:",
                    "Not provided", "Package Details:", "Package:", "Custom Package",
                    "Client Type:", "Not specified", "Tier:", "Technology:",
                    "Price:", "Monthly Price:", "/month", "Additional Message:",
                    "No additional message provided")
  }

  function PricingSubject(pd: PackageDetails, isNL: bool): string {
    var w := PricingWords(isNL);
    w.title + ": " + RenderOr(pd.package, w.customPackage)
  }

  /** The body lines of the plain-text pricing mail; a tier, technology,
      price or monthly line is blank unless its value is truthy. */
  function PricingTextLines(fd: FormData, pd: PackageDetails, w: PricingLabels): (lines: seq<string>)
    ensures |lines| == 17
  {
    ClientTextLines(fd, w) + DetailTextLines(pd, w) + [RenderOr(fd.message, w.noMessage)]
  }

  /** The heading and the client's contact lines. */
  function ClientTextLines(fd: FormData, w: PricingLabels): (lines: seq<string>)
    ensures |lines| == 6
  {
    [w.title, "", w.clientInfo,
     w.name + " " + FullName(fd),
     w.email + " " + Render(fd.email),
     w.phone + " " + RenderOr(fd.phone, w.notProvided)]
  }

  /** The package lines, each conditional one empty when its value is
      falsy, and the caption of the message. */
  function DetailTextLines(pd: PackageDetails, w: PricingLabels): (lines: seq<string>)
    ensures |lines| == 10
  {
    ["", w.details,
     w.package + " " + RenderOr(pd.package, w.customPackage),
     w.clientType + " " + RenderOr(pd.clientType, w.notSpecified),
     if Truthy(pd.tier) then w.tier + " " + Render(pd.tier) else "",
     if Truthy(pd.technology) then w.technology + " " + Render(pd.technology) else "",
     if Truthy(pd.price) then w.price + " \U{20AC}" + Render(pd.price) else "",
     if Truthy(pd.monthlyPrice) then w.monthlyPrice + " \U{20AC}" + Render(pd.monthlyPrice) + w.perMonth else "",
     "", w.additional]
  }

  function PricingText(fd: FormData, pd: PackageDetails, isNL: bool): string {
    Text.Template(BodyIndent, PricingTextLines(fd, pd, PricingWords(isNL)), ClosingIndent)
  }

  /** The HTML body lines, given the already converted message paragraph. */
  function PricingHtmlLines(fd: FormData, pd: PackageDetails, w: PricingLabels, messageHtml: string): (lines: seq<string>)
    ensures |lines| == 17
  {
    ["<h2>" + w.title + "</h2>", "", "<h3>" + w.clientInfo + "</h3>",
     Strong(w.name, FullName(fd)),
     Strong(w.email, Render(fd.email)),
     Strong(w.phone, RenderOr(fd.phone, w.notProvided)),
     "", "<h3>" + w.details + "</h3>",
     Strong(w.package, RenderOr(pd.package, w.customPackage)),
     Strong(w.clientType, RenderOr(pd.clientType, w.notSpecified)),
     if Truthy(pd.tier) then Strong(w.tier, Render(pd.tier)) else "",
     if Truthy(pd.technology) then Strong(w.technology, Render(pd.technology)) else "",
     if Truthy(pd.price) then Strong(w.price, "\U{20AC}" + Render(pd.price)) else "",
     if Truthy(pd.monthlyPrice) then Strong(w.monthlyPrice, "\U{20AC}" + Render(pd.monthlyPrice) + w.perMonth) else "",
     "", "<h3>" + w.additional + "</h3>",
     "<p>" + messageHtml + "</p>"]
  }

  /** `message ? message.replace(/\n/g, "<br>") : fallback`, which throws for
      a truthy message that is not a string. */
  function MessageHtml(message: Value, name: string, fallback: string): (r: Eval<string>)
    ensures !Truthy(message) ==> r == Eval.Value(fallback)
    ensures message.Str? ==> r.Value?
  {
    if Truthy(message) then Js.ReplaceNewlines(message, name) else Eval.Value(fallback)
  }

  function PricingHtml(fd: FormData, pd: PackageDetails, isNL: bool): Eval<string> {
    match MessageHtml(fd.message, "message", PricingWords(isNL).noMessage)
    case Threw(m) => Threw(m)
    case Value(h) => Eval.Value(Text.Template(BodyIndent, PricingHtmlLines(fd, pd, PricingWords(isNL), h), ClosingIndent))
  }

  // ---- MVP requests ----

  datatype MvpLabels = MvpLabels(
    title: string, subjectPrefix: string, clientInfo: string, name: string, email: string,
    phone: string, notProvided: string, package: string, customRequest: string,
    description: string, noDescription: string)

  function MvpWords(isNL: bool): MvpLabels {
    if isNL then
      MvpLabels("Nieuwe MVP Ontwikkelingsaanvraag", "Nieuwe MVP Aanvraag", "Klantinformatie:", "Naam:",
                "E-mail:", "Telefoon:", "Niet opgegeven", "Pakket:", "Aangepaste Aanvraag",
                "Projectbeschrijving:", "Geen projectbeschrijving opgegeven")
    else
      MvpLabels("New MVP Development Request", "New MVP Request", "Client Information:", "Name:",
                "Email:", "Phone:", "Not provided", "Package:", "Custom Request",
                "Project Description:", "No project description provided")
  }

  function MvpSubject(fd: FormData, isNL: bool): string {
    var w := MvpWords(isNL);
    w.subjectPrefix + ": " + RenderOr(fd.selectedPackage, w.customRequest)
  }

  function MvpText(fd: FormData, isNL: bool): string {
    var w := MvpWords(isNL);
    Text.Template(BodyIndent,
      [w.title, "", w.clientInfo,
       w.name + " " + FullName(fd),
       w.email + " " + Render(fd.email),
       w.phone + " " + RenderOr(fd.phone, w.notProvided),
       "", w.package + " " + RenderOr(fd.selectedPackage, w.customRequest),
       "", w.description,
       RenderOr(fd.projectDescription, w.noDescription)],
      ClosingIndent)
  }

  function MvpHtml(fd: FormData, isNL: bool): Eval<string> {
    var w := MvpWords(isNL);
    match MessageHtml(fd.projectDescription, "projectDescription", w.noDescription)
    case Threw(m) => Threw(m)
    case Value(h) =>
      Eval.Value(Text.Template(BodyIndent,
        ["<h2>" + w.title + "</h2>", "", "<h3>" + w.clientInfo + "</h3>",
         Strong(w.name, FullName(fd)),
         Strong(w.email, Render(fd.email)),
         Strong(w.phone, RenderOr(fd.phone, w.notProvided)),
         "", "<h3>" + w.package + "</h3>",
         "<p>" + RenderOr(fd.selectedPackage, w.customRequest) + "</p>",
         "", "<h3>" + w.description + "</h3>",
         "<p>" + h + "</p>"],
        ClosingIndent))
  }

  // ---- any other form type ----

  /** `json` is `JSON.stringify(formData, null, 2)`. */
  function GenericContent(formType: Value, json: string, isNL: bool): Content {
    if isNL then
      Content("Nieuw Formulier Bericht: " + Render(formType),
              "Algemeen formulier bericht van " + Render(formType) + " pagina:\n\n" + json,
              "<h2>Algemeen formulier bericht van " + Render(formType) + " pagina:</h2><pre>" + json + "</pre>")
    else
      Content("New Form Submission: " + Render(formType),
              "Generic form submission from " + Render(formType) + " page:\n\n" + json,
              "<h2>Generic form submission from " + Render(formType) + " page:</h2><pre>" + json + "</pre>")
  }

  /** The mail to the business for a form type, or the error composing it threw. */
  function Compose(formType: Value, fd: FormData, json: string, isNL: bool): Eval<Content> {
    if IsString(formType, "pricing") then
      match fd.packageDetails
      case Missing => Threw(PropertyReadError(false, "package"))
      case NullRecord => Threw(PropertyReadError(true, "package"))
      case Present(pd) => PricingContent(fd, pd, isNL)
    else if IsString(formType, "mvp") then
      MvpContent(fd, isNL)
    else
      Eval.Value(GenericContent(formType, json, isNL))
  }

  function PricingContent(fd: FormData, pd: PackageDetails, isNL: bool): Eval<Content> {
    match PricingHtml(fd, pd, isNL)
    case Threw(m) => Threw(m)
    case Value(h) => Eval.Value(Content(PricingSubject(pd, isNL), PricingText(fd, pd, isNL), h))
  }

  function MvpContent(fd: FormData, isNL: bool): Eval<Content> {
    match MvpHtml(fd, isNL)
    case Threw(m) => Threw(m)
    case Value(h) => Eval.Value(Content(MvpSubject(fd, isNL), MvpText(fd, isNL), h))
  }

  // ---- confirmation to the visitor ----

  /** What the visitor asked for: the pricing wording for `pricing`, the MVP
      wording for every other form type. */
  function RequestKind(formType: Value, isNL: bool): string {
    if IsString(formType, "pricing") then (if isNL then "prijsaanvraag" else "pricing request")
    else (if isNL then "MVP ontwikkelingsaanvraag" else "MVP development request")
  }

  function ConfirmationContent(formType: Value, fd: FormData, isNL: bool): Content {
    var kind := RequestKind(formType, isNL);
    Content(ConfirmationSubject(kind, isNL), ConfirmationText(fd, kind, isNL), ConfirmationHtml(fd, kind, isNL))
  }

  function ConfirmationSubject(kind: string, isNL: bool): string {
    (if isNL then "Bedankt voor uw " else "Thank you for your ") + kind
  }

  function ConfirmationText(fd: FormData, kind: string, isNL: bool): string {
    if isNL then
      Text.Template(BodyIndent,
        ["Beste " + Render(fd.firstName) + ",", "",
         "Bedankt voor uw " + kind + " bij 8Leaps. We hebben uw aanvraag ontvangen en zullen zo snel mogelijk contact met u opnemen.",
         "", "Met vriendelijke groet,", "Het 8Leaps Team"],
        ClosingIndent)
    else
      Text.Template(BodyIndent,
        ["Dear " + Render(fd.firstName) + ",", "",
         "Thank you for your " + kind + " with 8Leaps. We have received your submission and will get back to you as soon as possible.",
         "", "Best regards,", "The 8Leaps Team"],
        ClosingIndent)
  }

  function ConfirmationHtml(fd: FormData, kind: string, isNL: bool): string {
    if isNL then
      Text.Template(BodyIndent,
        ["<p>Beste " + Render(fd.firstName) + ",</p>", "",
         "<p>Bedankt voor uw " + kind + " bij 8Leaps. We hebben uw aanvraag ontvangen en zullen zo snel mogelijk contact met u opnemen.</p>",
         "", "<p>Met vriendelijke groet,<br>Het 8Leaps Team</p>"],
        ClosingIndent)
    else
      Text.Template(BodyIndent,
        ["<p>Dear " + Render(fd.firstName) + ",</p>", "",
         "<p>Thank you for your " + kind + " with 8Leaps. We have received your submission and will get back to you as soon as possible.</p>",
         "", "<p>Best regards,<br>The 8Leaps Team</p>"],
        ClosingIndent)
  }

  /** The mail to the business: to the fixed inbox, replies to the visitor. */
  function PrimaryMail(env: Env, fd: FormData, c: Content): Mail
    requires ConfigComplete(env)
  {
    Mail(Sender(env), Str(BusinessInbox), fd.email, c.subject, c.text, c.html)
  }

  /** The confirmation: to the visitor's address, without a reply-to. */
  function ConfirmationMail(env: Env, formType: Value, fd: FormData): Mail
    requires ConfigComplete(env)
  {
    var c := ConfirmationContent(formType, fd, IsDutch(fd.language));
    Mail(Sender(env), fd.email, Undefined, c.subject, c.text, c.html)
  }

  /** What the handler promises once `formData` is read and the mail for
      it has been composed (or has failed to compose): the configuration
      check comes first, a composing error is fatal, and otherwise the
      transport phase follows. */
  predicate Handled(env: Env, formType: Value, fd: FormData, composed: Eval<Content>,
                    verify: VerifyOutcome, primary: SendOutcome, resp: Response, calls: seq<Call>)
  {
    && (!ConfigComplete(env) ==> resp == Failure500(ConfigIncompleteError, None) && calls == [])
    && (ConfigComplete(env) && composed.Threw? ==> resp == Failure500(SendError, Some(composed.message)) && calls == [])
    && (ConfigComplete(env) && composed.Value? ==>
          Delivered(PrimaryMail(env, fd, composed.value), ConfirmationMail(env, formType, fd), SendError,
                    verify, primary, resp, calls))
  }

  /** The branch on the form type that fills `subject`, `emailContent` and
      `htmlContent`, stopping at the first error a template throws. */
  method ComposeMessage(formType: Value, formData: FormData, json: string, isNL: bool) returns (r: Eval<Content>)
    ensures r == Compose(formType, formData, json, isNL)
  {
    var subject := "";
    var emailContent := "";
    var htmlContent := "";
    if IsString(formType, "pricing") {
      if !formData.packageDetails.Present? {
        return Threw(PropertyReadError(formData.packageDetails.NullRecord?, "package"));
      }
      var packageDetails := formData.packageDetails.fields;
      subject := PricingSubject(packageDetails, isNL);
      emailContent := PricingText(formData, packageDetails, isNL);
      var html := PricingHtml(formData, packageDetails, isNL);
      if html.Threw? {
        return Threw(html.message);
      }
      htmlContent := html.value;
    } else if IsString(formType, "mvp") {
      subject := MvpSubject(formData, isNL);
      emailContent := MvpText(formData, isNL);
      var html := MvpHtml(formData, isNL);
      if html.Threw? {
        return Threw(html.message);
      }
      htmlContent := html.value;
    } else {
      var generic := GenericContent(formType, json, isNL);
      subject, emailContent, htmlContent := generic.subject, generic.text, generic.html;
    }
    r := Eval.Value(Content(subject, emailContent, htmlContent));
  }

  /** The response and the transport calls once `formData` is read, given
      what composing the mail gave. */
  function Submission(env: Env, formType: Value, fd: FormData, composed: Eval<Content>,
                      verify: VerifyOutcome, primary: SendOutcome): (r: (Response, seq<Call>))
    ensures Handled(env, formType, fd, composed, verify, primary, r.0, r.1)
  {
    if !ConfigComplete(env) then (Failure500(ConfigIncompleteError, None), [])
    else
      match composed
      case Threw(m) => (Failure500(SendError, Some(m)), [])
      case Value(c) => DeliveryOf(PrimaryMail(env, fd, c), ConfirmationMail(env, formType, fd), SendError, verify, primary)
  }

  /** The mail a request composes: `formData.language` picks the wording. */
  function Composed(formType: Value, fd: FormData, json: string): Eval<Content> {
    Compose(formType, fd, json, IsDutch(fd.language))
  }

  /** The `POST` handler. `verify`, `primary` and `confirmation` are the
      outcomes the transport gives the calls it is asked to make. */
  method Post(env: Env, body: SubmissionBody, json: string,
              verify: VerifyOutcome, primary: SendOutcome, confirmation: SendOutcome)
    returns (resp: Response, calls: seq<Call>)
    ensures body.Unparseable? ==> resp == Failure500(SendError, Some(body.reason)) && calls == []
    ensures body.Submission? && !body.formData.Present? ==>
              resp == Failure500(SendError, Some(PropertyReadError(body.formData.NullRecord?, "language"))) && calls == []
    ensures body.Submission? && body.formData.Present? ==>
              var fd := body.formData.fields;
              (resp, calls) == Submission(env, body.formType, fd, Composed(body.formType, fd, json), verify, primary)
  {
    if body.Unparseable? {
      return Failure500(SendError, Some(body.reason)), [];
    }
    var formType := body.formType;
    if !body.formData.Present? {
      return Failure500(SendError, Some(PropertyReadError(body.formData.NullRecord?, "language"))), [];
    }
    var formData := body.formData.fields;
    resp, calls := Submit(env, formType, formData, json, verify, primary, confirmation);
  }

  /** The handler from `formData.language` on. */
  method Submit(env: Env, formType: Value, formData: FormData, json: string,
                verify: VerifyOutcome, primary: SendOutcome, confirmation: SendOutcome)
    returns (resp: Response, calls: seq<Call>)
    ensures (resp, calls) == Submission(env, formType, formData, Composed(formType, formData, json), verify, primary)
  {
    var language := Or(formData.language, Str("en"));
    if !ConfigComplete(env) {
      return Failure500(ConfigIncompleteError, None), [];
    }
    var isNL := language == Str("nl");
    assert isNL == IsDutch(formData.language);
    var composed := ComposeMessage(formType, formData, json, isNL);
    if composed.Threw? {
      return Failure500(SendError, Some(composed.message)), [];
    }
    var mail := Mail(Sender(env), Str(BusinessInbox), formData.email, composed.value.subject,
                     composed.value.text, composed.value.html);
    assert mail == PrimaryMail(env, formData, composed.value);
    resp, calls := Deliver(mail, ConfirmationMail(env, formType, formData), SendError, verify, primary, confirmation);
  }

  // ---- properties ----

  /** The confirmation uses the pricing wording only for `pricing`; every
      other form type, the generic ones included, gets exactly the MVP
      confirmation. */
  lemma ConfirmationForOtherTypes(formType: Value, fd: FormData, isNL: bool)
    requires formType != Str("pricing")
    ensures ConfirmationContent(formType, fd, isNL) == ConfirmationContent(Str("mvp"), fd, isNL)
  {
    assert RequestKind(formType, isNL) == RequestKind(Str("mvp"), isNL);
  }

  /** The values rendered into the pricing mail hold no line break. */
  predicate SingleLineFields(fd: FormData, pd: PackageDetails) {
    && Text.NoNewline(Render(fd.firstName)) && Text.NoNewline(Render(fd.lastName))
    && Text.NoNewline(Render(fd.email)) && Text.NoNewline(Render(fd.phone))
    && Text.NoNewline(Render(pd.package)) && Text.NoNewline(Render(pd.clientType))
    && Text.NoNewline(Render(pd.tier)) && Text.NoNewline(Render(pd.technology))
    && Text.NoNewline(Render(pd.price)) && Text.NoNewline(Render(pd.monthlyPrice))
  }

  /** The labels of a pricing mail, each a single line. */
  predicate SingleLineWords(w: PricingLabels) {
    && Text.NoNewline(w.title) && Text.NoNewline(w.clientInfo) && Text.NoNewline(w.name)
    && Text.NoNewline(w.email) && Text.NoNewline(w.phone) && Text.NoNewline(w.notProvided)
    && Text.NoNewline(w.details) && Text.NoNewline(w.package) && Text.NoNewline(w.customPackage)
    && Text.NoNewline(w.clientType) && Text.NoNewline(w.notSpecified) && Text.NoNewline(w.tier)
    && Text.NoNewline(w.technology) && Text.NoNewline(w.price) && Text.NoNewline(w.monthlyPrice)
    && Text.NoNewline(w.perMonth) && Text.NoNewline(w.additional) && Text.NoNewline(w.noMessage)
  }

  lemma PricingWordsSingleLine(isNL: bool)
    ensures SingleLineWords(PricingWords(isNL))
  {
    if isNL {
      DutchLabelsSingleLine1();
      DutchLabelsSingleLine2();
      DutchLabelsSingleLine3();
      DutchLabelsSingleLine4();
      assert SingleLineWords(PricingWords(true));
    } else {
      EnglishLabelsSingleLine1();
      EnglishLabelsSingleLine2();
      EnglishLabelsSingleLine3();
      assert SingleLineWords(PricingWords(false));
    }
  }

  lemma EnglishLabelsSingleLine1()
    ensures Text.NoNewline("New Pricing Form Submission")
    ensures Text.NoNewline("Client Information:")
    ensures Text.NoNewline("Name:")
    ensures Text.NoNewline("Email:")
    ensures Text.NoNewline("Phone:")
    ensures Text.NoNewline("Not provided")
  {
  }

  lemma EnglishLabelsSingleLine2()
    ensures Text.NoNewline("Package Details:")
    ensures Text.NoNewline("Package:")
    ensures Text.NoNewline("Custom Package")
    ensures Text.NoNewline("Client Type:")
    ensures Text.NoNewline("Not specified")
    ensures Text.NoNewline("Tier:")
  {
  }

  lemma EnglishLabelsSingleLine3()
    ensures Text.NoNewline("Technology:")
    ensures Text.NoNewline("Price:")
    ensures Text.NoNewline("Monthly Price:")
    ensures Text.NoNewline("/month")
    ensures Text.NoNewline("Additional Message:")
    ensures Text.NoNewline("No additional message provided")
  {
  }

  lemma DutchLabelsSingleLine1()
    ensures Text.NoNewline("Nieuwe Prijsaanvraag")
    ensures Text.NoNewline("Klantinformatie:")
    ensures Text.NoNewline("Naam:")
    ensures Text.NoNewline("E-mail:")
    ensures Text.NoNewline("Telefoon:")
    ensures Text.NoNewline("Niet opgegeven")
  {
  }

  lemma DutchLabelsSingleLine2()
    ensures Text.NoNewline("Pakketdetails:")
    ensures Text.NoNewline("Pakket:")
    ensures Text.NoNewline("Aangepast Pakket")
    ensures Text.NoNewline("Klanttype:")
    ensures Text.NoNewline("Niet gespecificeerd")
    ensures Text.NoNewline("Niveau:")
  {
  }

  lemma DutchLabelsSingleLine3()
    ensures Text.NoNewline("Technologie:")
    ensures Text.NoNewline("Prijs:")
    ensures Text.NoNewline("Maandelijkse Prijs:")
    ensures Text.NoNewline("/maand")
  {
  }

  lemma DutchLabelsSingleLine4()
    ensures Text.NoNewline("Aanvullend Bericht:")
    ensures Text.NoNewline("Geen aanvullend bericht opgegeven")
  {
  }

  /** Read line by line, the plain-text pricing mail shows the tier,
      technology, price and monthly lines exactly when their values are
      truthy; otherwise the line holds only the indentation. */
  lemma PricingTextConditionalLines(fd: FormData, pd: PackageDetails, isNL: bool)
    requires SingleLineFields(fd, pd) && Text.NoNewline(Render(fd.message))
    ensures var lines := Text.SplitLines(PricingText(fd, pd, isNL));
      var w := PricingWords(isNL);
      && |lines| == 19
      && lines[11] == BodyIndent + (if Truthy(pd.tier) then w.tier + " " + Render(pd.tier) else "")
      && lines[12] == BodyIndent + (if Truthy(pd.technology) then w.technology + " " + Render(pd.technology) else "")
      && lines[13] == BodyIndent + (if Truthy(pd.price) then w.price + " \U{20AC}" + Render(pd.price) else "")
      && lines[14] == BodyIndent +
           (if Truthy(pd.monthlyPrice) then w.monthlyPrice + " \U{20AC}" + Render(pd.monthlyPrice) + w.perMonth else "")
      && lines[18] == ClosingIndent
  {
    var w := PricingWords(isNL);
    PricingWordsSingleLine(isNL);
    ConditionalTextLines(fd, pd, w);
    var details := DetailTextLines(pd, w);
    assert details[4] == (if Truthy(pd.tier) then w.tier + " " + Render(pd.tier) else "");
    assert details[7] ==
           (if Truthy(pd.monthlyPrice) then w.monthlyPrice + " \U{20AC}" + Render(pd.monthlyPrice) + w.perMonth else "");
  }

  /** Lines 11 to 14 of the plain-text mail are the conditional detail
      lines, for any single-line wording. */
  lemma ConditionalTextLines(fd: FormData, pd: PackageDetails, w: PricingLabels)
    requires SingleLineFields(fd, pd) && Text.NoNewline(Render(fd.message)) && SingleLineWords(w)
    ensures var lines := Text.SplitLines(Text.Template(BodyIndent, PricingTextLines(fd, pd, w), ClosingIndent));
      var details := DetailTextLines(pd, w);
      && |lines| == 19
      && lines[11] == BodyIndent + details[4] && lines[12] == BodyIndent + details[5]
      && lines[13] == BodyIndent + details[6] && lines[14] == BodyIndent + details[7]
      && lines[18] == ClosingIndent
  {
    PricingTextLinesSplit(fd, pd, w);
    var body := PricingTextLines(fd, pd, w);
    var details := DetailTextLines(pd, w);
    assert body[10] == details[4] && body[11] == details[5] && body[12] == details[6] && body[13] == details[7];
  }

  /** The same, for any single-line wording. */
  lemma PricingTextLinesSplit(fd: FormData, pd: PackageDetails, w: PricingLabels)
    requires SingleLineFields(fd, pd) && Text.NoNewline(Render(fd.message)) && SingleLineWords(w)
    ensures Text.SplitLines(Text.Template(BodyIndent, PricingTextLines(fd, pd, w), ClosingIndent)) ==
            [""] + Text.Indented(BodyIndent, PricingTextLines(fd, pd, w)) + [ClosingIndent]
  {
    var body := PricingTextLines(fd, pd, w);
    var client, details := ClientTextLines(fd, w), DetailTextLines(pd, w);
    assert Text.NoNewline(" \U{20AC}");
    forall i | 0 <= i < |client| ensures Text.NoNewline(client[i]) {
    }
    forall i | 0 <= i < |details| ensures Text.NoNewline(details[i]) {
    }
    forall i | 0 <= i < |body| ensures Text.NoNewline(body[i]) {
      if i < 6 {
        assert body[i] == client[i];
      } else if i < 16 {
        assert body[i] == details[i - 6];
      }
    }
    Text.TemplateLines(BodyIndent, body, ClosingIndent);
  }

  /** In the HTML pricing mail the visitor's message is one paragraph on one
      line: its line breaks become `<br>`, and any other text, markup
      included, is copied unescaped. */
  lemma PricingHtmlMessageLine(fd: FormData, pd: PackageDetails, isNL: bool)
    requires SingleLineFields(fd, pd)
    requires fd.message.Str? && fd.message.s != ""
    ensures PricingHtml(fd, pd, isNL).Value?
    ensures var lines := Text.SplitLines(PricingHtml(fd, pd, isNL).value);
      && |lines| == 19
      && lines[17] == BodyIndent + "<p>" + Text.ReplaceNewlines(fd.message.s) + "</p>"
      && (Text.NoNewline(fd.message.s) ==> lines[17] == BodyIndent + "<p>" + fd.message.s + "</p>")
  {
    var w := PricingWords(isNL);
    var h := Text.ReplaceNewlines(fd.message.s);
    assert MessageHtml(fd.message, "message", w.noMessage) == Eval.Value(h);
    assert PricingHtml(fd, pd, isNL) == Eval.Value(Text.Template(BodyIndent, PricingHtmlLines(fd, pd, w, h), ClosingIndent));
    Text.ReplaceNewlinesRemovesNewlines(fd.message.s);
    PricingWordsSingleLine(isNL);
    HtmlParagraphLine(fd, pd, w, h);
    if Text.NoNewline(fd.message.s) {
      Text.ReplaceNewlinesKeepsOtherText(fd.message.s);
    }
  }

  /** Line 17 of the HTML mail, for any single-line wording. */
  lemma HtmlParagraphLine(fd: FormData, pd: PackageDetails, w: PricingLabels, h: string)
    requires SingleLineFields(fd, pd) && Text.NoNewline(h) && SingleLineWords(w)
    ensures var lines := Text.SplitLines(Text.Template(BodyIndent, PricingHtmlLines(fd, pd, w, h), ClosingIndent));
      |lines| == 19 && lines[17] == BodyIndent + "<p>" + h + "</p>"
  {
    var body := PricingHtmlLines(fd, pd, w, h);
    PricingHtmlLinesSplit(fd, pd, w, h);
    assert body[16] == "<p>" + h + "</p>";
  }

  lemma PricingHtmlLinesSplit(fd: FormData, pd: PackageDetails, w: PricingLabels, h: string)
    requires SingleLineFields(fd, pd) && Text.NoNewline(h) && SingleLineWords(w)
    ensures Text.SplitLines(Text.Template(BodyIndent, PricingHtmlLines(fd, pd, w, h), ClosingIndent)) ==
            [""] + Text.Indented(BodyIndent, PricingHtmlLines(fd, pd, w, h)) + [ClosingIndent]
  {
    var body := PricingHtmlLines(fd, pd, w, h);
    MarkupSingleLine();
    forall i | 0 <= i < |body| ensures Text.NoNewline(body[i]) {
    }
    Text.TemplateLines(BodyIndent, body, ClosingIndent);
  }

  /** The selected package keys are sent along but never rendered: the mail
      is the same whatever the list holds. */
  lemma PackageListNotRendered(formType: Value, fd: FormData, pd: PackageDetails, other: Option<seq<string>>, json: string, isNL: bool)
    requires fd.packageDetails == Present(pd)
    ensures Compose(formType, fd, json, isNL) ==
            Compose(formType, fd.(packageDetails := Present(pd.(packages := other))), json, isNL)
  {
    var pd' := pd.(packages := other);
    var fd' := fd.(packageDetails := Present(pd'));
    if IsString(formType, "pricing") {
      PricingIgnoresPackages(fd, fd', pd, pd', isNL);
    } else if IsString(formType, "mvp") {
      MvpIgnoresPackageDetails(fd, fd', isNL);
    }
  }

  lemma PricingIgnoresPackages(fd: FormData, fd': FormData, pd: PackageDetails, pd': PackageDetails, isNL: bool)
    requires fd' == fd.(packageDetails := fd'.packageDetails)
    requires pd' == pd.(packages := pd'.packages)
    ensures PricingContent(fd, pd, isNL) == PricingContent(fd', pd', isNL)
  {
    var w := PricingWords(isNL);
    assert FullName(fd) == FullName(fd');
    assert PricingTextLines(fd, pd, w) == PricingTextLines(fd', pd', w);
    forall h ensures PricingHtmlLines(fd, pd, w, h) == PricingHtmlLines(fd', pd', w, h) {
    }
    assert PricingHtml(fd, pd, isNL) == PricingHtml(fd', pd', isNL);
  }

  lemma MvpIgnoresPackageDetails(fd: FormData, fd': FormData, isNL: bool)
    requires fd' == fd.(packageDetails := fd'.packageDetails)
    ensures MvpContent(fd, isNL) == MvpContent(fd', isNL)
  {
    assert FullName(fd) == FullName(fd');
  }

  /** A truthy message that is not a string makes composing the pricing mail
      throw the TypeError of calling `replace` on it. */
  lemma NonStringMessageThrows(fd: FormData, pd: PackageDetails, json: string, isNL: bool)
    requires fd.packageDetails == Present(pd)
    requires Truthy(fd.message) && !fd.message.Str?
    ensures Compose(Str("pricing"), fd, json, isNL) == Threw("message" + ".replace is not a function")
  {
    assert MessageHtml(fd.message, "message", PricingWords(isNL).noMessage) == Threw(ReplaceError(fd.message, "message"));
    assert PricingHtml(fd, pd, isNL) == Threw(ReplaceError(fd.message, "message"));
  }
}
