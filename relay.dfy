/** What the two mail-relay endpoints share: the request shapes the pages
    post, the server settings they read, the mail transport seen as a
    sequence of calls whose outcomes are given, and the JSON responses. */
module Relay {
  import opened Optional
  import Js
  import Text

  /** A JSON member that should hold an object: absent, `null`, or present. */
  datatype Record<T> = Missing | NullRecord | Present(fields: T)

  /** `formData.packageDetails` as the pricing page fills it. `packages` is
      None when the member is absent. */
  datatype PackageDetails = PackageDetails(
    package: Js.Value, clientType: Js.Value, tier: Js.Value, technology: Js.Value,
    packages: Option<seq<string>>, price: Js.Value, monthlyPrice: Js.Value)

  /** `formData` of a form-submission request; members a page does not send are `Undefined`. */
  datatype FormData = FormData(
    firstName: Js.Value, lastName: Js.Value, email: Js.Value, phone: Js.Value,
    message: Js.Value, packageDetails: Record<PackageDetails>,
    projectDescription: Js.Value, selectedPackage: Js.Value, language: Js.Value)

  /** The server settings the endpoints read; None is an unset variable. */
  datatype Env = Env(
    host: Option<string>, port: Option<string>, username: Option<string>,
    password: Option<string>, from: Option<string>, secure: Option<string>)

  predicate IsSet(v: Option<string>) {
    v.Some? && v.value != ""
  }

  /** The five settings without which no transport is created. The secure
      flag is optional. */
  predicate ConfigComplete(env: Env) {
    IsSet(env.host) && IsSet(env.port) && IsSet(env.username) && IsSet(env.password) && IsSet(env.from)
  }

  /** A message handed to the transport. `replyTo` is `Undefined` when not given. */
  datatype Mail = Mail(from: string, to: Js.Value, replyTo: Js.Value, subject: string, text: string, html: string)

  /** The transport calls a request makes, in order. */
  datatype Call = Verify | Send(mail: Mail)

  datatype VerifyOutcome = Verified | VerifyFailed(reason: string)
  datatype SendOutcome = Sent(messageId: string) | SendFailed(reason: string)

  /** A composed mail: subject, plain text and HTML. */
  datatype Content = Content(subject: string, text: string, html: string)

  datatype ResponseBody = Success(messageId: string) | Failure(error: string, details: Option<string>)
  datatype Response = Response(status: nat, body: ResponseBody)

  const BusinessInbox: string := "info@8leaps.com"
  const ConfigIncompleteError: string := "Server email configuration is incomplete"
  const VerifyError: string := "Failed to verify SMTP connection"

  function Success200(messageId: string): (r: Response)
    ensures r.status == 200 && r.body.Success?
  {
    Response(200, Success(messageId))
  }

  function Failure500(error: string, details: Option<string>): (r: Response)
    ensures r.status == 500 && r.body.Failure? && r.body.error == error
  {
    Response(500, Failure(error, details))
  }

  /** `<p><strong>caption</strong> value</p>`, the HTML line both endpoints
      show a labelled value in. */
  function Strong(caption: string, value: string): string {
    "<p><strong>" + caption + "</strong> " + value + "</p>"
  }

  /** The markup the HTML templates wrap their values in holds no line break. */
  lemma MarkupSingleLine()
    ensures Text.NoNewline("<h2>") && Text.NoNewline("</h2>") && Text.NoNewline("<h3>") && Text.NoNewline("</h3>")
    ensures Text.NoNewline("<p>") && Text.NoNewline("</p>") && Text.NoNewline("\U{20AC}")
    ensures forall c, v :: Text.NoNewline(c) && Text.NoNewline(v) ==> Text.NoNewline(Strong(c, v))
  {
  }

  /** The sender address, defined once the configuration check has passed. */
  function Sender(env: Env): string
    requires ConfigComplete(env)
  {
    env.from.value
  }

  /** What the transport phase of both endpoints promises: a failed
      verification stops everything, a failed send of the mail to the
      business is fatal, and once that mail is out the confirmation is
      attempted and its outcome ignored. */
  predicate Delivered(primary: Mail, confirmation: Mail, sendError: string,
                      verify: VerifyOutcome, sent: SendOutcome, resp: Response, calls: seq<Call>)
  {
    && (verify.VerifyFailed? ==> resp == Failure500(VerifyError, Some(verify.reason)) && calls == [Verify])
    && (verify.Verified? && sent.SendFailed? ==>
          resp == Failure500(sendError, Some(sent.reason)) && calls == [Verify, Send(primary)])
    && (verify.Verified? && sent.Sent? ==>
          resp == Success200(sent.messageId) && calls == [Verify, Send(primary), Send(confirmation)])
  }

  /** The response and the transport calls of the delivery phase. */
  function DeliveryOf(primary: Mail, confirmation: Mail, sendError: string,
                      verify: VerifyOutcome, sent: SendOutcome): (r: (Response, seq<Call>))
    ensures Delivered(primary, confirmation, sendError, verify, sent, r.0, r.1)
    ensures r.0.status == 200 <==> r.0.body.Success?
  {
    if verify.VerifyFailed? then (Failure500(VerifyError, Some(verify.reason)), [Verify])
    else if sent.SendFailed? then (Failure500(sendError, Some(sent.reason)), [Verify, Send(primary)])
    else (Success200(sent.messageId), [Verify, Send(primary), Send(confirmation)])
  }

  /** Verify the connection, send the mail to the business, then try the
      confirmation. `verify`, `sent` and `confirmationSent` are the outcomes
      the transport gives the three calls. */
  method Deliver(primary: Mail, confirmation: Mail, sendError: string,
                 verify: VerifyOutcome, sent: SendOutcome, confirmationSent: SendOutcome)
    returns (resp: Response, calls: seq<Call>)
    ensures (resp, calls) == DeliveryOf(primary, confirmation, sendError, verify, sent)
  {
    calls := [Verify];
    if verify.VerifyFailed? {
      return Failure500(VerifyError, Some(verify.reason)), calls;
    }
    calls := calls + [Send(primary)];
    assert calls == [Verify, Send(primary)];
    if sent.SendFailed? {
      return Failure500(sendError, Some(sent.reason)), calls;
    }
    // The confirmation's outcome is logged and otherwise ignored.
    calls := calls + [Send(confirmation)];
    assert calls == [Verify, Send(primary), Send(confirmation)];
    resp := Success200(sent.messageId);
  }

  /** `Delivered` fixes the response and the calls, so neither depends on
      how the confirmation fared. */
  lemma DeliveredIsDeterministic(primary: Mail, confirmation: Mail, sendError: string, verify: VerifyOutcome,
                                 sent: SendOutcome, resp1: Response, calls1: seq<Call>, resp2: Response, calls2: seq<Call>)
    requires Delivered(primary, confirmation, sendError, verify, sent, resp1, calls1)
    requires Delivered(primary, confirmation, sendError, verify, sent, resp2, calls2)
    ensures resp1 == resp2 && calls1 == calls2
  {
  }

  /** The business is written to at most once, and the visitor only after
      the business mail went out and so only on success. */
  lemma DeliveredCallOrder(primary: Mail, confirmation: Mail, sendError: string, verify: VerifyOutcome,
                           sent: SendOutcome, resp: Response, calls: seq<Call>)
    requires Delivered(primary, confirmation, sendError, verify, sent, resp, calls)
    ensures 1 <= |calls| <= 3 && calls[0] == Verify
    ensures Send(confirmation) in calls && confirmation != primary ==> resp.status == 200 && calls[1] == Send(primary)
    ensures resp.status == 200 <==> |calls| == 3
  {
  }
}
