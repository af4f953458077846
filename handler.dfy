/**
 * The Lambda handler (package main): it parses a contact-form submission,
 * validates it, sanitizes it, sends it as an email and answers with a JSON
 * response, dispatching an operator alert when validation or sending fails.
 *
 * Outside the model, and inputs here instead: the JSON decoding of the
 * request body (`request`), the SES client set-up (`sesInit`), the HTML
 * template file (`template`), the clock (`now` and the alert's times) and
 * `fmt.Sprintf` in `createErrorResponse` (`sprintf`). An alert that the
 * handler launches in a goroutine is returned as an `AlertRequest`;
 * `SendAlertEmail` is what that goroutine does with it.
 */
module Handler {
  import opened Wrappers
  import opened GoStrings
  import opened Validator
  import opened Config
  import opened Emailer

  datatype FormData = FormData(name: string, email: string, subject: string, message: string)

  /** The JSON response body; an empty field is omitted (`omitempty`). */
  datatype ResponseBody = ResponseBody(message: string, error: string)

  datatype Response = Response(statusCode: int, headers: map<string, string>, body: ResponseBody)

  /** An alert launched with `go sendAlertEmail(ctx, cfg, err, originalData)`. */
  datatype AlertRequest = AlertRequest(cfg: Config, cause: string, originalData: FormData)

  const JsonHeaders: map<string, string> := map["Content-Type" := "application/json"]

  const InvalidRequestMessage := "Invalid request format"
  const InternalErrorMessage := "Internal Server Error"
  const SendFailedMessage := "Failed to send email"
  const SuccessMessage := "Email sent successfully!"

  /** A failure answer as the handler sends it: the status and the error text, JSON headers. */
  function ErrorResponse(statusCode: int, message: string): Response
  {
    Response(statusCode, JsonHeaders, ResponseBody("", message))
  }

  /**
   * `validateFormData`: name required, then "email" required, then the email
   * pattern. The second check tests the name, as the handler does, so it
   * can never fail once the first has passed.
   */
  function ValidateFormData(data: FormData): (r: Outcome)
    ensures r == Pass <==> data.name != "" && EmailShape(data.email)
    ensures data.name == "" ==> r == Fail(RequiredMessage("name"))
    ensures data.name != "" && !EmailShape(data.email) ==> r == Fail(InvalidEmailMessage)
  {
    var nameCheck := ValidateRequired("name", data.name);
    if nameCheck.Fail? then nameCheck
    else
      var emailCheck := ValidateRequired("email", data.name);
      if emailCheck.Fail? then emailCheck
      else ValidateEmail(data.email)
  }

  /** The "email" required message is never produced, whatever the submission. */
  lemma EmailRequiredNeverReported(data: FormData)
    ensures ValidateFormData(data) != Fail(RequiredMessage("email"))
  {
    if data.name == "" && RequiredMessage("name") == RequiredMessage("email") {
      RequiredMessageInjective("name", "email");
    }
    if data.name != "" && !EmailShape(data.email) {
      assert |InvalidEmailMessage| != |RequiredMessage("email")|;
    }
  }

  /** An empty email with a name present is reported as a malformed address, not as missing. */
  lemma EmptyEmailReportedAsMalformed(data: FormData)
    requires data.name != "" && data.email == ""
    ensures ValidateFormData(data) == Fail(InvalidEmailMessage)
  {
    EmailRejectsShort(data.email);
  }

  /** Subject and message never affect validation. */
  lemma ValidationIgnoresSubjectAndMessage(data: FormData, subject: string, message: string)
    ensures ValidateFormData(data.(subject := subject, message := message)) == ValidateFormData(data)
  {
  }

  /** `sanitizeFormData`: each of the four fields sanitized on its own. */
  function SanitizeFormData(data: FormData): FormData
  {
    FormData(SanitizeInput(data.name), SanitizeInput(data.email),
             SanitizeInput(data.subject), SanitizeInput(data.message))
  }

  /** No sanitized field holds '<' or '>', and sanitizing again changes nothing. */
  lemma SanitizeFormDataClean(data: FormData)
    ensures var r := SanitizeFormData(data);
      BracketFree(r.name) && BracketFree(r.email) && BracketFree(r.subject) && BracketFree(r.message)
    ensures SanitizeFormData(SanitizeFormData(data)) == SanitizeFormData(data)
  {
    SanitizeIdempotent(data.name);
    SanitizeIdempotent(data.email);
    SanitizeIdempotent(data.subject);
    SanitizeIdempotent(data.message);
  }

  /** A submission that passed validation keeps a valid address through sanitizing. */
  lemma SanitizeKeepsValidEmail(data: FormData)
    requires ValidateFormData(data) == Pass
    ensures SanitizeFormData(data).email == data.email
  {
    EmailHasOneAtAndNoMarkup(data.email);
    SanitizeIdentity(data.email);
  }

  /**
   * `createErrorResponse`: status and headers pass through, the body carries
   * only an error. The message is used as it is unless there is an error
   * and the message holds '%', when it is formatted with the error's text.
   */
  function CreateErrorResponse(statusCode: int, message: string, err: Option<string>,
                               headers: map<string, string>, sprintf: (string, string) -> string): (resp: Response)
    ensures resp.statusCode == statusCode && resp.headers == headers && resp.body.message == ""
    ensures err.None? || '%' !in message ==> resp.body.error == message
    ensures err.Some? && '%' in message ==> resp.body.error == sprintf(message, err.value)
  {
    var errMsg := if err.Some? && '%' in message then sprintf(message, err.value) else message;
    Response(statusCode, headers, ResponseBody("", errMsg))
  }

  /** `defaultString`: the value, or the default when the value is empty. */
  function DefaultString(val: string, defaultVal: string): (r: string)
    ensures val == "" ==> r == defaultVal
    ensures val != "" ==> r == val
    ensures r == "" <==> val == "" && defaultVal == ""
  {
    if val == "" then defaultVal else val
  }

  /** The literal text of the `%+v` rendering of a `FormData` around its four field values. */
  const FormDataPieces: seq<string> := ["{Name:", " Email:", " Subject:", " Message:", "}"]

  /** The `%+v` rendering of a submission: `{Name:.. Email:.. Subject:.. Message:..}`. */
  function FormDataString(data: FormData): string
  {
    Sprintf(FormDataPieces, [data.name, data.email, data.subject, data.message])
  }

  /** The rendering shows the four fields in declaration order. */
  lemma FormDataStringShowsFields(data: FormData)
    ensures ContainsInOrder(FormDataString(data), [data.name, data.email, data.subject, data.message])
  {
    SprintfContainsArgs(FormDataPieces, [data.name, data.email, data.subject, data.message]);
  }

  /** The contact email's data: the sanitized fields, stamped with the handler's clock. */
  function ContactData(data: FormData, now: string): EmailData
  {
    var clean := SanitizeFormData(data);
    EmailData(clean.name, clean.email, clean.subject, clean.message, now)
  }

  /** None of the handler's own error messages holds a formatting verb. */
  lemma FixedMessagesHaveNoVerb()
    ensures '%' !in InvalidRequestMessage && '%' !in InternalErrorMessage && '%' !in SendFailedMessage
  {
  }

  /**
   * `HandleRequest`. Bad JSON answers 400 and alerts nobody; a failed
   * validation answers 400 with its message and alerts with the submission
   * as received; a failed client set-up answers 500; a failed send (HTML
   * body or service) answers 500 and alerts; otherwise the sanitized
   * message goes to the configured recipient and the answer is 200.
   */
  method HandleRequest(env: map<string, string>, request: Result<FormData>, sesInit: Outcome, template: Template,
                       now: string, transport: Transport, sprintf: (string, string) -> string)
    returns (resp: Response, alerts: seq<AlertRequest>)
    modifies transport
    ensures resp.headers == JsonHeaders
    ensures resp.statusCode == 200 <==> resp.body == ResponseBody(SuccessMessage, "")
    ensures |transport.sent| != |old(transport.sent)| ==> request.Ok? && ValidateFormData(request.value) == Pass
    ensures request.Err? ==>
      resp == ErrorResponse(400, InvalidRequestMessage) && alerts == [] && transport.sent == old(transport.sent)
    ensures request.Ok? && ValidateFormData(request.value).Fail? ==>
      && resp == ErrorResponse(400, ValidateFormData(request.value).error)
      && alerts == [AlertRequest(LoadConfig(env), ValidateFormData(request.value).error, request.value)]
      && transport.sent == old(transport.sent)
    ensures request.Ok? && ValidateFormData(request.value) == Pass && sesInit.Fail? ==>
      resp == ErrorResponse(500, InternalErrorMessage) && alerts == [] && transport.sent == old(transport.sent)
    ensures request.Ok? && ValidateFormData(request.value) == Pass && sesInit == Pass ==>
      Delivered(LoadConfig(env), ContactData(request.value, now), request.value, template, now,
                old(transport.sent), transport.sent, transport.failure, resp, alerts)
  {
    var cfg := LoadConfig(env);
    var headers := JsonHeaders;
    alerts := [];
    FixedMessagesHaveNoVerb();

    if request.Err? {
      resp := CreateErrorResponse(400, InvalidRequestMessage, Some(request.error), headers, sprintf);
      assert resp == ErrorResponse(400, InvalidRequestMessage);
      return;
    }
    var data := request.value;
    var originalData := data;

    var invalid := ValidateFormData(data);
    if invalid.Fail? {
      alerts := alerts + [AlertRequest(cfg, invalid.error, originalData)];
      resp := CreateErrorResponse(400, invalid.error, None, headers, sprintf);
      assert resp == ErrorResponse(400, invalid.error);
      return;
    }

    data := SanitizeFormData(data);

    if sesInit.Fail? {
      resp := CreateErrorResponse(500, InternalErrorMessage, Some(sesInit.error), headers, sprintf);
      assert resp == ErrorResponse(500, InternalErrorMessage);
      return;
    }
    var emailClient := new SESClient(transport);
    var emailData := EmailData(data.name, data.email, data.subject, data.message, now);
    assert emailData == ContactData(originalData, now);
    resp, alerts := SendStage(emailClient, cfg, emailData, originalData, template, now, sprintf);
  }

  /**
   * What sending `emailData` (stamped with `now` if it has no timestamp)
   * leaves behind: the message handed to the service, the answer and the
   * alerts. A failure answers 500 and alerts with the submission as
   * received; a success answers 200 and alerts nobody.
   */
  ghost predicate Delivered(cfg: Config, emailData: EmailData, originalData: FormData, template: Template, now: string,
                            oldSent: seq<SendEmailInput>, sent: seq<SendEmailInput>, failure: Outcome,
                            resp: Response, alerts: seq<AlertRequest>)
  {
    var e := Stamped(emailData, now);
    var html := FormatHTMLEmail(template, e);
    && (html.Err? ==>
          && resp == ErrorResponse(500, SendFailedMessage)
          && alerts == [AlertRequest(cfg, Wrap("Error formatting HTML email", html.error), originalData)]
          && sent == oldSent)
    && (html.Ok? ==>
          && sent == oldSent + [SendEmailInput([cfg.toEmail], cfg.fromEmail, e.subject, FormatTextEmail(e), Some(html.value))]
          && (failure == Pass ==> resp == Response(200, JsonHeaders, ResponseBody(SuccessMessage, "")) && alerts == [])
          && (failure.Fail? ==>
                && resp == ErrorResponse(500, SendFailedMessage)
                && alerts == [AlertRequest(cfg, Wrap("Error sending email", failure.error), originalData)]))
  }

  /** The last stage of `HandleRequest`: the contact email goes out, and the answer follows from how that went. */
  method SendStage(emailClient: SESClient, cfg: Config, emailData: EmailData, originalData: FormData, template: Template,
                   now: string, sprintf: (string, string) -> string)
    returns (resp: Response, alerts: seq<AlertRequest>)
    modifies emailClient.client
    ensures resp.headers == JsonHeaders
    ensures resp.statusCode == 200 <==> resp.body == ResponseBody(SuccessMessage, "")
    ensures Delivered(cfg, emailData, originalData, template, now, old(emailClient.client.sent), emailClient.client.sent,
                      emailClient.client.failure, resp, alerts)
  {
    FixedMessagesHaveNoVerb();
    var sendErr := emailClient.SendContactEmail(cfg.toEmail, cfg.fromEmail, emailData, template, now);
    if sendErr.Fail? {
      alerts := [AlertRequest(cfg, sendErr.error, originalData)];
      resp := CreateErrorResponse(500, SendFailedMessage, Some(sendErr.error), JsonHeaders, sprintf);
      assert resp == ErrorResponse(500, SendFailedMessage);
      return;
    }
    alerts := [];
    resp := Response(200, JsonHeaders, ResponseBody(SuccessMessage, ""));
  }

  /**
   * `sendAlertEmail`, the body of an alert goroutine: it sets up its own
   * client and, if that works, sends the alert to every alert recipient.
   * Its outcome is only logged.
   */
  method SendAlertEmail(alert: AlertRequest, sesInit: Outcome, transport: Transport, subjectTime: string, bodyTime: string)
    modifies transport
    ensures sesInit.Fail? ==> transport.sent == old(transport.sent)
    ensures sesInit == Pass ==> transport.sent == old(transport.sent) + [SendEmailInput(
      alert.cfg.alertEmails, alert.cfg.fromEmail, AlertSubject(subjectTime),
      AlertBody(bodyTime, alert.cause, FormDataString(alert.originalData)), None)]
  {
    if sesInit.Fail? {
      return;
    }
    var emailClient := new SESClient(transport);
    var alertErr := emailClient.SendAlertEmail(alert.cfg.fromEmail, alert.cfg.alertEmails, Some(alert.cause),
                                               FormDataString(alert.originalData), subjectTime, bodyTime);
  }

  /**
   * An alert's body shows the time, the cause, and then the name, email,
   * subject and message of the submission as it was received.
   */
  lemma AlertShowsCauseAndSubmission(alert: AlertRequest, time: string)
    ensures var d := alert.originalData;
      ContainsInOrder(AlertBody(time, alert.cause, FormDataString(d)),
                      [time, alert.cause, d.name, d.email, d.subject, d.message])
  {
    var d := alert.originalData;
    var fields := [d.name, d.email, d.subject, d.message];
    assert [time, alert.cause] + [FormDataString(d)] == [time, alert.cause, FormDataString(d)];
    assert [time, alert.cause] + fields == [time, alert.cause, d.name, d.email, d.subject, d.message];
    AlertShowsTimeCauseAndData(time, time, alert.cause, FormDataString(d));
    FormDataStringShowsFields(d);
    ContainsInOrderNested(AlertBody(time, alert.cause, FormDataString(d)), [time, alert.cause], FormDataString(d), fields);
  }
}
