/**
 * The emailer package: the plain-text and fallback HTML bodies of a contact
 * message, and the two sends made through the email service, the contact
 * email and the operator alert.
 *
 * The email service (the `EmailSender` interface, implemented by the SES
 * client) is a `Transport` object that records every message it is given
 * and answers each with the same outcome. The HTML template file, which is
 * read from disk at run time, is an input (`Template`), and so is the clock.
 */
module Emailer {
  import opened Wrappers
  import opened GoStrings

  datatype EmailData = EmailData(name: string, email: string, subject: string, message: string, timestamp: string)

  /** The parts of an `ses.SendEmailInput` that the emailer fills in. */
  datatype SendEmailInput = SendEmailInput(
    toAddresses: seq<string>,
    source: string,
    subject: string,
    textBody: string,
    htmlBody: Option<string>)

  /** What locating, reading, parsing and executing the `email.html` template gives. */
  datatype Template =
    | NoCallerInfo                  // runtime.Caller cannot name the source file
    | Unreadable                    // the template file cannot be read
    | ParseFailure(reason: string)  // text/template rejects the file
    | ExecuteFailure(reason: string)
    | Rendered(html: string)        // the template's output for the data

  /** The email service: it records each message and answers with `failure`. */
  class Transport {
    var sent: seq<SendEmailInput>
    const failure: Outcome

    constructor (failure: Outcome)
      ensures this.failure == failure && sent == []
    {
      this.failure := failure;
      sent := [];
    }

    /** `EmailSender.SendEmail`. */
    method SendEmail(input: SendEmailInput) returns (err: Outcome)
      modifies this
      ensures sent == old(sent) + [input]
      ensures err == failure
    {
      sent := sent + [input];
      err := failure;
    }
  }

  /** The five values the bodies show, in the order they show them. */
  function Fields(data: EmailData): seq<string>
  {
    [data.name, data.email, data.subject, data.message, data.timestamp]
  }

  /** "⚠️", the warning sign with its emoji presentation selector. */
  const Warning := "\U{26A0}\U{FE0F}"

  const NoAlertCauseMessage := "no error provided for alert email"

  /** The literal text of `formatTextEmail`'s format around its five `%s` verbs. */
  const TextPieces: seq<string> := [
    "\n            NEW MESSAGE\n\n            Name: ",
    "\n            Email: ",
    "\n\n            Subject: ",
    "\n\n            Message:\n            ",
    "\n\n            Timestamp: ",
    "\n        "
  ]

  /** `formatTextEmail`: the plain-text body. */
  function FormatTextEmail(data: EmailData): string
  {
    Sprintf(TextPieces, Fields(data))
  }

  /** The text body shows name, email, subject, message and timestamp, in that order. */
  lemma TextEmailShowsFields(data: EmailData)
    ensures ContainsInOrder(FormatTextEmail(data), Fields(data))
  {
    SprintfContainsArgs(TextPieces, Fields(data));
  }

  /** The literal text of `formatFallbackHTMLEmail`'s format around its five `%s` verbs. */
  const FallbackHtmlPieces: seq<string> := [
    "\n            <!DOCTYPE html>"
    + "\n            <html>"
    + "\n            <head>"
    + "\n                <meta charset=\"UTF-8\">"
    + "\n                <style>"
    + "\n                    body { font-family: Arial, sans-serif; }"
    + "\n                    .container { max-width: 600px; margin: 0 auto; padding: 20px; }"
    + "\n                    .header { background-color: #f5f5f5; padding: 10px; }"
    + "\n                    .content { padding: 20px 0; }"
    + "\n                    .footer { font-size: 12px; color: #777; }"
    + "\n                </style>"
    + "\n            </head>"
    + "\n            <body>"
    + "\n                <div class=\"container\">"
    + "\n                    <div class=\"header\">"
    + "\n                        <h2>New Contact Form Message</h2>"
    + "\n                    </div>"
    + "\n                    <div class=\"content\">"
    + "\n                        <p><strong>Name:</strong> ",
    "</p>"
    + "\n                        <p><strong>Email:</strong> ",
    "</p>"
    + "\n                        <p><strong>Subject:</strong> ",
    "</p>"
    + "\n                        <h3>Message:</h3>"
    + "\n                        <p>",
    "</p>"
    + "\n                    </div>"
    + "\n                    <div class=\"footer\">"
    + "\n                        <p>Timestamp: ",
    "</p>"
    + "\n                    </div>"
    + "\n                </div>"
    + "\n            </body>"
    + "\n            </html>"
    + "\n        "
  ]

  /** `formatFallbackHTMLEmail`: the HTML body used when the template file cannot be read. */
  function FormatFallbackHTMLEmail(data: EmailData): string
  {
    Sprintf(FallbackHtmlPieces, Fields(data))
  }

  /** The fallback page shows the same five fields in the same order. */
  lemma FallbackHTMLShowsFields(data: EmailData)
    ensures ContainsInOrder(FormatFallbackHTMLEmail(data), Fields(data))
  {
    SprintfContainsArgs(FallbackHtmlPieces, Fields(data));
  }

  /**
   * `formatHTMLEmail`: the template's output, or the fallback page when the
   * file cannot be read; locating, parsing and executing failures are errors.
   */
  function FormatHTMLEmail(template: Template, data: EmailData): (r: Result<string>)
    ensures r.Ok? <==> template.Unreadable? || template.Rendered?
    ensures template.Unreadable? ==> r == Ok(FormatFallbackHTMLEmail(data))
    ensures template.Rendered? ==> r == Ok(template.html)
  {
    match template
    case NoCallerInfo => Err("unable to determine current file path")
    case Unreadable => Ok(FormatFallbackHTMLEmail(data))
    case ParseFailure(reason) => Err(Wrap("error parsing email template", reason))
    case ExecuteFailure(reason) => Err(Wrap("error executing email template", reason))
    case Rendered(html) => Ok(html)
  }

  /** The data with an empty timestamp replaced by `now`; a set timestamp is kept. */
  function Stamped(data: EmailData, now: string): (d: EmailData)
    ensures data.timestamp != "" ==> d == data
    ensures data.timestamp == "" ==> d.timestamp == now
    ensures d == data.(timestamp := d.timestamp)
  {
    if data.timestamp == "" then data.(timestamp := now) else data
  }

  const AlertSubjectPieces: seq<string> := [Warning + " Contact Form Submission Failure - ", ""]

  const AlertBodyPieces: seq<string> := [
    "\n            " + Warning + " FORM SUBMISSION FAILURE ALERT " + Warning + "\n\n            Timestamp: ",
    "\n            Error: ",
    "\n\n            Original Form Data:\n            ",
    "\n        "
  ]

  /** The alert's subject line, stamped with the time it is built. */
  function AlertSubject(time: string): string
  {
    Sprintf(AlertSubjectPieces, [time])
  }

  /** The alert's text body. */
  function AlertBody(time: string, cause: string, originalData: string): string
  {
    Sprintf(AlertBodyPieces, [time, cause, originalData])
  }

  /** The subject shows the time; the body shows the time, the cause and the original data, in that order. */
  lemma AlertShowsTimeCauseAndData(subjectTime: string, bodyTime: string, cause: string, originalData: string)
    ensures ContainsInOrder(AlertSubject(subjectTime), [subjectTime])
    ensures ContainsInOrder(AlertBody(bodyTime, cause, originalData), [bodyTime, cause, originalData])
  {
    SprintfContainsArgs(AlertSubjectPieces, [subjectTime]);
    SprintfContainsArgs(AlertBodyPieces, [bodyTime, cause, originalData]);
  }

  /** The outcome of a send: nil, or the service's error wrapped with `context`. */
  function SendOutcome(context: string, failure: Outcome): Outcome
  {
    if failure.Pass? then Pass else Fail(Wrap(context, failure.error))
  }

  /** `SESClient`, the emailer built around one email service. */
  class SESClient {
    const client: Transport

    /** `NewSESClient`. */
    constructor (client: Transport)
      ensures this.client == client
    {
      this.client := client;
    }

    /**
     * `SendContactEmail`: stamps an empty timestamp with `now`, builds both
     * bodies and, unless the HTML body fails, sends one message to `toEmail`
     * from `fromEmail` under the submitted subject.
     */
    method SendContactEmail(toEmail: string, fromEmail: string, data: EmailData, template: Template, now: string)
      returns (err: Outcome)
      modifies client
      ensures var d := Stamped(data, now);
        FormatHTMLEmail(template, d).Err? ==>
          && client.sent == old(client.sent)
          && err == Fail(Wrap("Error formatting HTML email", FormatHTMLEmail(template, d).error))
      ensures var d := Stamped(data, now);
        FormatHTMLEmail(template, d).Ok? ==>
          && client.sent == old(client.sent) + [SendEmailInput(
               [toEmail], fromEmail, data.subject, FormatTextEmail(d), Some(FormatHTMLEmail(template, d).value))]
          && err == SendOutcome("Error sending email", client.failure)
    {
      var d := data;
      if d.timestamp == "" {
        d := d.(timestamp := now);
      }
      assert d == Stamped(data, now);
      var textContent := FormatTextEmail(d);
      var htmlContent := FormatHTMLEmail(template, d);
      if htmlContent.Err? {
        return Fail(Wrap("Error formatting HTML email", htmlContent.error));
      }
      var input := SendEmailInput([toEmail], fromEmail, d.subject, textContent, Some(htmlContent.value));
      var sendErr := client.SendEmail(input);
      if sendErr.Fail? {
        return Fail(Wrap("Error sending email", sendErr.error));
      }
      return Pass;
    }

    /**
     * `SendAlertEmail`: with no cause it refuses and sends nothing;
     * otherwise it sends one text-only message to every alert recipient.
     * `originalData` is the `%+v` rendering of the submission.
     */
    method SendAlertEmail(fromEmail: string, toEmails: seq<string>, cause: Option<string>, originalData: string,
                          subjectTime: string, bodyTime: string)
      returns (err: Outcome)
      modifies client
      ensures cause.None? ==> client.sent == old(client.sent) && err == Fail(NoAlertCauseMessage)
      ensures cause.Some? ==>
        && client.sent == old(client.sent) + [SendEmailInput(
             toEmails, fromEmail, AlertSubject(subjectTime), AlertBody(bodyTime, cause.value, originalData), None)]
        && err == SendOutcome("error sending alert email", client.failure)
    {
      if cause.None? {
        return Fail(NoAlertCauseMessage);
      }
      var subject := AlertSubject(subjectTime);
      var body := AlertBody(bodyTime, cause.value, originalData);
      var input := SendEmailInput(toEmails, fromEmail, subject, body, None);
      var sendErr := client.SendEmail(input);
      if sendErr.Fail? {
        return Fail(Wrap("error sending alert email", sendErr.error));
      }
      return Pass;
    }
  }

  /** A set timestamp reaches both bodies as it is; an empty one is replaced by `now` in both. */
  lemma ContactBodiesShowTimestamp(data: EmailData, now: string)
    ensures var d := Stamped(data, now);
      && d.timestamp == (if data.timestamp == "" then now else data.timestamp)
      && ContainsInOrder(FormatTextEmail(d), [data.name, data.email, data.subject, data.message, d.timestamp])
      && ContainsInOrder(FormatFallbackHTMLEmail(d), [data.name, data.email, data.subject, data.message, d.timestamp])
  {
    TextEmailShowsFields(Stamped(data, now));
    FallbackHTMLShowsFields(Stamped(data, now));
  }
}
