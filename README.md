# ses-contact-form, modelled in Dafny

This project models the core of `ses-contact-form`, an AWS Lambda function written in Go. The function takes a contact-form submission, checks and cleans it, sends it on as an email through Amazon SES, and answers the browser with a small JSON response. When something goes wrong it also sends an alert email to the operators.

The model has one module per Go package, plus two support modules:

- `Wrappers` (wrappers.dfy) holds `Option`, `Result` and `Outcome`. `Outcome` is Go's `error`: `Pass` is nil, and `Fail(text)` is an error whose `Error()` is `text`. `Wrap` gives the text of `fmt.Errorf("<context>: %w", err)`.
- `GoStrings` (gostrings.dfy) holds the parts of Go's `strings` and `fmt` packages the code uses:
  - `strings.Split` and `strings.Join` with a one-character separator;
  - `fmt.Sprintf` for formats whose only verbs are `%s`, given as the literal pieces around the verbs;
  - `ContainsInOrder`, which says that a string shows some values one after the other.
- `Validator` (validator.dfy) is `validator.go`. Go's RE2 regular expressions are written out as the languages they denote:
  - `EmailShape` is "some split into local part, '@', domain, '.', top-level domain";
  - `MatchesEmail` decides it, and is proved to agree with it;
  - `ValidatePhone` and `SanitizeInput` follow their patterns character by character.
- `Config` (config.dfy) is `config/config.go`. The process environment is a `map<string, string>`.
- `Emailer` (emailer.dfy) is `emailer/emailer.go`:
  - the plain-text and fallback HTML bodies are functions;
  - `SESClient` is a class around a `Transport` object. The transport stands for the `EmailSender` interface: it records every `SendEmailInput` it is handed and answers each with the same outcome.
- `Handler` (handler.dfy) is `main.go`:
  - `validateFormData`, `sanitizeFormData`, `createErrorResponse` and `defaultString` are functions;
  - `HandleRequest` is a method that changes the transport and returns the HTTP response together with the alerts it dispatched;
  - `Handler.SendAlertEmail` is what each alert goroutine does.

The handler's inputs that come from outside the code are parameters:
- the decoded request body (`Result<FormData>`; `Err` is a JSON decoding failure);
- the outcome of setting up the SES client;
- the HTML template (`Template`: the caller's file cannot be located, the file cannot be read, parsing or execution fails, or the rendered page);
- the clock readings.

Points where the code behaves in a way a reader might not expect, all kept as written:

- `validateFormData` tests the name a second time where the "email" required check stands (main.go:125). The model keeps this. As a result, "Field 'email' is required" is never reported, and an empty email fails with "Invalid email format".
- `formatHTMLEmail` falls back to the built-in page only when the template file cannot be read (emailer/emailer.go:164-168). A missing caller path, a parse error and an execution error are all returned as errors (emailer/emailer.go:154-157, 170-181), and in `SendContactEmail` each of these stops the send (emailer/emailer.go:50-53).
- The fields go into both bodies exactly as they are (emailer/emailer.go:136-148, 188-219). `fmt.Sprintf` and `text/template` escape nothing, so the only defence against markup is the removal of '<' and '>' by `SanitizeInput` (main.go:75).

Some places in the source do not compile as written, and each is modelled with its evident meaning:
- `types.Messages` is read as `types.Message` (emailer/emailer.go:61);
- `strings` is used without being imported (emailer/emailer.go:177);
- `value = ""` is read as the comparison `value == ""` (config/config.go:29);
- the SES client is taken to satisfy `EmailSender` (main.go:85, 162), although its `SendEmail` also takes variadic options and the interface's does not (emailer/emailer.go:19-21).

## Model

| member | source | states |
|---|---|---|
| Validator.ValidateEmail | ses-contact-form/validator.go:8-18 | nil exactly when the address is in the language of `EmailRegex`; otherwise the error "Invalid email format" |
| Validator.MatchesEmail | ses-contact-form/validator.go:8 | checking the one split at the first '@' and the last '.' decides the email pattern: true exactly when some split matches |
| Validator.EmailSplitIsForced | ses-contact-form/validator.go:8 | any split that matches the email pattern is at the first '@' and the last '.' |
| Validator.EmailHasOneAtAndNoMarkup | ses-contact-form/validator.go:8 | an accepted address holds exactly one '@', and every other character is an ASCII letter, digit or one of `._%+-`; so no '<', '>', whitespace or non-ASCII character |
| Validator.EmailMinimumLength | ses-contact-form/validator.go:8 | an accepted address is at least six characters long ("a@b.cd") |
| Validator.EmailRejectsShort | ses-contact-form/validator.go:8-18 | every address shorter than six characters is rejected with "Invalid email format" |
| Validator.EmailRejectsWithoutAt | ses-contact-form/validator.go:8-18 | every address without '@' is rejected with "Invalid email format" |
| Validator.EmailRejectsSecondAt | ses-contact-form/validator.go:8-18 | every address with two '@' anywhere is rejected with "Invalid email format" |
| Validator.EmailRejectedExamples | ses-contact-form/validator.go:8-18 | "", "a@b", "not-an-email" and "a@@b.com" are rejected with "Invalid email format" |
| Validator.EmailAcceptedExample | ses-contact-form/validator.go:8-18 | "user@example.com" is accepted |
| Validator.ValidatePhone | ses-contact-form/validator.go:20-26 | nil exactly for at least ten digit, whitespace, '-', '(' or ')' characters, optionally after one leading '+'; otherwise "Invalid phone format" |
| Validator.PhoneShape | ses-contact-form/validator.go:10 | an accepted phone number has at least ten characters, and '+' can only be the first of them |
| Validator.SanitizeInput | ses-contact-form/validator.go:28-32 | the result holds no '<' or '>' and is no longer than the input |
| Validator.SanitizeConcat | ses-contact-form/validator.go:30 | sanitizing works character by character: sanitizing a concatenation concatenates the sanitized parts |
| Validator.SanitizeCounts | ses-contact-form/validator.go:30 | every other character is kept with its count, and the length shrinks by exactly the number of '<' and '>' |
| Validator.SanitizeIdentity | ses-contact-form/validator.go:28-32 | the input is returned unchanged exactly when it holds no '<' or '>' |
| Validator.SanitizeIdempotent | ses-contact-form/validator.go:28-32 | sanitizing twice gives the same result as sanitizing once |
| Validator.SanitizeExample | ses-contact-form/validator.go:28-32 | "<b>hi</b>" becomes "bhi/b" |
| Validator.ValidateRequired | ses-contact-form/validator.go:34-40 | fails exactly on the empty value, with "Field '<name>' is required" |
| Validator.RequiredMessageInjective | ses-contact-form/validator.go:36 | two different field names never give the same required message |
| GoStrings.SplitPieces | ses-contact-form/config/config.go:16 | `strings.Split` gives one more piece than there are separators, and no piece holds the separator |
| GoStrings.JoinSplit | ses-contact-form/config/config.go:16 | joining the pieces with the separator gives back the split string |
| GoStrings.SplitJoin | ses-contact-form/config/config.go:16 | splitting separator-free pieces joined by the separator gives back the pieces |
| GoStrings.SplitWithoutSeparator | ses-contact-form/config/config.go:16 | a string without the separator splits into itself alone |
| GoStrings.SprintfContainsArgs | ses-contact-form/emailer/emailer.go:136-148 | every `%s` argument appears verbatim in the formatted text, in argument order |
| Config.GetEnv | ses-contact-form/config/config.go:26-34 | the default exactly when the variable is unset or empty, otherwise the variable's value unchanged |
| Config.LoadConfig | ses-contact-form/config/config.go:15-24 | no ensures of its own: its settings and defaults are stated by `Config.LoadConfigDefaults`, `Config.LoadConfigNonEmpty`, `Config.LoadConfigAlertEmails` and `Config.LoadConfigAlertList` |
| Config.LoadConfigDefaults | ses-contact-form/config/config.go:15-24 | with the four variables unset: region "us-east-1", recipient "admin@example.com", sender "contact@example.com", alert recipients ["admin@example.com"] |
| Config.LoadConfigAlertEmails | ses-contact-form/config/config.go:16 | the alert recipients are the comma-split of their variable: commas + 1 entries, none holding a comma, joining back to the variable |
| Config.LoadConfigAlertList | ses-contact-form/config/config.go:16 | a comma-joined list of comma-free addresses is loaded back as exactly that list |
| Config.LoadConfigNonEmpty | ses-contact-form/config/config.go:15-24 | every setting is non-empty, and the alert list has at least one entry, possibly empty (`ALERT_EMAILS=","` gives two empty entries) |
| Emailer.Transport.SendEmail | ses-contact-form/emailer/emailer.go:19-21 | the service records the message handed to it and answers with its outcome |
| Emailer.FormatTextEmail | ses-contact-form/emailer/emailer.go:135-149 | no ensures of its own: the format text around the five `%s` verbs, filled in; `Emailer.TextEmailShowsFields` states what it shows |
| Emailer.TextEmailShowsFields | ses-contact-form/emailer/emailer.go:135-149 | the text body shows name, email, subject, message and timestamp, in that order |
| Emailer.FormatFallbackHTMLEmail | ses-contact-form/emailer/emailer.go:187-220 | no ensures of its own: the fallback page around the five `%s` verbs, filled in; `Emailer.FallbackHTMLShowsFields` states what it shows |
| Emailer.FallbackHTMLShowsFields | ses-contact-form/emailer/emailer.go:187-220 | the fallback HTML page shows the same five fields in the same order |
| Emailer.FormatHTMLEmail | ses-contact-form/emailer/emailer.go:152-184 | succeeds exactly when the template is rendered or its file is unreadable; an unreadable file gives the fallback page |
| Emailer.Stamped | ses-contact-form/emailer/emailer.go:44-46 | a set timestamp is kept, only the timestamp can change, and an empty one is replaced by the clock reading |
| Emailer.ContactBodiesShowTimestamp | ses-contact-form/emailer/emailer.go:44-48 | a set timestamp reaches both bodies unchanged, an empty one is replaced by the clock reading in both, after the other four fields |
| Emailer.AlertSubject | ses-contact-form/emailer/emailer.go:94 | no ensures of its own: the alert subject around its one `%s` verb; `Emailer.AlertShowsTimeCauseAndData` states what it shows |
| Emailer.AlertBody | ses-contact-form/emailer/emailer.go:97-105 | no ensures of its own: the alert body around its three verbs; `Emailer.AlertShowsTimeCauseAndData` and `Handler.AlertShowsCauseAndSubmission` state what it shows |
| Emailer.AlertShowsTimeCauseAndData | ses-contact-form/emailer/emailer.go:94-105 | the alert subject shows its time; the alert body shows its time, the error text and the submission, in that order |
| Emailer.SESClient.constructor | ses-contact-form/emailer/emailer.go:35-39 | the client wraps the given email service |
| Emailer.SESClient.SendContactEmail | ses-contact-form/emailer/emailer.go:42-84 | an HTML failure returns the wrapped error and sends nothing; otherwise exactly one message goes to [toEmail] from fromEmail under the submitted subject, with the text and HTML bodies of the stamped data, and the result is nil exactly when the service succeeds |
| Emailer.SESClient.SendAlertEmail | ses-contact-form/emailer/emailer.go:88-132 | with no cause it returns "no error provided for alert email" and sends nothing; otherwise it sends one text-only message to the full recipient list, and the result is nil exactly when the service succeeds |
| Handler.ValidateFormData | ses-contact-form/main.go:119-135 | nil exactly when the name is non-empty and the email matches the pattern; an empty name fails first with "Field 'name' is required" |
| Handler.EmailRequiredNeverReported | ses-contact-form/main.go:125-127 | "Field 'email' is required" is never the result, because that check tests the name |
| Handler.EmptyEmailReportedAsMalformed | ses-contact-form/main.go:125-132 | an empty email with a name present fails with "Invalid email format" |
| Handler.ValidationIgnoresSubjectAndMessage | ses-contact-form/main.go:119-135 | subject and message never change the validation result |
| Handler.SanitizeFormData | ses-contact-form/main.go:137-144 | no ensures of its own: `SanitizeInput` on each of the four fields; `Handler.SanitizeFormDataClean` and `Handler.SanitizeKeepsValidEmail` state its properties |
| Handler.SanitizeFormDataClean | ses-contact-form/main.go:137-144 | no sanitized field holds '<' or '>', and sanitizing the form again changes nothing |
| Handler.SanitizeKeepsValidEmail | ses-contact-form/main.go:64-75 | an address that passed validation comes through sanitizing unchanged |
| Handler.CreateErrorResponse | ses-contact-form/main.go:168-183 | status and headers pass through and the body has only an error; that error is the message as given unless an error is present and the message holds '%' |
| Handler.DefaultString | ses-contact-form/main.go:185-190 | the default exactly when the value is empty, otherwise the value |
| Handler.FormDataString | ses-contact-form/emailer/emailer.go:104 | no ensures of its own: the `%+v` rendering `{Name:.. Email:.. Subject:.. Message:..}` of a submission; `Handler.FormDataStringShowsFields` states what it shows |
| Handler.FormDataStringShowsFields | ses-contact-form/emailer/emailer.go:104 | the `%+v` rendering of a submission shows name, email, subject and message in that order |
| Handler.FixedMessagesHaveNoVerb | ses-contact-form/main.go:168-172 | the handler's fixed error messages hold no '%', so `createErrorResponse` uses them as they are |
| Handler.HandleRequest | ses-contact-form/main.go:40-117 | every answer carries JSON headers, and status 200 comes exactly with "Email sent successfully!". Bad JSON gives 400 "Invalid request format" and no alert. A failed validation gives 400 with its message and one alert holding the unsanitized submission. A failed client set-up gives 500 "Internal Server Error". Otherwise the send stage follows. Nothing is sent unless validation passed |
| Handler.SendStage | ses-contact-form/main.go:96-115 | the given email data, stamped with the clock reading if it has no timestamp, goes to the configured recipient from the configured sender; `Handler.HandleRequest` passes the sanitized submission (`ContactData`). An HTML failure sends nothing, answers 500 "Failed to send email" and alerts. A service failure answers 500 and alerts. Success answers 200 with no alert |
| Handler.SendAlertEmail | ses-contact-form/main.go:155-166 | a failed client set-up sends nothing; otherwise one alert goes to every configured alert recipient from the configured sender |
| Handler.AlertShowsCauseAndSubmission | ses-contact-form/emailer/emailer.go:97-105 | an alert body shows the time, the error text, and then the name, email, subject and message of the submission as it was received |

## Left out

- The AWS SDK is not modelled: `initSESClient`, `ses.NewFromConfig` and `lambda.Start` (main.go:146-153, 192-194). Setting up the client is an `Outcome` input, and the email service is the recording `Transport`.
- The transport answers every send the same way. Per-call variation in the service's answers is not modelled.
- The message id in the service's answer is not modelled, because the code ignores it.
- Goroutines: each `go sendAlertEmail(...)` is returned as an `AlertRequest`. When the alert runs and how it interleaves with the response is not modelled. `Handler.SendAlertEmail` models what one alert does once it runs.
- Logging (`log.Printf`) is left out. It is output only.
- JSON is left out:
  - the request body's decoding is a `Result<FormData>` input;
  - the response body is the record `ResponseBody`, whose empty fields stand for the ones `omitempty` drops.
- The template path is left out: `runtime.Caller`, the file read, and `text/template` parsing and execution (emailer/emailer.go:154-183). Their outcome is the `Template` input; only the fallback page is built in the model.
- The clock (`time.Now().Format(time.RFC3339)`) is left out. Each reading is a parameter:
  - the handler's timestamp;
  - the alert's subject time and body time.
- `Handler.CreateErrorResponse`: the `fmt.Sprintf(message, err.Error())` branch is an opaque `sprintf` parameter. The handler never takes that branch, because its fixed messages hold no '%'.
- The `%+v` rendering of a submission is modelled only for the `FormData` struct (`{Name:.. Email:.. Subject:.. Message:..}`), which is the only value the handler passes.
- `GoStrings.Split` and `GoStrings.Join` cover only one-character separators, the only kind the code uses.
- `Validator.ValidatePhone` is modelled and proved but has no caller in the handler. The same is true in the source.
- mock-ses.go (a logging test double) and tests/main_test.go (imports only) are not part of this model.
