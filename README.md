# Playdate SMS notification handler — a Dafny model

The Supabase edge function `send_sms_notification` (backend/sms-function.js)
takes a request `{playdate_id, phone_number, message_type}`, loads the
playdate row joined with its organiser's profile, fills one of three SMS
templates (`confirmation`, `reminder`, `update`), posts the text to the
Twilio gateway, writes a row to `sms_logs` and answers with JSON.

This project models the two parts of that file that carry logic:

- **Message composition** (`messages.dfy`, module `Messages`). Each template
  is a JavaScript template literal, modelled as its sequence of fixed text
  runs (`Quasi`) and substituted values (`Substitution`), evaluated by
  `Js.Render`. The JavaScript rules the templates depend on are in `js.dfy`:
  - truthiness: only a non-empty string is truthy;
  - `${null}` renders as `null`;
  - reading a property of a null reference throws a TypeError.
  The date rendering `formatDate` is a parameter `string -> string`. The
  locale is fixed to `en-US`, but the result depends on the host's time
  zone: a date-only string such as `2024-06-10` is read as midnight UTC and
  shown in the host's zone, so west of UTC it reads `Sun, Jun 9`. The model
  does not fix a zone.
- **The request outcome protocol** (`dispatcher.dfy`, module `Dispatcher`).
  `Handle` is a pure function of an `Environment`. The environment holds the
  answers of the outside world:
  - the parsed request body, or the error parsing threw;
  - the store's answer to a playdate query;
  - the gateway's answer to a post;
  - the outcome of the log insert;
  - the date rendering and the configured sender number.
  `Handle` returns the HTTP status and JSON body, plus the list of actions
  performed in order: query, post to the gateway, insert a log row.
  A reference function `Stages` says, from the environment alone, how far a
  request gets. The lemmas tie `Handle` to it.

`text.dfy` (module `Text`) holds the substring predicates `Contains` and
`EndsWith` used to state what a message contains.

Three behaviours of the code that a reader might not expect are modelled as
written:

- The log insert is awaited, but what it resolves to is never read. The
  database client reports a failed write in the resolved `error` field (the
  same field lines 22-34 check for the query). For the insert that field is
  ignored, so such a failed log write is dropped silently and the request
  still answers 200 (`SuccessCarriesGatewaySid`). Only an insert whose
  promise rejects turns an SMS that was already sent into a 500 response
  (`InsertFailureAfterSend`).
- A log row needs more than a non-error gateway status: the gateway's body
  must also parse as JSON. A body that does not parse throws, and no row is
  written.
- When the organiser's profile is null, the confirmation and update
  templates throw a TypeError on reading `kid_name` or `parent_phone`. That
  error becomes the 500 response. The reminder never reads the profile.

## Model

| member | source | states |
|---|---|---|
| `Messages.Compose` | backend/sms-function.js:37-63 | an unrecognised `message_type` gives the empty body; composition throws exactly when a confirmation or update meets a null organiser profile, with the TypeError message for `kid_name` or `parent_phone` |
| `Messages.ConfirmationCarriesOptOut` | backend/sms-function.js:39-47 | a confirmation always renders when the profile is present, ends with the line `Reply STOP to unsubscribe`, and contains `Organized by <kid_name>'s family` |
| `Messages.ReminderOmitsOptOutAndOrganizer` | backend/sms-function.js:48-55 | a reminder always renders, is the same whatever the organiser profile is (so it carries no attribution), and none of its fixed text contains the opt-out notice or `Organized by ` |
| `Messages.UpdateIgnoresDateAndLocation` | backend/sms-function.js:56-62 | an update renders when the profile is present and is the same for every date, time, location and date format, so it has no date or location line |
| `Messages.UpdateOmitsOptOut` | backend/sms-function.js:56-62 | none of the update template's fixed text contains the opt-out notice or `Organized by ` |
| `Messages.UpdateCarriesNotesAndContact` | backend/sms-function.js:56-62 | an update has the notes on a line of their own (`null` when the row has none) and ends with `Contact: <parent_phone>` |
| `Messages.TitleLine` | backend/sms-function.js:39-62 | every recognised template starts with its heading, a blank line, then the title when it is truthy and `Playdate` otherwise (an empty title included) |
| `Messages.DateAndLocationLines` | backend/sms-function.js:43-53 | confirmations and reminders carry the line `📅 <FormatDate(date)> at <time>`, followed by `📍 <location>` for a truthy location and by an empty line otherwise |
| `Dispatcher.Handle` | backend/sms-function.js:14-112 | every response is either 200 with `success = true` and `message = 'SMS sent successfully'`, or 500 with an error body; at most three outward actions happen |
| `Dispatcher.ProtocolOrder` | backend/sms-function.js:22-95 | the actions are exactly query, then post (only once a message was composed), then insert (only after the gateway accepted), as the reference `Stages` says |
| `Dispatcher.LookupFailureStopsBeforeGateway` | backend/sms-function.js:22-34 | a store error ends the request after the query: no post, no insert, 500 with the store's message |
| `Dispatcher.ThrownErrorsBecomeOneFailure` | backend/sms-function.js:106-111 | a parse error, a composition error, a failed fetch or an unreadable gateway body each give 500 with that error's message and stop all later actions |
| `Dispatcher.GatewayRefusalWritesNoLog` | backend/sms-function.js:81-84 | a non-ok gateway response writes no log row and answers 500 with `Twilio error: ` followed by the gateway's `message` |
| `Dispatcher.LogWrittenIffGatewayAccepted` | backend/sms-function.js:86-95 | a log row is written if and only if the gateway accepted the post, then exactly one, with the request's `playdate_id`, `phone_number` and `message_type` and the gateway's `status` and `sid` |
| `Dispatcher.SuccessCarriesGatewaySid` | backend/sms-function.js:86-104 | the request succeeds if and only if the gateway accepted and the insert did not throw, whatever the insert resolved to; the reported `sid` is the gateway's |
| `Dispatcher.InsertFailureAfterSend` | backend/sms-function.js:89-95 | a throwing insert still gives 500 with its message, after the post and the insert attempt |
| `Dispatcher.UnrecognizedTypeSendsEmptyBody` | backend/sms-function.js:37-79 | an unrecognised `message_type` is not rejected: the empty body is posted to the gateway |

## Left out

- `Messages.ReminderOmitsOptOutAndOrganizer`: states that the opt-out notice is absent from the template's fixed text, not from the whole body. A title or location value may itself contain the words.
- `Messages.UpdateOmitsOptOut`: states the same absence for the template's fixed text only, for the same reason (title, notes or phone values are free text).
- The body of `formatDate` (lines 115-122) is a parameter of the model. Its locale is fixed to `en-US`, but its output depends on the host's time zone, which the model does not fix.
- The Deno `serve` entry point, `req.json()` and the construction of `Response` objects, headers included. They are HTTP plumbing; the parse outcome is an input, and the response is kept as a status and a body.
- The Supabase client, the join query and the insert call. They are a foreign database library; their answers are inputs of the environment.
- The Twilio `fetch`, the Basic-auth header built with `btoa` and the `URLSearchParams` encoding. The gateway is a function from the three form fields to its answer.
- Environment-variable reads (lines 7-12). The sender number is a field of the environment; the account identifier and auth token appear only in the URL and header, which are not modelled.
- `console.error` and the setup, cost and compliance comment block. They are a side effect and prose.
- Field values that are not strings. Request fields, `date`, `time`, `kid_name`, `parent_phone`, and the gateway's `status` and `sid` are strings in the model. Only `title`, `location`, `notes` and the gateway's error `message` may be null or undefined.
