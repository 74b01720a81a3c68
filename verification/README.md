# fonnte-wa core, modelled in Dafny

This project models the part of the fonnte-wa WhatsApp gateway library that can
be checked without a network, and proves properties of it.

- **Utilities.** Phone-number validation (strip the non-digits, then demand 10
  to 15 digits). The three-way classification of a failure into a uniform
  `{status: false, message, error, statusCode}` result. Normalisation of an
  inbound webhook payload, where each field takes the first truthy value among
  its accepted keys.
- **Outbound client.** `sendMessage` builds the `POST /send` body:
  - target, message and device;
  - each optional option that is truthy;
  - the button and list templates, encoded.

  It then shapes the 2xx answer, or sends any thrown error through the error
  formatter. `sendMedia`, `sendDocument`, `sendButtons`, `sendList` and
  `getDeviceStatus` each check their required fields first. They either refuse
  with a fixed message and issue no request, or delegate.
- **Webhook server.** An append-only handler registry. A POST route behind an
  optional `x-webhook-secret` gate. Dispatch that runs every handler once and
  isolates failing ones. A `/health` route. Start and stop of the listener,
  where stop before start is a no-op.

JavaScript values are modelled by `JsValue.Value`:

- Variants: undefined, null, booleans, integers, strings, objects and arrays.
- `IsTruthy` models truthiness. `Or` models `||`, and `FirstTruthy` models
  chains of `||`.
- Property reads that throw on `null`/`undefined` are modelled explicitly.

Inputs that are not under the library's control are parameters:

- what the HTTP transport did with a request (`Client.HttpOutcome`);
- the inbound request;
- the receipt time used as a timestamp fallback;
- how each handler's invocation ends;
- the error the listener's close reports.

The `POST /send` body is keyed by `Client.Key`, a datatype of the properties a
body can have. `Client.Name` gives each property its wire name, and the names are
pairwise distinct. So a body cannot hold any key beyond those properties.

Each client call returns the request it would issue (or none) together with its
result. Each webhook request returns the reply together with the message handed
to the handlers (or none).

Modules:

- `Results`: `Option` and `Result`.
- `JsValue`: the value model.
- `Types`: the records of `src/types/index.ts`.
- `Utils`: `src/utils/index.ts`.
- `Templates`: button and list encoding, with reference decoders.
- `Client`: `src/client/FonnteClient.ts`.
- `Webhook`: `src/webhook/WebhookHandler.ts`.

Behaviour of the code worth knowing:

- Only a `null` or `undefined` payload makes `parseWebhookData` fall back to
  `{raw: data}`. Strings, numbers and other non-objects do not throw on
  property access, so they yield a full message made of defaults.
- `parseWebhookData` catches its own errors. So the POST route's 500 answer
  cannot be produced. `Webhook.Respond` models that branch, and
  `Webhook.PostRoute` proves that it is never taken.
- `getDeviceStatus` with no argument and no configured device refuses with
  "Device ID is required". When it does issue a request, it sends the device as
  a query parameter. One of the repository's tests expects a request in the
  first case; the code does not issue one.

## Model

| member | source | states |
|---|---|---|
| `JsValue.Or` | src/client/FonnteClient.ts:50 | `a \|\| b` is truthy exactly when one of its operands is |
| `JsValue.FirstTruthy` | src/utils/index.ts:61-73 | a chain `a \|\| b \|\| c` yields the first truthy operand, or the last operand when none is truthy; it is truthy exactly when some operand is, and it is always one of the operands |
| `JsValue.OrSelectsFirstTruthy` | src/utils/index.ts:61-73 | prefixing one operand to an `\|\|` chain keeps the first-truthy selection |
| `Types.ErrorWithMessage` | src/utils/index.ts:12 | a thrown validation error carries its text and neither a response nor a request, so the formatter treats it as a setup error |
| `Utils.ValidatePhoneNumber` | src/utils/index.ts:6-16 | succeeds exactly when the input holds 10 to 15 digits; the result is the input with every non-digit removed, all ASCII digits, of length 10 to 15; a failure carries the fixed message |
| `Utils.StripLeavesTheDigits` | src/utils/index.ts:8 | removing the non-digits leaves only digits, as many as the input holds |
| `Utils.StripFixesExactlyDigitStrings` | src/utils/index.ts:8 | removing the non-digits changes nothing exactly when the input is digits only |
| `Utils.StripAppend` | src/utils/index.ts:8 | removing the non-digits distributes over concatenation |
| `Utils.StripOne` | src/utils/index.ts:8 | a single character is kept exactly when it is a digit |
| `Utils.StripAroundOne` | src/utils/index.ts:8 | around one character, the stripped text is the stripped prefix, that character when it is a digit, and the stripped suffix |
| `Utils.StripKeepsDigitsInOrder` | src/utils/index.ts:8 | each digit of the input survives, after exactly the digits that precede it, so the digits keep their order |
| `Utils.ValidateIsIdempotent` | src/utils/index.ts:6-16 | validating an already validated number returns it unchanged |
| `Utils.SeparatorsAreIgnored` | src/utils/index.ts:8-15 | inserting any non-digit (space, `+`, `-`) anywhere in a number does not change the validation result |
| `Utils.ValidateRefusesShortNumber` | src/utils/index.ts:11-13 | a three-digit number is refused with the fixed message |
| `Utils.FormatError` | src/utils/index.ts:23-50 | status is always false and the message always truthy; a server error gives the response's message or "API error", the response data or its status text, and the response status; a no-response error gives "No response from server", the request and code 0; any other gives the error's message or "Unknown error", the error itself and code 0 |
| `Utils.StatusCodeComesFromServer` | src/utils/index.ts:24-49 | a non-zero status code only ever comes from a server response, and other errors always report 0 |
| `Utils.ValidationErrorIsReportedVerbatim` | src/utils/index.ts:41-48 | a thrown validation error is reported with its own text, itself as the error, and code 0 |
| `Utils.ParseWebhookData` | src/utils/index.ts:57-83 | `raw` is always the payload; only a null or undefined payload gives the raw-only message; otherwise each keyed field is the first truthy value among its keys (the last key's value when none is truthy), `caption` is copied, `type` falls back to "text", `is_group` is the first truthy value among its keys or else false and `timestamp` to the receipt time |
| `Utils.ResolvePicksFirstTruthyKey` | src/utils/index.ts:61-73 | a truthy value under a key wins when every earlier key's value is falsy |
| `Utils.ThreeKeyFallback` | src/utils/index.ts:62-72 | a three-key `\|\|` chain yields the first key's value when truthy, else the second's when truthy, else the third's |
| `Utils.SenderMessageAndUrlFallbackOrder` | src/utils/index.ts:62-72 | `sender` is taken from `sender`, then `from`, then `phone`; `message` from `message`, then `text`, then `body`; `url` from `url`, then `media_url`, then `mediaUrl` |
| `Templates.EncodeButtonSeq` | src/client/FonnteClient.ts:66-69 | the buttons are encoded one for one, in their order |
| `Templates.EncodeRowSeq` | src/client/FonnteClient.ts:78-82 | the rows are encoded one for one, in their order |
| `Templates.EncodeSectionSeq` | src/client/FonnteClient.ts:76-83 | the sections are encoded one for one, in their order |
| `Templates.NormalizeRows` | src/client/FonnteClient.ts:78-82 | each row is normalised in place: an empty description becomes missing, everything else is kept, and the order and count are kept |
| `Templates.NormalizeSections` | src/client/FonnteClient.ts:76-83 | each section keeps its title and position and has its rows normalised |
| `Templates.ButtonRoundTrip` | src/client/FonnteClient.ts:66-69 | an encoded button carries exactly `display` and `id` and decodes back to the button |
| `Templates.DecodeButtonSeqCons` | src/client/FonnteClient.ts:66-69 | decoding a button array decodes its first element and then the rest, keeping the order |
| `Templates.ButtonsRoundTrip` | src/client/FonnteClient.ts:65-70 | decoding the encoded buttons gives back exactly the buttons, in order |
| `Templates.RowRoundTrip` | src/client/FonnteClient.ts:78-82 | decoding an encoded row gives back the row, with an empty description read as missing |
| `Templates.RowsRoundTrip` | src/client/FonnteClient.ts:78-82 | decoding encoded rows gives back the rows in order, normalised |
| `Templates.SectionsRoundTrip` | src/client/FonnteClient.ts:76-83 | decoding encoded sections gives back the sections in order, normalised |
| `Templates.ListRoundTrip` | src/client/FonnteClient.ts:73-85 | decoding an encoded list gives back its title and sections in order; only the description `""` versus missing distinction is lost |
| `Templates.NormalizeRowsKeepsRows` | src/client/FonnteClient.ts:78-82 | normalisation keeps every row's title and id, and every non-empty description |
| `Client.NewClient` | src/client/FonnteClient.ts:19-23 | the API key and device are kept; a falsy base URL becomes "https://api.fonnte.com" and a falsy timeout becomes 30000; both are always truthy |
| `Client.NamesAreDistinct` | src/client/FonnteClient.ts:47-85 | the body's properties have pairwise distinct wire names |
| `Client.AddOptional` | src/client/FonnteClient.ts:54-62 | each field is present afterwards when it was before or its value is truthy, carries its value when truthy, and every other key is untouched |
| `Client.OptionalFieldsAreDistinct` | src/client/FonnteClient.ts:54-62 | the optional keys are distinct and are exactly the keys other than target, message, device, button and list |
| `Client.OptionalBody` | src/client/FonnteClient.ts:54-62 | a key is present exactly when it is one of `url`, `schedule`, `delay`, `typing`, `read`, `online`, `filename`, `footer`, `header` and its option is truthy, and it carries that option's value |
| `Client.TemplateBody` | src/client/FonnteClient.ts:65-85 | `button` is present exactly when a button template is and decodes to its buttons; `list` is present exactly when a list template is and decodes to it, normalised; nothing else is present |
| `Client.TemplatesRoundTrip` | src/client/FonnteClient.ts:65-85 | the encoded templates decode to the options' buttons and normalised list |
| `Client.BuildRequestBody` | src/client/FonnteClient.ts:44-85 | the body holds the cleaned target, the message unchanged, and the option's device when truthy or else the configured one; `button` and `list` are present exactly when their templates are given |
| `Client.BodyOptionalFields` | src/client/FonnteClient.ts:54-62 | in the request body, each optional field is present exactly when its option is truthy, and then carries the option's value |
| `Client.BodyTemplatesDecode` | src/client/FonnteClient.ts:65-85 | in the request body, `button` decodes to the template's buttons in order and `list` to the list template, normalised |
| `Client.ShapeResponse` | src/client/FonnteClient.ts:88-97 | a non-null 2xx body gives a result with that body as data, a truthy status (true when the body's status is boolean or falsy) and the body's message or the default; a null or undefined body and any thrown error go through the error formatter; the status is truthy exactly on success |
| `Client.SendMessage` | src/client/FonnteClient.ts:41-98 | a request is issued exactly when the target validates; it is `POST /send` with the body built from the cleaned target; an invalid target gives the validation message with code 0; the result's status is truthy exactly when a request was answered with a non-null body |
| `Client.SendMedia` | src/client/FonnteClient.ts:105-114 | without a truthy URL it refuses with "URL is required for media messages" and issues nothing; otherwise it is exactly `sendMessage` |
| `Client.SendDocument` | src/client/FonnteClient.ts:121-137 | the URL is checked before the filename, each with its own message; with both it is exactly `sendMessage` |
| `Client.SendButtons` | src/client/FonnteClient.ts:144-153 | a missing or empty button list is refused with its message and nothing is issued; otherwise it is exactly `sendMessage` |
| `Client.SendList` | src/client/FonnteClient.ts:160-169 | a missing or empty section list is refused with its message and nothing is issued; otherwise it is exactly `sendMessage` |
| `Client.GetDeviceStatus` | src/client/FonnteClient.ts:176-199 | with neither a truthy argument nor a configured device it refuses with "Device ID is required" and issues nothing; otherwise it issues `GET /device` with the argument or the configured device as the `device` parameter and shapes the answer with "Device status retrieved" |
| `Client.InvalidTargetIssuesNoRequest` | src/client/FonnteClient.ts:42-97 | a target with fewer than 10 or more than 15 digits issues no request, whatever the transport would do, and reports the validation message with code 0 |
| `Client.VariantsDelegateUnchanged` | src/client/FonnteClient.ts:105-169 | a variant that issues a request issues exactly `sendMessage`'s request and returns exactly its result |
| `Client.DeclaredFailureReportedAsSuccess` | src/client/FonnteClient.ts:90-91 | a 2xx body declaring `status: false` is reported with status true |
| `Client.DeviceStatusExample` | src/client/FonnteClient.ts:191-195 | an answer `{status: true, data}` without a message is reported with the default message and the whole body |
| `Webhook.NewWebhook` | src/webhook/WebhookHandler.ts:21-25 | a new server keeps its port, path and secret, has no handlers and is not listening |
| `Webhook.OnMessage` | src/webhook/WebhookHandler.ts:94-97 | the handler is appended after the existing ones and nothing else changes |
| `Webhook.RegistrationAppends` | src/webhook/WebhookHandler.ts:94-97 | chained registrations append exactly their handlers, in call order, and change nothing else |
| `Webhook.Respond` | src/webhook/WebhookHandler.ts:47-59 | a parsed message is dispatched and answered 200 "Webhook received"; a parse error is answered 500 "Error processing webhook" without dispatch |
| `Webhook.PostRoute` | src/webhook/WebhookHandler.ts:40-60 | the answer is 401 "Unauthorized", with nothing parsed or dispatched, exactly when the gate fails; otherwise the parsed body is dispatched and the answer is 200 "Webhook received"; 500 is never answered |
| `Webhook.UnguardedRouteIgnoresHeaders` | src/webhook/WebhookHandler.ts:42 | without an enforced secret, requests with the same body are handled alike whatever their headers, and are accepted |
| `Webhook.GuardedRouteChecksHeader` | src/webhook/WebhookHandler.ts:42-45 | with an enforced secret, a missing or different header is refused with 401 and the exact secret is accepted |
| `Webhook.HandlersDoNotAffectAnswer` | src/webhook/WebhookHandler.ts:47-55 | registering handlers never changes a request's answer or what is dispatched |
| `Webhook.FailuresAreTheRaisedErrors` | src/webhook/WebhookHandler.ts:76-82 | the logged errors are those of invocations that raised, and every raised error is logged: no more than the invocations, none exactly when all completed |
| `Webhook.OneLogEntryPerRaise` | src/webhook/WebhookHandler.ts:76-82 | exactly one error is logged per invocation that raised |
| `Webhook.ProcessMessage` | src/webhook/WebhookHandler.ts:72-87 | every handler is invoked exactly once with the message, in registration order, whatever the others do; the errors raised are logged and swallowed |
| `Webhook.SingleFailureIsLogged` | src/webhook/WebhookHandler.ts:76-82 | when only one invocation raised, exactly its error is logged |
| `Webhook.OneFailureIsContained` | src/webhook/WebhookHandler.ts:76-82 | one failing handler among completing ones yields exactly its error in the log |
| `Webhook.HandleWebhookPost` | src/webhook/WebhookHandler.ts:40-60 | the answer is the route's and never depends on the handlers; a refused request invokes no handler; an accepted one invokes every registered handler once, in order, with the parsed message |
| `Webhook.Route` | src/webhook/WebhookHandler.ts:40-65 | POST on the configured path is the webhook route; GET `/health` answers 200 "Webhook server is running"; nothing else matches; only an authorised POST dispatches |
| `Webhook.HealthIgnoresSecret` | src/webhook/WebhookHandler.ts:63-65 | the health answer does not depend on the secret or the headers |
| `Webhook.Start` | src/webhook/WebhookHandler.ts:103-110 | the server listens on its port and nothing else changes |
| `Webhook.Stop` | src/webhook/WebhookHandler.ts:116-132 | without a listener it resolves at once and closes nothing; with one it closes it and rejects with the close error exactly when that error is truthy; the server is left as it was |
| `Webhook.StopBeforeStartIsNoOp` | src/webhook/WebhookHandler.ts:116-121 | stopping a server that was never started, whatever handlers it has, succeeds without closing anything |
| `Webhook.StartThenStopCloses` | src/webhook/WebhookHandler.ts:103-132 | after start, stop closes the listener and reports its error |

## Left out

- The transport is not modelled: the axios instance, its `Authorization` and `Content-Type` headers, the base URL and the timeout. The outcome of each request is a parameter.
- Express, body-parser and port binding are not modelled. Requests arrive already parsed, header names already lower-case. Route matching is exact string equality, without Express's case-insensitive and trailing-slash matching or HEAD handling. A request no route matches gets the framework's answer, modelled only as `NoRoute`.
- `button` and `list` are sent as `JSON.stringify` text. They are modelled as the JSON value tree that is stringified; the text itself is library behaviour.
- Numbers are integers: floating point, `NaN` and `-0` (all relevant to truthiness) are not modelled.
- The phone target is a string. A non-string target, whose `replace` call would throw a TypeError, is not modelled, and neither are non-object thrown values reaching the error formatter.
- Dispatch runs the handlers in sequence. `Promise.all` starts them concurrently and is not awaited by the POST route, so the model makes no claim about when the handlers finish relative to the answer. It only claims that the answer does not depend on them.
- Webhook.ProcessMessage — handlers are pure functions of the message and share no state. In the source every handler receives the same mutable message object, so a handler that changes it before its first `await` changes what later handlers see; that aliasing is not modelled.
- Logging through `console.log` and `console.error` is not modelled: the logged handler errors are returned instead.
- `Date.now()` is the parameter `now`.
- A failing `listen` (a port in use, say) is not modelled: starting the listener always succeeds in the model.
- A number written with separators, such as `"+62 812-3456-789"`, is covered only by the general `Utils.SeparatorsAreIgnored`, not by a literal example.
- The examples directory and the re-export module `src/index.ts` have no library behaviour.
