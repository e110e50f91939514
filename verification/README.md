# Care-plan request handler, modelled in Dafny

The service is one serverless HTTP handler (`handler` in `index.js`). It
takes a free-text list of a patient's chronic conditions and appends it to a
fixed prompt template. It sends that prompt to a chat-completion service and
returns the service's answer as a care plan. This project models the handler's
decision procedure as pure functions and proves properties of it. The
procedure covers three things:

- **Request classification.** OPTIONS is a preflight. POST proceeds. Every
  other method gets 405. For POST, `conditions` must be present and not blank
  after trimming, and the API key must be configured. The checks run in that
  order.
- **Sanitisation.** Every `<` and `>` is deleted, and then the surrounding
  whitespace is trimmed. The result is appended to the template.
- **Outcome-to-response mapping.** The completion service's reply, or the
  failure to get one, becomes the response. An exception anywhere inside the
  `try` ends in the generic 500 of the outer `catch`.

`Handler.Handle(req, env, outcome, now)` is the whole handler. It returns
one `Http.Response` that holds:

- the status;
- the six CORS and security headers;
- the JSON body: empty, `{success:false, error}` or `{success:true, carePlan, timestamp}`;
- the request sent to the completion service, if one was sent.

Files:

- `wrappers.dfy`: `Option`.
- `strings.dfy` (module `Strings`): ECMAScript whitespace, `trim` (computed by
  scanning for the first and last characters that are not whitespace),
  angle-bracket stripping and the sanitiser. It also gives a reference definition of trimming
  (`IsTrimOf`), proved equivalent to the computed trim.
- `upstream.dfy`: the abstract outcome of the `fetch` and of the JSON parsing.
- `http.dfy`: the response, its body, the header list, and how a stage exits
  (it returns or it throws). The seven error messages form the enumeration
  `Http.Error`, whose `Message()` is the exact text sent. The texts are
  pairwise distinct (`Http.MessagesDistinct`), so a property stated on the
  enumeration is a property of the text. No error text is taken from the
  request, the configuration or the upstream reply.
- `handler.dfy`: validation, the key check, prompt composition, the upstream
  mapping, the catch-all and `Handle`.
- `handler_properties.dfy`: properties of `Handle` over all inputs.

JavaScript semantics that the model follows from the code:

- `const { conditions } = req.body` throws when the body is undefined or null.
  The result is the generic 500, not 400.
- A falsy `conditions` (undefined, null, `""`, `0`, `false`) gets 400.
- A truthy `conditions` that is not a string has no `trim` method, so the
  handler throws before the key check. The result is the generic 500, even
  when the key is also missing. A parsed JSON body cannot carry functions, so
  no such value has its own `trim` method.
- `ok` means the status is in 200..299, as the Fetch standard defines it.
- On a non-ok reply the error body is parsed first. If that parse fails, the
  generic 500 is sent, even for status 429.
- On an ok reply, `choices[0].message.content` throws when `choices` is
  missing or empty, or when the first choice has no `message`. Then
  `carePlan.length` throws when the content is null or undefined. A non-null
  content that is not a string is passed through.
- An API key set to the empty string counts as not configured.

Validation trims the raw text, but the sanitiser strips angle brackets before
it trims. So `"<>"` passes validation and the prompt is sent with nothing
appended. The same holds for any text made only of angle brackets
(`HandlerProperties.AngleOnlyConditionsSendBareTemplate`).

## Model

| member | source | states |
|---|---|---|
| Strings.SkipLeading | index.js:28 | the position returned is the first one from the start position that is not whitespace; everything skipped is whitespace |
| Strings.SkipTrailing | index.js:28 | the position returned follows the last character before the end position that is not whitespace; everything skipped is whitespace |
| Strings.Trim | index.js:28 | `trim()` meets the reference definition: it returns a slice of the input, only whitespace is cut on either side, and neither end of the result is whitespace |
| Strings.TrimUnique | index.js:28 | the reference definition determines the trim: any string that meets it equals `Trim(s)` |
| Strings.TrimEmptyIff | index.js:28 | the trimmed text is empty exactly when the input is all whitespace, which is the blank input that validation rejects |
| Strings.TrimOfTrimmed | index.js:44 | trimming a string whose ends are not whitespace returns it unchanged |
| Strings.StripAngles | index.js:44 | `replace(/[<>]/g, '')` leaves no angle bracket and keeps every other character with its multiplicity |
| Strings.StripAnglesConcat | index.js:44 | stripping distributes over concatenation, so it acts character by character and keeps the order |
| Strings.StripAnglesIdentity | index.js:44 | stripping leaves a string unchanged exactly when it has no angle brackets |
| Strings.Sanitize | index.js:44 | the sanitised text has no angle brackets and no surrounding whitespace, and it is the trim of the input with angle brackets removed |
| Strings.SanitizeIdempotent | index.js:44 | sanitising twice gives the same result as sanitising once |
| Strings.SanitizedNonEmptyPassesValidation | index.js:28-44 | a non-empty sanitised text only comes from input that passes the blank check |
| Strings.StripAllAngles | index.js:44 | stripping a text made only of angle brackets leaves the empty string |
| Strings.AngleOnlyInputSanitisesToEmpty | index.js:28-44 | a non-empty text made only of angle brackets, such as `"<>"`, is not blank, so it passes validation, but it sanitises to the empty string |
| Http.MessagesDistinct | index.js:21-170 | the seven error texts are pairwise distinct, so each error message the handler sends identifies one error case |
| Handler.Prompt | index.js:124 | the message content is the template followed by the sanitised text: the template is its prefix and the text is the rest |
| Handler.Prepare | index.js:25-44 | the handler reaches the fetch exactly when `conditions` is a non-blank string and the key is configured; every early return is a 400 or 500 with a fixed message |
| Handler.AfterFetch | index.js:131-163 | after the fetch the handler returns 200 exactly with a care plan stamped with the current time, or a fixed error message with 429 or 500; it returns only for a parsed reply and throws otherwise |
| Handler.Handle | index.js:4-173 | every request gets exactly one response with the six headers and a status among 200, 400, 405, 429 and 500; `success` is true exactly for a 200 answer to POST; the body is empty exactly for OPTIONS; the upstream is called only for POST with a configured key |
| HandlerProperties.PreflightAnswered | index.js:6-17 | OPTIONS gets 200, an empty body and the headers, with no upstream request, whatever else the request holds |
| HandlerProperties.OtherMethodRejected | index.js:19-22 | a method other than OPTIONS or POST gets 405 "Method not allowed" with no upstream request; the response is the same for every body, configuration and outcome |
| HandlerProperties.BlankConditionsRejected | index.js:27-33 | falsy or whitespace-only conditions get 400 "Patient conditions are required" with no upstream request, whether or not the key is configured |
| HandlerProperties.MalformedBodyFails | index.js:25-28 | a missing body or non-string truthy conditions get the generic 500 with no upstream request, whether or not the key is configured |
| HandlerProperties.MissingKeyRejected | index.js:35-41 | valid conditions without a configured key get 500 "OpenAI API key not configured" with no upstream request |
| HandlerProperties.UpstreamCalledIff | index.js:14-114 | the completion service is called exactly for POST with non-blank string conditions and a configured key |
| HandlerProperties.UpstreamMessageContent | index.js:44-125 | the message sent starts with the template, and the rest equals the sanitised conditions, with no angle brackets and no surrounding whitespace |
| HandlerProperties.AngleOnlyConditionsSendBareTemplate | index.js:28-124 | conditions made only of angle brackets, such as `"<>"`, pass validation, and with a configured key the message sent is exactly the template |
| HandlerProperties.NoCallIgnoresOutcome | index.js:14-114 | when no upstream request is made, the response is the same for every upstream outcome and time |
| HandlerProperties.KeyValueNotObservable | index.js:36-41 | two configurations with the same key presence give the same response, so the key's value never reaches the client |
| HandlerProperties.ErrorReplyMapping | index.js:131-150 | a non-ok reply whose error body parses maps 429 to 429 with the rate-limit message, 401 to 500 with the invalid-key message, and every other status to 500 with the unavailability message |
| HandlerProperties.UnparseableErrorReplyFails | index.js:131-171 | a non-ok reply whose error body does not parse gets the generic 500, even for status 429 |
| HandlerProperties.FetchSucceedsIff | index.js:153-163 | after the fetch, a care plan is returned exactly when an ok reply has a first choice whose message content is present; the body holds that content and the time |
| HandlerProperties.SuccessIff | index.js:153-163 | `success` is true exactly when the request reaches the service and an ok reply carries a care plan; the response then holds `choices[0].message.content` and the current time |
| HandlerProperties.PrepareThrowsIff | index.js:25-44 | before the fetch, the handler throws exactly for a missing body or non-string truthy conditions |
| HandlerProperties.PrepareStatus | index.js:27-41 | every early return before the fetch has the status listed for its message, and none is the generic failure |
| HandlerProperties.AfterFetchThrowsIff | index.js:131-163 | after the fetch, the handler throws exactly for a failed fetch, an unparseable reply, or an ok reply without a care plan |
| HandlerProperties.AfterFetchStatus | index.js:131-163 | every error returned after the fetch has the status listed for its message, and none is the generic failure |
| HandlerProperties.GenericFailureIff | index.js:165-171 | the generic 500 is sent exactly for a POST with a missing body, non-string conditions, a failed fetch, an unparseable reply, or an ok reply without a care plan |
| HandlerProperties.StatusFollowsError | index.js:21-171 | every error response has the status listed for its message: 405, 400, 429, or 500 for the other messages |

## Left out

- The `fetch` call, the network and JSON parsing are foreign I/O. They enter as the abstract `Upstream.Outcome`: a failed fetch, or a reply with a status and a body that is unparseable or parsed into the shape the handler reads.
- The prompt template's text is business content with no behaviour. It is the uninterpreted constant `Handler.CarePlanPrompt`.
- The model name, `temperature: 0.3`, `max_tokens: 4000`, the endpoint URL and the `Authorization` header are fixed request parameters with no behaviour to verify. `Http.UpstreamRequest` records only the message content.
- `new Date().toISOString()` is clock I/O. The timestamp is the parameter `now`.
- `console.log` and `console.error` have no effect on the response.
- JavaScript strings are UTF-16 code units, but Dafny's `char` is a Unicode scalar value. Lone surrogates cannot be represented.
- The whitespace set follows the current Unicode "Zs" category. A JavaScript engine built on an older Unicode version may differ.
- A non-null `content` that is not a string is passed through as the abstract `Upstream.NonText`; its JSON value is not modelled.
- Failures of `res.json`/`res.end` themselves are not modelled. Node always gives `req.method` as a string, so it is modelled as one.
