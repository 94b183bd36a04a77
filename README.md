# Oracle analysis handler: a verified model

The repository is one serverless HTTP handler, `api/oracle.js`. It takes a
piece of writing from a browser, asks a text-generation service for a
literary critique as JSON, and relays the parsed critique. This project
models what the handler does apart from I/O, in two Dafny modules:

- `Fences` (`fences.dfy`) is the clean-up applied to the service's answer,
  `rawContent.replace(/```json|```/g, '').trim()`. `StripFences` is one
  left-to-right pass of the global regular expression: at each position it
  tries "```json" first, then "```", and otherwise keeps the character. `Trim`
  is ECMAScript's `String.prototype.trim`: it removes the WhiteSpace and
  LineTerminator code points at both ends. `Clean` is the two in sequence.
- `Oracle` (`oracle.dfy`) is the handler. `Response` is a class that stands
  for the platform's response object. It holds a header map, a status code,
  a body, a "finished" flag and the log of calls made on it. `Upstream` is a
  test double for the service: it returns a fixed abstract reply and records
  every prompt it is sent. `Handle` is the handler as a method. It sets the
  four cross-origin headers, walks the check ladder with early returns, calls
  the service once, and answers. Its postcondition ties the final response
  and the service's call log to `Classify`, the pure decision function. The
  lemmas then prove what the handler promises about `Classify`.

The handler's inputs enter as parameters:
- the request's method and its `text` field (`None` for missing, null or undefined);
- the credential, as an optional string;
- the service's abstract reply: the fetch throws; a non-success status,
  possibly with an unreadable body; or a success status, possibly with no
  string at `candidates[0].content.parts[0].text`;
- the JSON parser, as a total function `string -> Option<Json>`.

Because `Handle`'s final state is a function of these inputs, the same input
and the same service behaviour always give the same response.

The configuration error message is "API key is not configured on
Vercel." (api/oracle.js:29). The method error is sent as `{message: ...}`
(api/oracle.js:19), while every other error is sent as `{error: ...}`.

## Model

| member | source | states |
|---|---|---|
| `Oracle.Handle` | api/oracle.js:4-74 | The response ends with the four cross-origin headers added to its map. Its status and body are those of the outcome `Classify` assigns. Its call log is exactly four header sets, then one status, then one send. The service gets exactly one prompt, the request's text in the template, when the request passes every check, and none otherwise. |
| `Oracle.AskService` | api/oracle.js:47-73 | The part inside the `try`. It sends one prompt, the given text in the template, to the service. The response ends with the status and body of the outcome `ReplyOutcome` assigns to the reply, with one status set and one send logged. Headers are unchanged. |
| `Oracle.Classify` | api/oracle.js:13-73 | The decision ladder in source order: OPTIONS, then any method other than POST, then falsy text, then a falsy key, then the service's reply. |
| `Oracle.ReplyOutcome` | api/oracle.js:47-73 | Inside the `try`: a failed fetch is an internal error. A non-success status is the upstream failure, or an internal error when its body cannot be read. A success with no answer string is an internal error. Otherwise the cleaned answer goes to the parser: a failed parse is an internal error, a parsed value is success. |
| `Oracle.StatusOf` | api/oracle.js:14-72 | The status each branch sets: 200, 405, 400, 500, 500, 500, 200. |
| `Oracle.BodyOf` | api/oracle.js:14-72 | The body each branch sends: none for the pre-flight ack, the fixed message object for each error, the parsed value on success. |
| `Oracle.Truthy` | api/oracle.js:23 | A string-or-absent value is truthy when it is present and not empty, as the tests on `text` (line 23) and the key (line 28) read it. |
| `Oracle.Prompt` | api/oracle.js:34-45 | The fixed instructions, then the caller's text between `---` lines, character for character as the template literal builds it. |
| `Oracle.SetCorsHeaders` | api/oracle.js:7-10 | The four headers are added with their fixed values, in order. Status, body and finished flag are unchanged. |
| `Oracle.Response.SetHeader` | api/oracle.js:7-10 | `setHeader` updates one map entry and logs the call. Nothing else changes. |
| `Oracle.Response.Status` | api/oracle.js:14-72 | `status(code)` sets the code and logs it. Headers and body are unchanged. It is called at lines 14, 19, 24, 29, 59, 68 and 72. |
| `Oracle.Response.SendJson` | api/oracle.js:19-72 | `json(value)` sends the value as the body and finishes the response. Headers and status are unchanged. It is called at lines 19, 24, 29, 59, 68 and 72. |
| `Oracle.Response.constructor` | api/oracle.js:4 | The fresh response the platform hands the handler: no headers, status 200, no body, not finished, and no calls logged yet. |
| `Oracle.Response.End` | api/oracle.js:14 | `end()` finishes the response with no body. Headers and status are unchanged. |
| `Oracle.Upstream.Generate` | api/oracle.js:48-54 | One outbound request: it returns the double's reply and appends the prompt to its call log. |
| `Oracle.StatusCodes` | api/oracle.js:13-73 | Every outcome's status is 200, 400, 405 or 500. Status 200 means pre-flight or success. Only the pre-flight ack has no body. |
| `Oracle.PreflightAlwaysAcknowledged` | api/oracle.js:13-15 | OPTIONS yields the pre-flight ack (200, no body) whatever the text, credential, reply or parser. |
| `Oracle.MethodNotAllowedExactly` | api/oracle.js:18-20 | The outcome is 405 with `{message: "Only POST requests are allowed"}` if and only if the method is neither OPTIONS nor POST. |
| `Oracle.MethodCheckIgnoresPayload` | api/oracle.js:18-20 | For a refused method, the outcome is the same for every text, credential, reply and parser: none of them is examined. |
| `Oracle.MissingTextExactly` | api/oracle.js:22-25 | The outcome is 400 with the no-text error if and only if the method is POST and `text` is falsy. The credential does not appear in the condition, so this check comes first. |
| `Oracle.MissingApiKeyExactly` | api/oracle.js:27-30 | The outcome is 500 with the configuration error if and only if the method is POST, the text is truthy and the credential is falsy. |
| `Oracle.ServiceReachedOnlyPastChecks` | api/oracle.js:27-54 | The outcome is one the service decides (upstream failure, internal error, success) if and only if every check passed. Reaching the service implies the credential is present. |
| `Oracle.UpstreamErrorNotEchoed` | api/oracle.js:56-60 | Past the checks, a non-success reply with any readable error text yields 500 with the fixed message "Failed to get a response from the AI.". The error text is not in the body. |
| `Oracle.InternalErrorExactly` | api/oracle.js:47-73 | Past the checks, the outcome is 500 "An internal error occurred." if and only if one of these fails: the fetch, reading the error body, extracting the answer, or parsing the cleaned answer. |
| `Oracle.SuccessExactly` | api/oracle.js:62-68 | The outcome is success if and only if the checks pass, the reply is ok with an answer string, and the parser accepts the cleaned answer. The response is then 200 with the parsed value. |
| `Oracle.FencedAnswerSucceeds` | api/oracle.js:64-68 | The answer "```json\n" + J + "\n```" (J fence-free and trimmed) reaches the parser as J, so the caller gets 200 with the parse of J. |
| `Oracle.PlainFencedAnswerSucceeds` | api/oracle.js:64-68 | The answer "```\n" + J + "\n```" (J fence-free and trimmed) reaches the parser as J too. |
| `Oracle.PromptEmbedsTextVerbatim` | api/oracle.js:34-45 | The caller's text can be read back unchanged from between the prompt's `---` delimiters. |
| `Fences.IsJsWhitespace` | api/oracle.js:65 | The characters `trim` removes: ECMAScript's WhiteSpace (tab, vertical tab, form feed, space, no-break space, byte order mark, the other space separators) and LineTerminator (line feed, carriage return, line and paragraph separators). |
| `Fences.StripFences` | api/oracle.js:65 | One left-to-right pass of the global replace: "```json" is tried first, then "```", each match is deleted, and any other character is kept. |
| `Fences.Clean` | api/oracle.js:65 | The replace followed by the trim. |
| `Fences.Trim` | api/oracle.js:65 | The result has no white space at either end. It is the slice of the input between a leading and a trailing run that are all white space. |
| `Fences.LeadingEnd` | api/oracle.js:65 | The index where the white-space run starting at `i` ends: everything before it is white space, and the character there is not. |
| `Fences.TrailingStart` | api/oracle.js:65 | The index where the white-space run ending at `j` begins (not below `lo`): everything from it on is white space, and the character before it is not. |
| `Fences.TrimmedIsFixed` | api/oracle.js:65 | A string with no surrounding white space is returned unchanged by trim. |
| `Fences.TrimIdempotent` | api/oracle.js:65 | Trimming twice is the same as trimming once. |
| `Fences.TrimSurrounded` | api/oracle.js:65 | A trimmed string with one white-space character on each side trims back to itself. |
| `Fences.TrimKeepsNoFence` | api/oracle.js:65 | Trimming a string with no "```" gives a string with no "```". |
| `Fences.StripFencesFixed` | api/oracle.js:65 | A string with no "```" (so no "```json" either) passes the replace unchanged. |
| `Fences.StripLeavesNoFence` | api/oracle.js:65 | After the replace no "```" is left anywhere, not even one that deletions could bring together. |
| `Fences.StripJsonFencePrefix` | api/oracle.js:65 | A leading "```json" is deleted whole: the longer alternative is tried first. |
| `Fences.KeepPrefix` | api/oracle.js:65 | Text outside the matches is kept: a fence-free prefix that does not end in a backtick passes unchanged, and the pass continues on the rest as if the prefix were not there. |
| `Fences.PlainFencePrefix` | api/oracle.js:65 | A leading untagged "```" not followed by `json` (for example "```js") is deleted on its own, three backticks only. |
| `Fences.StripClosingFence` | api/oracle.js:65 | A trailing "```" after fence-free text that does not end in a backtick is deleted, and nothing else is. |
| `Fences.CleanIsTrimmedAndFenceFree` | api/oracle.js:65 | The cleaned string has no white space at either end and no "```". |
| `Fences.CleanFixed` | api/oracle.js:65 | Input with no "```" and no surrounding white space is returned unchanged. |
| `Fences.CleanFencedBody` | api/oracle.js:65 | "```json\n" + J + "\n```" cleans to J when J is fence-free and trimmed. |
| `Fences.OnOwnLineNoFence` | api/oracle.js:65 | A fence-free body with a line break before and after it is still fence-free. |
| `Fences.CleanPlainFencedBody` | api/oracle.js:65 | "```\n" + J + "\n```" cleans to J when J is fence-free and trimmed. |

Three definitions have no row because they only serve the contracts above.
`Oracle.CallsUpstream` is the condition under which the fetch at
api/oracle.js:48 is reached: POST, truthy text and a truthy key. `Handle`'s
postcondition uses it. `Oracle.HandlerEvents` is the call log `Handle`
leaves for an outcome. `Oracle.EmbeddedText` reads the text back out of a
prompt, for `PromptEmbedsTextVerbatim`.

## Left out

- The network call, the service URL with the key in its query string, and the service itself (api/oracle.js:32, 48-54). The call is the `Upstream` double and its reply is an abstract value.
- `geminiResponse.json()`, `geminiResponse.text()` and `JSON.parse` (api/oracle.js:57, 62, 66) are library code. Each is modelled only by whether it succeeds: the reply's `Option` fields and the `parse` parameter.
- Reading `process.env` (api/oracle.js:27): the credential is a parameter.
- `console.error` logging (api/oracle.js:58, 71): it has no effect on the response.
- Non-string values of `text` (numbers, booleans, objects) are not modelled. `text` is a string or absent, and it is truthy when present and non-empty. How a non-string would be turned into the prompt is not captured.
- A request with no body at all, or with a body the platform fails to parse: the destructuring at api/oracle.js:22 sits outside the `try`, so either case throws out of the handler instead of giving a response. The model assumes a body object is present and leaves both cases to the hosting platform.
- Oracle.Response.SendJson: the Content-Type and Content-Length headers that the platform's `json()` sets are not modelled. The model says only the four cross-origin headers are added to the map, and nothing in the handler depends on the others.
- `Oracle.Response`: header names are compared exactly, not case-insensitively as Node does. Header values are strings; the boolean `true` at line 7 is written as "true", which is how it is sent. Errors from setting a header or sending after the response has finished are not modelled, because the platform hands the handler a fresh response.
- async/await sequencing: the handler has one suspension point and no concurrency.
- Strings are sequences of Unicode code points, while JavaScript strings are UTF-16 code units. Every character that `trim` and the regular expression look at is in the Basic Multilingual Plane, so the two views agree on them.
