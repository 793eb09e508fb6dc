# FotoRestauradorX backend: the restore handler

This project models the `POST /api/restore` handler of the FotoRestauradorX backend in Dafny. The handler takes a base64 photograph and a restoration mode. It asks Qwen-Image-Edit-Plus, through DashScope, to restore the photo and replies with the URL of the restored image. The model is pure: the handler's checks, the job body it builds and the way it classifies Qwen's answer are functions, and their properties are lemmas and `ensures` clauses.

- `js_values.dfy` (`JsValues`): JSON values as JSON.parse produces them, plus `undefined` (`Value = Option<Json>`). It also holds JavaScript truthiness, `||` (`Or`), and when converting a value to a string throws. `Member`, `OptMember` and `First` are the definitions of property access `.`, optional access `?.` and indexing `[0]` on parsed JSON. They carry no contract of their own, and the members that use them state the properties.
- `request_translator.dfy` (`RequestTranslator`): the mode-to-instruction table, the `data:image/jpeg;base64,` data URL, and the outbound job body. `ReadJob` reads a job body back and is its exact inverse.
- `result_extractor.dfy` (`ResultExtractor`): reads the image URL from `output.choices[0].message.content`. `content.find` is modelled step by step, including the TypeErrors it can throw. Its result is characterised against an index-based reference (`FirstImageAt`, `NullReachedAt`).
- `restore_handler.dfy` (`RestoreHandler`): the two fast-fail checks (`Admit`), the upstream answer's classification (`Conclude`), the whole handler (`Restore`), and the replies with their status codes, error codes and JSON bodies.

The upstream call is a parameter. `Restore` takes `upstream: Json -> Exchange`, which answers the job body actually sent. An `Exchange` is either a rejected `fetch`/`resp.text()` carrying its error message, or a `Response` with the status, the raw text and the result of JSON.parse on that text (None when JSON.parse throws). `IsOk` is the definition of fetch's `resp.ok`: it holds for a status from 200 to 299.

What the handler does, as `server.js` writes it:
- `server.js` makes one synchronous call to Qwen. There is no task id, no polling, no retry and no timeout.
- An empty `imageBase64` also gets the 400 reply, because the check is `!imageBase64` as well as `typeof`.
- `mode` is compared with `===` against `"color"` and `"super"`. Every other value gets the default instruction: `"auto"`, a missing mode, a non-string, or `"Color"`.
- The log line at server.js:79-81 formats `${mode || 'auto'}`, and that conversion can throw. It throws for a parsed object with its own `toString` key, and for an array that holds such a value. The handler then replies 500 `server_error` before any job is built or sent. The model includes this path.

## Model

| member | source | states |
|---|---|---|
| `JsValues.Or` | server.js:153-156 | the logical-or operator, as used at server.js:62, 153, 155 and 156: its left operand when that is truthy, its right one otherwise; the result is truthy exactly when one operand is |
| `RequestTranslator.Instruction` | server.js:86-95 | `"color"` gives the colorize instruction and `"super"` the super-resolution one, both in each direction; every other mode value (`"auto"`, missing, non-string, unknown) gives the default instruction; the three are distinct, so exactly one is chosen |
| `RequestTranslator.DataUrl` | server.js:83-84 | the image reference is `data:image/jpeg;base64,` followed by the payload, unchanged and at full length |
| `RequestTranslator.DataUrlRoundTrip` | server.js:84 | stripping the data-URI header from a built data URL gives back the payload |
| `RequestTranslator.PayloadOfInverse` | server.js:84 | every string with the header is the data URL of what follows it |
| `RequestTranslator.DataUrlInjective` | server.js:84 | different payloads give different image references |
| `RequestTranslator.JobBody` | server.js:97-115 | the body reads back as exactly one job: model `qwen-image-edit-plus`; a single `user` message whose content is `[{image: dataUrl}, {text: instruction}]` in that order; parameters `n = 1`, `watermark = false`, `prompt_extend = true`; it is a function of `(imageBase64, mode)` only |
| `RequestTranslator.JobRoundTrip` | server.js:97-115 | reading a job body back yields the image reference and instruction it was built from |
| `RequestTranslator.ReadJobExact` | server.js:97-115 | whatever the reader accepts is exactly the job body for what it read: no extra keys, messages or parameters |
| `RequestTranslator.JobBodyDetermines` | server.js:84-115 | equal job bodies come from equal payloads and from modes with the same instruction |
| `ResultExtractor.FindImage` | server.js:156 | `content.find((c) => c.image)` stops at the first block with a truthy `image`, throws at a `null` block reached before it, and finds nothing exactly when every block is passed |
| `ResultExtractor.OnlyOneStop` | server.js:156 | the block where `find` stops is unique, and a stop rules out a complete pass |
| `ResultExtractor.FallbackHasNoUrl` | server.js:156-159 | the `content[0]` fallback never yields a URL, because `find` misses only when the first block's `image` is falsy too |
| `ResultExtractor.FirstChoice` | server.js:153-154 | `json.output?.choices`, or `[]` when that is falsy, then `[0]`, for every kind of `choices`: no first choice when it is missing, falsy, an empty array, a number or `true`; the first element of a non-empty array; the `"0"` entry of an object when it has one; a string, which has no `message`, for a non-empty string |
| `ResultExtractor.EmptyChoicesHaveNoUrl` | server.js:153-163 | a response whose `choices` is an empty array yields no URL, which the handler answers with `no_image_url_in_qwen_output` |
| `ResultExtractor.Content` | server.js:155 | `firstChoice?.message?.content`, or `[]` when that is falsy, is never nullish: the `content` found when it is truthy, an empty array otherwise |
| `ResultExtractor.ImageOf` | server.js:157-159 | `block?.image` gives a URL exactly when the block is not nullish and its `image` is truthy, and that URL is the `image` value itself; it never throws |
| `ResultExtractor.ExtractImageUrl` | server.js:152-165 | a URL is found exactly when some content block of the first choice has a truthy `image` and no `null` block comes before it; the URL is the `image` of the first such block, verbatim. It fails with a shape error exactly when the response is `null`, `content` is not an array, or `find` reaches a `null` block. Otherwise there is no URL, which is not a success |
| `ResultExtractor.OnlyFirstChoiceMatters` | server.js:153-155 | choices after the first never change the extraction |
| `RestoreHandler.HttpStatus` | server.js:65-178 | a success is 200, a missing or empty payload 400, every other failure 500 |
| `RestoreHandler.ErrorCode` | server.js:66-179 | the `error` string of each failure as the source writes it, each code belonging to exactly one kind of failure: `missing_api_key`, `imageBase64_required` (the only code of a 400 reply), `invalid_json_from_qwen`, `qwen_error`, `no_image_url_in_qwen_output`, `parse_output_error` and `server_error` |
| `RestoreHandler.ErrorCodesDistinct` | server.js:64-182 | two failures share an `error` code only if they are the same kind of failure |
| `RestoreHandler.Body` | server.js:64-182 | the reply body is exactly `{url}` on success. Every failure body carries its `error` code, and its key set is fixed per kind. `missing_api_key` and `imageBase64_required` carry their constant messages, and `server_error` carries the caught error's message. `invalid_json_from_qwen` carries the upstream `status` and `raw` text, and `qwen_error` the `status` and parsed `detail`. `no_image_url_in_qwen_output` carries the whole parsed response as `detail`, and `parse_output_error` only its code |
| `RestoreHandler.Received` | server.js:62 | `req.body`, or `{}` when it is falsy: the body when it is truthy, an empty object otherwise |
| `RestoreHandler.Arg` | server.js:62 | `imageBase64` and `mode` are each present exactly when the body is an object with that key, and are that key's value |
| `RestoreHandler.IsImagePayload` | server.js:71 | the payload passes the check exactly when it is a string and not the empty one |
| `RestoreHandler.Admit` | server.js:62-115 | a missing API key gives `missing_api_key` whatever the body holds. With a key, a payload that is absent, empty or not a string gives `imageBase64_required`. A valid request whose `mode` the log line cannot format gives `server_error`. A job body is built exactly when none of these apply, and it is the one for that payload and mode |
| `RestoreHandler.Conclude` | server.js:128-182 | the checks run in a fixed order, and each reply kind comes from exactly one case. A rejected call gives `server_error` with its message. Unparseable text gives `invalid_json_from_qwen` with status and raw text, whatever the status. Parsed JSON with a non-OK status gives `qwen_error` with status and body. Otherwise the extraction decides: 200 with the URL, `no_image_url_in_qwen_output` with the whole response, or `parse_output_error` |
| `RestoreHandler.Restore` | server.js:60-183 | the API-key check comes first, then the payload check, then the log line's formatting of `mode`. Only after those does the handler reply to the upstream answer for the job built from that request |
| `RestoreHandler.RejectedRequestsSendNothing` | server.js:64-81 | a request failing a fast-fail check, or stopped by the log line, gets the same reply whatever the upstream service would do: 400 for a bad payload, 500 otherwise |
| `RestoreHandler.UnprintableModeIsServerError` | server.js:79-81 | `{"imageBase64": "abc", "mode": {"toString": 1}}` with the key set gets `server_error`, whatever Qwen would answer |
| `RestoreHandler.RestoredExactly` | server.js:128-168 | a 200 reply with URL `u` happens exactly when the key is set, the payload is valid, the `mode` can be formatted, and Qwen's answer parses with an OK status and yields `u` |
| `RestoreHandler.EchoedMessageRestoresDataUrl` | server.js:97-168 | if Qwen answered with the very user message it was sent, the reply is 200 with the caller's data URL: the extractor reads image blocks as the translator writes them |

## Left out

- Express setup, the 20 MB body limit, the `/` and `/api/health` routes and `app.listen`/`PORT` (server.js:10-46, 186-189): routing plumbing with constant answers.
- `dotenv` and the environment reads (server.js:8, 17-26): the API key appears only as the flag `hasApiKey`. The base URL and the `Authorization: Bearer` header are not modelled.
- `fetch`, `resp.text()` and JSON.parse (server.js:119-132): network I/O and a parser that is not part of this repository. They are inputs (`upstream`, `Response.parsed`), and `JSON.stringify` of the job body is not modelled, so neither is its key order.
- Logging with `console.log`, `console.warn` and `console.error`: the output is not modelled. One log line can change the reply, because formatting `mode` at server.js:79-81 can throw. That is modelled (`JsValues.ToStringThrows`, `RestoreHandler.LogThrows`). The other log calls only format constants, numbers and strings, or pass values to `console` unformatted.
- RestoreHandler.Admit: a `server_error` caused by the log line carries "Cannot convert object to primitive value". That is the message Node's engine gives this TypeError; its text is the engine's, not the repository's.
- RestoreHandler.Body: the `message` of a `parse_output_error` reply is the text of a JavaScript TypeError, which this model does not produce, so the body carries only the `error` code.
- JSON numbers are modelled as `real`, so the `Infinity` that JSON.parse makes of an out-of-range literal such as `1e400` is not represented. It is truthy like any non-zero number, but it also changes what is echoed. Inside the `detail` of a `qwen_error` or `no_image_url_in_qwen_output` reply (server.js:147, 163), or as the restored URL (server.js:168), `res.json` writes it as `null`. For example, an `image` of `1e400` gives 200 `{"url": null}`. The model would echo the number itself.
- Strings are sequences of Unicode scalar values. A JavaScript string can also hold a lone UTF-16 surrogate, which JSON.parse accepts (`"\ud800"`), and the model cannot represent one. So an `imageBase64`, `mode`, `detail`, raw text or URL holding one is outside the model. No branch of the handler depends on this.
- `JsValues.First` on a string returns its first Unicode scalar value, not its first UTF-16 code unit. Only named properties of that result are ever read, and a string has none, so the difference never reaches a reply.
- Task polling, retries, timeouts and the `results[]` response shape: not present in `server.js`.
