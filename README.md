# TikTokFlow download gateway — a Dafny model

TikTokFlow relays a TikTok video URL to the RapidAPI service "TikTok Download
Without Watermark", reads the reply, and answers its client with a `VideoData`
envelope: `{success: true, data: {video_url, title, author, duration,
thumbnail}}` or `{success: false, error}`. The only decision logic is the
download endpoint's handler. It exists in three versions that differ in small,
observable ways:

- the Cloudflare worker, `src/worker/index.ts` (module `Worker`);
- the raw Vercel handler, `api/download.ts` (module `VercelDownload`);
- the Vercel Hono handler, `api/index.ts` (module `VercelIndex`).

Each handler is modelled as a pure function. Its inputs are the configured API
key, the upstream reply and, for the raw Vercel handler, the incoming request.
The upstream reply is one `fetch`: it either failed, or it brought a status, a
status text and a body that is JSON or is not. Each handler returns the HTTP
status, the headers it sets itself, and the envelope.

Files:

- `js_values.dfy` (`JsValues`): the JavaScript semantics the handlers rely on.
  - JSON values, with `undefined` as `None`.
  - Truthiness and the `a || b || c` chain.
  - Property access, which throws on `null` and `undefined`, and optional chaining `?.`.
  - `String(x)`, `Number(x) || 0` and `includes`.
- `gateway.dfy` (`Gateway`): the upstream reply, the key check and the envelope.
- `rapidapi_shapes.dfy` (`RapidApiShapes`): the failure messages and the Shape A /
  Shape B readings (`ShapeA`, `ShapeB`), which the worker and the raw Vercel
  handler share, and the worker's 2xx branch `Normalise`. The raw Vercel
  handler reads `data?.msg` where the worker reads `data.msg`, so its 2xx
  branch is the separate `VercelDownload.Normalise200`.
- `worker.dfy`, `download.dfy`, `index_handler.dfy`: the three handlers and their
  properties.
- `variants.dfy` (`Variants`): where the handlers agree and where they differ,
  plus worked examples stated for all three handlers.

A thrown JavaScript exception is a `Throw` value of `Result`, and each handler's
`catch` block turns it into an answer. The model makes explicit when each
handler throws:

- every handler throws when the `fetch` itself fails;
- the worker throws in `response.json()` when the body is not JSON, whatever
  the status;
- the worker throws on `data.message` when a non-2xx body other than a 429 is
  `null`, and on `data.msg` when a 2xx body is `null`;
- the worker throws on `message.includes` when `message` is a number, a boolean
  or an object;
- the raw Vercel handler throws on `data.message` when a non-2xx body other than
  a 429 is `null` (`api/download.ts:52` and `:63`);
- the Hono handler throws on `data.code` when a 2xx body is `null`, and on
  `author.unique_id` when `author` is `null`, because `typeof null === 'object'`;
- every handler throws where it prints or converts a value that cannot be
  printed (`String()`, `Number()` or a template literal): a JSON object with a
  `toString` key of its own, whose `toString` is then not a function, or an
  array holding such a value at any depth. This is `JsValues.PrintThrows`. It
  reaches the printed success fields and the failure message built from
  `message` (or `msg` in the Hono handler).

JavaScript stringification is modelled wherever a handler prints:

- an author object in the flat layout becomes `"[object Object]"`, unless it
  has its own `toString`;
- an author object with neither `unique_id` nor `nickname` becomes `"undefined"`
  in the Hono handler;
- an array prints as its elements joined with commas, `null` as the empty
  string.

Every handler is a function, so normalising the same reply twice gives the same
answer by construction.

Behaviours of the code worth noting:

- The worker and the raw Vercel handler answer a Shape A reply with no truthy
  `play`/`wmplay`/`hdplay` as a success with an empty `video_url`. Only the
  Hono handler refuses a missing or empty download URL.
- All three handlers return a negative `duration` unchanged.
- A 2xx reply whose body is not JSON is a 502 only in the Hono handler. The
  worker answers 500 and the raw Vercel handler answers 400.
- The handlers are modelled one by one, as written.

## Model

| member | source | states |
|---|---|---|
| `JsValues.OrChain` | src/worker/index.ts:77 | a chain `a or b or c` of JavaScript OR operators evaluates to the first truthy operand before which none is truthy, and to the last operand when none is truthy |
| `JsValues.OrDefault` | src/worker/index.ts:77-81 | an OR chain ending in a literal (`''`, `'Unknown'`) gives the first truthy candidate, else the literal |
| `JsValues.IncludesFinds` | src/worker/index.ts:43 | `message.includes(s)` is true for any string that has `s` somewhere inside it and for any array holding `s` at any position, and false for a string shorter than `s` |
| `JsValues.PrintingThrows` | src/worker/index.ts:78-80 | `String()` and `Number()` print scalars as themselves, an object as "[object Object]" unless it has its own `toString`, on which both throw, and an array holding a value that cannot be printed throws too |
| `JsValues.NumberOfPrintedInt` | src/worker/index.ts:80 | `Number(String(n)) === n`: a duration sent as the decimal text of an integer is read back as that integer |
| `RapidApiShapes.Normalise` | src/worker/index.ts:71-101 | a 2xx body succeeds with 200 exactly when it is Shape A or Shape B and the values it prints can be printed, is otherwise a 400, and throws exactly when the body is `null` or a value to print cannot be printed |
| `RapidApiShapes.ShapeAWins` | src/worker/index.ts:71-84 | a body matching both layouts is read as Shape A, from `data.data` |
| `RapidApiShapes.ShapeAVideoUrl` | src/worker/index.ts:77 | `video_url` is the first truthy of `play`, `wmplay`, `hdplay`, else `''`, passed on unprinted; Shape A builds its details exactly when its printed values can be printed |
| `RapidApiShapes.ShapeATitle` | src/worker/index.ts:78 | `title` is `String()` of the first truthy of `title`, `desc`, else "TikTok Video"; a chosen value that cannot be printed makes Shape A throw |
| `RapidApiShapes.ShapeAAuthor` | src/worker/index.ts:79 | `author` is `String()` of the first truthy of `author.unique_id`, `author.nickname`, `username`, else "Unknown"; a non-object `author` is never used, and a chosen value that cannot be printed makes Shape A throw |
| `RapidApiShapes.ShapeADuration` | src/worker/index.ts:80 | `duration` is the number sent, the value of a decimal string, 1 or 0 for a boolean, and 0 when missing, `null`, a printable object or a string that is not a decimal integer; a value that cannot be printed makes `Number()` throw |
| `RapidApiShapes.ShapeAThumbnail` | src/worker/index.ts:81 | `thumbnail` is the first truthy of `cover`, `origin_cover`, `dynamic_cover`, else `''` |
| `RapidApiShapes.ShapeBVideoUrl` | src/worker/index.ts:84-89 | flat `video_url` is `video_url`, else `play`, and it is truthy whenever Shape B matched; Shape B builds its details exactly when its printed values can be printed |
| `RapidApiShapes.ShapeBAuthor` | src/worker/index.ts:91 | flat `author` is `String()` of the first truthy of `author`, `username`, else 'Unknown', so an author object becomes "[object Object]", and one with its own `toString` makes Shape B throw |
| `RapidApiShapes.ShapeBThumbnail` | src/worker/index.ts:93 | flat `thumbnail` is the first truthy of `thumbnail`, `cover`, `origin_cover`, else `''` |
| `RapidApiShapes.NoShape` | src/worker/index.ts:96-101 | a non-null body matching neither layout is a 400 carrying `msg` when truthy, else the default message |
| `Worker.Handle` | src/worker/index.ts:15-109 | the worker sets no header of its own, and every success has status 200 |
| `Worker.KeyCheckedFirst` | src/worker/index.ts:19-24 | a missing or empty key gives the 500 configuration error, whatever the upstream reply; no upstream answer is needed |
| `Worker.UnreadableReplyIsInternalError` | src/worker/index.ts:38-40 | a failed request, or a body that is not JSON (with any status), ends in the catch-all 500 "Internal server error" |
| `Worker.Forbidden` | src/worker/index.ts:42-53 | a 403 is the subscription error when `message` contains "not subscribed" (string or array), and the invalid-key error when it is falsy or does not contain it; a `null` body or a truthy message without `includes` is a 500 |
| `Worker.RateLimited` | src/worker/index.ts:54-58 | a 429 is the rate-limit error, whatever the body |
| `Worker.OtherFailureStatus` | src/worker/index.ts:59-64 | other failure statuses are kept, with "Error de la API: " followed by `message` when truthy, else the status text; a `null` body or a `message` that cannot be printed is the catch-all 500 |
| `Worker.SuccessfulReply` | src/worker/index.ts:71-95 | a 2xx reply succeeds exactly on Shape A or Shape B whose printed values can be printed; Shape A is read from `data.data` and wins over Shape B; a value that cannot be printed gives the catch-all 500 |
| `Worker.Unrecognised` | src/worker/index.ts:96-101 | a 2xx reply of neither shape is a 400 with `msg` or the default, and a 500 when the body is `null` |
| `Worker.SuccessIff` | src/worker/index.ts:19-95 | the worker succeeds exactly when the key is set and a 2xx JSON reply has one of the two layouts with printable title, author and duration |
| `VercelDownload.BodyAccepted` | api/download.ts:5-24 | the request body passes the schema exactly when it is an object passing it, or a string that parses to such an object |
| `VercelDownload.NonObjectBodyRejected` | api/download.ts:5-24 | a POST whose body is missing, `null`, a boolean, a number or an array gets the schema 400, whatever the key and the upstream |
| `VercelDownload.Normalise200` | api/download.ts:66-93 | a 2xx body throws exactly when the chosen layout has a value that cannot be printed, and otherwise succeeds exactly when it is Shape A or Shape B |
| `VercelDownload.Handle` | api/download.ts:14-97 | every success has status 200, and the only header set is `Allow: POST`, exactly on a non-POST request |
| `VercelDownload.MethodCheckedFirst` | api/download.ts:15-18 | a method other than POST is a 405 with `Allow: POST`, whatever the body, the key and the upstream reply |
| `VercelDownload.RequestChecksFirst` | api/download.ts:21-35 | a body failing the schema is a 400; otherwise a missing key is a 500; neither answer depends on the upstream reply |
| `VercelDownload.UnparsableRequestRejected` | api/download.ts:5-24 | a missing body, or a string body the parser rejects, is read as `{}` and fails the schema (400) |
| `VercelDownload.NonJsonReplyIsEmptyObject` | api/download.ts:48-93 | a reply that is not JSON is read as `{}`: 2xx gives the default 400, 403 the invalid-key error, 429 the rate-limit error, and other statuses carry the status text; a failed request is a 500 |
| `VercelDownload.Forbidden` | api/download.ts:51-59 | a 403 is the subscription error only when `message` is a string containing "not subscribed", and otherwise the invalid-key error; a `null` body is a 500 |
| `VercelDownload.OtherFailureStatus` | api/download.ts:60-63 | 429 maps to 429; other failure statuses are kept, with `message` when truthy, else the status text; a `null` body or a `message` that cannot be printed is the 500 |
| `VercelDownload.SuccessfulReply` | api/download.ts:66-93 | a 2xx reply is a 200 from Shape A, else from Shape B, or the 500 when a value to print cannot be printed, else a 400 with `data?.msg` or the default, so a `null` body gets the default message |
| `VercelIndex.Catch` | api/index.ts:75-81 | the catch block gives 400 exactly for a ZodError, with "Petición inválida: " followed by the first issue's message ("undefined" when there is none), and the fatal 500 with its fixed message for everything else |
| `VercelIndex.Handle` | api/index.ts:12-82 | the handler sets no header of its own, and every success has status 200 |
| `VercelIndex.KeyCheckedFirst` | api/index.ts:15-20 | a missing key is a 500, whatever the upstream reply |
| `VercelIndex.NonJsonReply` | api/index.ts:33-41 | a body that is not JSON is a 502 naming the upstream status, for every status, including non-2xx ones; a failed request is the fatal 500 |
| `VercelIndex.UpstreamFailure` | api/index.ts:43-46 | a non-2xx JSON reply keeps its status, with "Error de la API externa: " followed by `message`, else `msg`, else the default; there is no 403 or 429 case; a chosen message that cannot be printed is the fatal 500 |
| `VercelIndex.NotProcessed` | api/index.ts:48-50 | a 2xx reply with `code !== 0` or falsy `data` is a 400 with `msg` or the default; a `null` body is the fatal 500 |
| `VercelIndex.SuccessIff` | api/index.ts:48-73 | success exactly when `code` is 0, `data` is truthy, the first truthy of `play`/`wmplay`/`hdplay` is a non-empty string, the author is not `null` and title, author name, duration and thumbnail can be printed; a success never has an empty `video_url` |
| `VercelIndex.NoDownloadUrl` | api/index.ts:52-57 | without a usable download URL the answer is a 404; a truthy non-string `play` hides a good `wmplay` |
| `VercelIndex.AuthorNameCases` | api/index.ts:59-60 | an object or array author gives `unique_id` when truthy, else `nickname`, as `String()` prints it ("undefined" when it has neither, a throw when the chosen one cannot be printed), a string gives itself, anything else gives "Autor Desconocido", and `null` throws |
| `VercelIndex.SuccessFields` | api/index.ts:61-71 | on success, `title` is the first truthy of `title`, `desc`, else "Video de TikTok"; `author` is the printed author name; `thumbnail` is the first truthy cover, printed, else `''`; `duration` is `Number(duration)`, or 0 when that is NaN or 0 |
| `VercelIndex.NullAuthor` | api/index.ts:59-60 | a wrapped reply with a usable download URL and a `null` author is the fatal 500, since `typeof null === 'object'` |
| `VercelIndex.ZodBranchUnreachable` | api/index.ts:75-80 | nothing the handler throws is a ZodError, so the 400 branch of the catch block is never taken and every throw is the fatal 500 |
| `Variants.WorkerAgreesWithDownload` | api/download.ts:50-93 | for a non-null JSON reply the worker and the raw Vercel handler give the same answer, except for a 403 whose `message` is truthy and not a string |
| `Variants.ForbiddenArrayMessage` | api/download.ts:52 | a 403 `message` of `["not subscribed"]` is the subscription error for the worker and the invalid-key error for the raw handler; a numeric message is a 500 for the worker only |
| `Variants.NonJsonSuccess` | api/index.ts:33-41 | a 2xx body that is not JSON gives 500 (worker), 400 (raw Vercel) and 502 "(código: 200)" (Hono) |
| `Variants.NullSuccess` | api/download.ts:93 | a 2xx `null` body gives 500 in the worker and in the Hono handler, and the default 400 in the raw Vercel handler |
| `Variants.IndexAgreesWithWorker` | api/index.ts:52-73 | on a well-formed wrapped reply (string `play`, `title`, `cover` and `author.unique_id`) the Hono handler gives the same answer as the worker, except that a duration that cannot be printed is a 500 in both, each with its own message |
| `Variants.WrappedReplyAllHandlers` | src/worker/index.ts:71-83 | `{"code":0,"data":{"play":…,"title":"Hi","author":{"unique_id":"u1"},"duration":12,"cover":…}}` gives the same details from all three handlers |
| `Variants.RateLimitedAllHandlers` | src/worker/index.ts:54-58 | a 429 gives the rate-limit error in the worker and the raw Vercel handler, and "Error de la API externa: " with the upstream message in the Hono handler |
| `Variants.NoVideoAllHandlers` | api/index.ts:48-50 | a 2xx `{"code":1,"msg":"no video"}` is a 400 "no video" from every handler |

## Left out

- The outbound `fetch` (URL encoding, the RapidAPI endpoint and its two headers). `encodeURIComponent` throws a URIError on a URL holding a lone surrogate, which the route's `z.string().trim().min(1)` lets through. Dafny strings hold Unicode scalar values, so they cannot express that URL. That throw is not a ZodError, so every handler answers it with the same 500 as `Unreachable`. Its outcome is the `Reply` input, and a network timeout is `Unreachable`. A failure while reading the body is `Received(status, statusText, None)` in the raw Vercel handler, whose `.catch(() => ({}))` treats it like a body that is not JSON, and in the worker, where both throw from `response.json()`. In the Hono handler it is `Unreachable`, because a failed `response.text()` throws into the fatal 500 rather than reaching the 502.
- Hono routing, `handle()`, CORS middleware, the Vercel `res` calls (except the status, the `Allow` header and the JSON body), `console.error` logging, and the health endpoints. The worker's health endpoint reads the wall clock.
- The route's schema validator in the worker and in the Hono handler (`zValidator`). It runs before the handler body, which only ever sees an accepted URL. Its own 400 answers are not modelled. `api/types.ts:4` requires a non-empty trimmed string.
- The Zod schema used by the raw Vercel handler (`z.string().url()`). It is an object whose `url` is a string passing the predicate `isUrl`, which is a parameter: the URL check itself is library code.
- `JSON.parse` of a string request body. It is the parameter `parseText`. Non-string primitive bodies are used as they are, because `JSON.parse` reads their printed form back to the same value. A body that is a `Buffer` is not modelled.
- Floating-point numbers. JSON numbers are integers. `Number(s)` on a string gives a value only for an optionally signed run of decimal digits, and the empty string gives 0. Surrounding whitespace, fractions, exponents, hexadecimal and `Infinity` all read as NaN, and so as 0.
- Precision loss for integers beyond 2^53.
- Property reads use only the fixed field names the handlers read, and no prototype property or array index has one of those names. The one own property that changes behaviour by shadowing the prototype is `toString`, which printing looks up; that is modelled by `JsValues.PrintThrows`.
- The serialisation of the envelope to bytes and the `Content-Type` header.
- Whether Hono or Vercel accept the upstream status passed through as the response status.
- The React front end (`src/react-app/**`) and `vite.config.ts`: UI and build configuration.
