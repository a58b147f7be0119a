/**
  What the three download handlers share: the upstream reply they interpret,
  the configured API key, and the `VideoData` envelope they answer with.
 */
module Gateway {
  import opened JsValues

  /** The outcome of the single upstream `fetch`: the request failed, or a
      reply arrived with a status, a status text and a body that is JSON
      (`Some`) or not (`None`). A body that cannot be read at all is `None`
      for the worker and the raw Vercel handler (both read it with
      `response.json()`), and `Unreachable` for the Hono handler (whose
      `response.text()` then throws). */
  datatype Reply =
    | Unreachable
    | Received(status: int, statusText: string, body: Option<Json>)

  /** `response.ok`. */
  predicate IsOk(status: int)
  {
    200 <= status <= 299
  }

  /** `RAPIDAPI_KEY` is set and not empty (the handlers test `!key`). */
  predicate KeyConfigured(key: Option<string>)
  {
    key.Some? && key.value != ""
  }

  /** The success payload. `video_url` and `thumbnail` are whatever value the
      upstream sent when a handler does not pass them through `String()`. */
  datatype Details = Details(videoUrl: Json, title: string, author: string, duration: int, thumbnail: Json)

  /** `VideoData`: `{success: true, data}` or `{success: false, error}`. The
      error is a string except where a handler passes the upstream `msg` on
      as it came. */
  datatype Envelope = Success(data: Details) | Failure(error: Json)

  /** An HTTP answer: status, the headers the handler sets itself, and the JSON body. */
  datatype Response = Response(status: int, headers: map<string, string>, body: Envelope)

  function Fail(status: int, message: string): Response
  {
    Response(status, map[], Failure(Str(message)))
  }

  function Succeed(d: Details): Response
  {
    Response(200, map[], Success(d))
  }
}
