/**
  The Vercel raw handler `api/download.ts`: method check, lenient body
  parsing, the request schema, the key check, one upstream call whose body is
  read leniently (`{}` when it is not JSON), failure-status mapping and the
  same Shape A / Shape B normalisation as the worker.
 */
module VercelDownload {
  import opened JsValues
  import opened Gateway
  import opened RapidApiShapes

  const MsgMethodNotAllowed := "Method Not Allowed"
  const MsgInvalidRequest := "Solicitud inválida: URL requerida"

  /** The parts of the incoming request the handler reads: `verb` is
      `req.method`, `body` is what the platform put in `req.body`
      (undefined when there was none). */
  datatype Request = Request(verb: string, body: JsVal)

  /** `parseBody`: an object or array body is used as it is; otherwise the
      body is passed to `JSON.parse`, which reads a string with the parser
      `parseText`, gives null, booleans and numbers back unchanged (they are
      read from their own printed form), and fails on undefined; a failure
      yields `{}`. It never throws. */
  function ParseBody(body: JsVal, parseText: string -> Option<Json>): (r: Json)
    ensures body.Some? && !body.value.Str? ==> r == body.value
    ensures body.Some? && body.value.Str? && parseText(body.value.s).Some? ==> r == parseText(body.value.s).value
    ensures body.Some? && body.value.Str? && parseText(body.value.s).None? ==> r == EmptyObject
    ensures body.None? ==> r == EmptyObject
  {
    match body
    case None => EmptyObject
    case Some(j) =>
      match j
      case Str(s) => (match parseText(s) case Some(parsed) => parsed case None => EmptyObject)
      case _ => j
  }

  /** `DownloadRequestSchema.safeParse(body).success`: an object whose `url`
      is a string accepted by the URL check `isUrl`. */
  predicate SchemaAccepts(body: Json, isUrl: string -> bool)
  {
    body.Obj? && Member(body, Url).Some? && Member(body, Url).value.Str? && isUrl(Member(body, Url).value.s)
  }

  /** The answer to a non-2xx reply; `data` is `{}` when the body was not JSON. */
  function MapFailureStatus(status: int, statusText: string, data: Json): Result<Response>
  {
    if status == 403 then
      var message :- Get(Some(data), Message);
      var subscribed := Truthy(message) && message.value.Str? && Contains(message.value.s, NotSubscribed);
      Ok(Fail(403, if subscribed then MsgNotSubscribed else MsgInvalidKey))
    else if status == 429 then Ok(Fail(429, MsgRateLimited))
    else
      var message :- Get(Some(data), Message);
      var text :- StringOf(Or(message, Some(Str(statusText))));
      Ok(Fail(status, ApiErrorPrefix + text))
  }

  /** The answer to a 2xx reply. Unlike the worker, the fall-through reads
      `data?.msg`, so a `null` body does not throw; building the details
      still throws on a value that cannot be printed. */
  function Normalise200(data: Json): (r: Result<Response>)
    ensures r.Throw? <==>
      || (IsShapeA(data) && !ShapeAPrintable(Member(data, Data).value))
      || (!IsShapeA(data) && IsShapeB(data) && !ShapeBPrintable(data))
    ensures r.Ok? ==> (r.value.body.Success? <==> IsShapeA(data) || IsShapeB(data))
  {
    if IsShapeA(data) then
      var details :- ShapeA(Member(data, Data).value);
      Ok(Succeed(details))
    else if IsShapeB(data) then
      var details :- ShapeB(data);
      Ok(Succeed(details))
    else Ok(Response(400, map[], Failure(OrDefault([GetOpt(Some(data), Msg)], Str(MsgNoVideo)))))
  }

  /** The body of the `try` block. */
  function Run(req: Request, parseText: string -> Option<Json>, isUrl: string -> bool,
               key: Option<string>, reply: Reply): Result<Response>
  {
    var body := ParseBody(req.body, parseText);
    if !SchemaAccepts(body, isUrl) then Ok(Fail(400, MsgInvalidRequest))
    else if !KeyConfigured(key) then Ok(Fail(500, MsgKeyMissing))
    else
      match reply
      case Unreachable => Throw(NetworkError)
      case Received(status, statusText, parsed) =>
        var data := if parsed.Some? then parsed.value else EmptyObject;
        if !IsOk(status) then MapFailureStatus(status, statusText, data)
        else Normalise200(data)
  }

  /** The handler: anything but POST is refused before the body is read, and
      whatever the `try` block throws becomes a 500. */
  function Handle(req: Request, parseText: string -> Option<Json>, isUrl: string -> bool,
                  key: Option<string>, reply: Reply): (r: Response)
    ensures r.body.Success? ==> r.status == 200
    ensures r.headers == if req.verb != "POST" then map["Allow" := "POST"] else map[]
  {
    if req.verb != "POST" then Response(405, map["Allow" := "POST"], Failure(Str(MsgMethodNotAllowed)))
    else
      match Run(req, parseText, isUrl, key, reply)
      case Ok(response) => response
      case Throw(_) => Fail(500, MsgInternal)
  }

  // ---------------------------------------------------------------------
  // Properties

  /** Any method but POST is a 405 with `Allow: POST`, whatever the body,
      the key or the upstream. */
  lemma MethodCheckedFirst(req: Request, parseText: string -> Option<Json>, isUrl: string -> bool,
                           key: Option<string>, reply: Reply, other: Reply)
    requires req.verb != "POST"
    ensures Handle(req, parseText, isUrl, key, reply)
         == Handle(Request(req.verb, None), parseText, isUrl, None, other)
         == Response(405, map["Allow" := "POST"], Failure(Str(MsgMethodNotAllowed)))
  {
  }

  /** The schema is checked before the key, and both before the upstream is
      asked: their answers do not depend on the reply. */
  lemma RequestChecksFirst(req: Request, parseText: string -> Option<Json>, isUrl: string -> bool,
                           key: Option<string>, reply: Reply, other: Reply)
    requires req.verb == "POST"
    ensures var body := ParseBody(req.body, parseText);
      var r := Handle(req, parseText, isUrl, key, reply);
      && (!SchemaAccepts(body, isUrl) ==> r == Fail(400, MsgInvalidRequest))
      && (SchemaAccepts(body, isUrl) && !KeyConfigured(key) ==> r == Fail(500, MsgKeyMissing))
      && (!SchemaAccepts(body, isUrl) || !KeyConfigured(key) ==> r == Handle(req, parseText, isUrl, key, other))
  {
  }

  /** A body that is missing, or a string the parser rejects, is read as `{}`
      and so fails the schema. */
  lemma UnparsableRequestRejected(verb: string, s: string, parseText: string -> Option<Json>,
                                  isUrl: string -> bool, key: Option<string>, reply: Reply)
    requires verb == "POST" && parseText(s).None?
    ensures Handle(Request(verb, Some(Str(s))), parseText, isUrl, key, reply) == Fail(400, MsgInvalidRequest)
    ensures Handle(Request(verb, None), parseText, isUrl, key, reply) == Fail(400, MsgInvalidRequest)
  {
  }

  /** Which request bodies get past the schema: an object that passes it
      itself, or a string that parses to such an object. Every other body,
      and a missing one, is refused. */
  lemma BodyAccepted(body: JsVal, parseText: string -> Option<Json>, isUrl: string -> bool)
    ensures SchemaAccepts(ParseBody(body, parseText), isUrl) <==>
      || (body.Some? && body.value.Obj? && SchemaAccepts(body.value, isUrl))
      || (body.Some? && body.value.Str? && parseText(body.value.s).Some?
          && SchemaAccepts(parseText(body.value.s).value, isUrl))
  {
  }

  /** A POST whose body is missing, `null`, a boolean, a number or an array
      is answered with the schema 400, whatever the key and the upstream. */
  lemma NonObjectBodyRejected(body: JsVal, parseText: string -> Option<Json>, isUrl: string -> bool,
                              key: Option<string>, reply: Reply)
    requires body.None? || body.value.Null? || body.value.Bool? || body.value.Num? || body.value.Arr?
    ensures Handle(Request("POST", body), parseText, isUrl, key, reply) == Fail(400, MsgInvalidRequest)
  {
    BodyAccepted(body, parseText, isUrl);
  }

  /** A reply body that is not JSON is read as `{}`: a 2xx reply then ends
      in the default 400, a 403 in the invalid-key error, and any other
      failure carries the status text. A failed request is the 500. */
  lemma NonJsonReplyIsEmptyObject(req: Request, parseText: string -> Option<Json>, isUrl: string -> bool,
                                  key: Option<string>, status: int, statusText: string)
    requires req.verb == "POST" && SchemaAccepts(ParseBody(req.body, parseText), isUrl) && KeyConfigured(key)
    ensures var r := Handle(req, parseText, isUrl, key, Received(status, statusText, None));
      && (IsOk(status) ==> r == Fail(400, MsgNoVideo))
      && (status == 403 ==> r == Fail(403, MsgInvalidKey))
      && (status == 429 ==> r == Fail(429, MsgRateLimited))
      && (!IsOk(status) && status != 403 && status != 429 ==> r == Fail(status, ApiErrorPrefix + statusText))
    ensures Handle(req, parseText, isUrl, key, Unreachable) == Fail(500, MsgInternal)
  {
    var vs: seq<JsVal> := [None];
    assert NoneTruthyBefore(vs, 1);
  }

  /** A 403 is the subscription error only when `message` is a string that
      contains "not subscribed"; every other 403 with a non-null body is the
      invalid-key error. */
  lemma Forbidden(req: Request, parseText: string -> Option<Json>, isUrl: string -> bool,
                  key: Option<string>, statusText: string, data: Json)
    requires req.verb == "POST" && SchemaAccepts(ParseBody(req.body, parseText), isUrl) && KeyConfigured(key)
    ensures var r := Handle(req, parseText, isUrl, key, Received(403, statusText, Some(data)));
      && (data == Null ==> r == Fail(500, MsgInternal))
      && (data != Null ==>
            var m := Member(data, Message);
            r == Fail(403, if m.Some? && m.value.Str? && Contains(m.value.s, NotSubscribed)
                           then MsgNotSubscribed else MsgInvalidKey))
  {
  }

  /** 429 maps to 429; other failure statuses are kept, with `message` when
      truthy and the status text otherwise; a `message` that cannot be
      printed makes the template literal throw. */
  lemma OtherFailureStatus(req: Request, parseText: string -> Option<Json>, isUrl: string -> bool,
                           key: Option<string>, status: int, statusText: string, data: Json)
    requires req.verb == "POST" && SchemaAccepts(ParseBody(req.body, parseText), isUrl) && KeyConfigured(key)
    requires !IsOk(status) && status != 403
    ensures var r := Handle(req, parseText, isUrl, key, Received(status, statusText, Some(data)));
      && (status == 429 ==> r == Fail(429, MsgRateLimited))
      && (status != 429 && data == Null ==> r == Fail(500, MsgInternal))
      && (status != 429 && data != Null ==>
            var m := Member(data, Message);
            r == if Truthy(m) && PrintThrows(m.value) then Fail(500, MsgInternal)
                 else Fail(status, ApiErrorPrefix + if Truthy(m) then ToJsString(m.value) else statusText))
  {
  }

  /** A 2xx reply is answered with status 200 from Shape A, else Shape B,
      or with the 500 when a value to print cannot be printed; otherwise 400
      with `data?.msg` or the default, so a `null` body gets the default
      message instead of a 500. */
  lemma SuccessfulReply(req: Request, parseText: string -> Option<Json>, isUrl: string -> bool,
                        key: Option<string>, status: int, statusText: string, data: Json)
    requires req.verb == "POST" && SchemaAccepts(ParseBody(req.body, parseText), isUrl) && KeyConfigured(key)
    requires IsOk(status)
    ensures var r := Handle(req, parseText, isUrl, key, Received(status, statusText, Some(data)));
      && (IsShapeA(data) ==>
            var a := ShapeA(Member(data, Data).value);
            r == if a.Ok? then Succeed(a.value) else Fail(500, MsgInternal))
      && (!IsShapeA(data) && IsShapeB(data) ==>
            var b := ShapeB(data);
            r == if b.Ok? then Succeed(b.value) else Fail(500, MsgInternal))
      && (!IsShapeA(data) && !IsShapeB(data) ==>
            var msg := if data == Null then None else Member(data, Msg);
            r == Response(400, map[], Failure(if Truthy(msg) then msg.value else Str(MsgNoVideo))))
  {
    var msg := if data == Null then None else Member(data, Msg);
    var vs := [msg];
    assert NoneTruthyBefore(vs, 0);
    if !Truthy(msg) { assert NoneTruthyBefore(vs, 1); }
  }
}
