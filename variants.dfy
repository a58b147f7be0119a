/**
  The three handlers side by side: where they agree, where they part, and
  worked examples stated for all three handlers.
 */
module Variants {
  import opened JsValues
  import opened Gateway
  import opened RapidApiShapes
  import Worker
  import VercelDownload
  import VercelIndex

  /** A POST whose body passes the request schema. */
  predicate Admitted(req: VercelDownload.Request, parseText: string -> Option<Json>, isUrl: string -> bool)
  {
    req.verb == "POST" && VercelDownload.SchemaAccepts(VercelDownload.ParseBody(req.body, parseText), isUrl)
  }

  /** On an admitted request and a JSON reply that is not `null`, the worker
      and the raw Vercel handler answer alike, except for a 403 whose
      `message` is truthy but not a string (the worker calls `includes` on
      it, the raw handler checks `typeof` first). */
  lemma WorkerAgreesWithDownload(req: VercelDownload.Request, parseText: string -> Option<Json>,
                                 isUrl: string -> bool, key: Option<string>,
                                 status: int, statusText: string, data: Json)
    requires Admitted(req, parseText, isUrl) && data != Null
    requires status == 403 ==> !Truthy(Member(data, Message)) || Member(data, Message).value.Str?
    ensures Worker.Handle(key, Received(status, statusText, Some(data)))
         == VercelDownload.Handle(req, parseText, isUrl, key, Received(status, statusText, Some(data)))
  {
    if KeyConfigured(key) && IsOk(status) && !IsShapeA(data) && !IsShapeB(data) {
      var vs := [Member(data, Msg)];
      assert NoneTruthyBefore(vs, 0);
      if !Truthy(vs[0]) { assert NoneTruthyBefore(vs, 1); }
    }
  }

  /** The 403 where they part: an array `message` holding "not subscribed"
      is the subscription error for the worker and the invalid-key error for
      the raw handler; a numeric `message` is a 500 for the worker. */
  lemma ForbiddenArrayMessage(req: VercelDownload.Request, parseText: string -> Option<Json>,
                              isUrl: string -> bool, key: Option<string>)
    requires Admitted(req, parseText, isUrl) && KeyConfigured(key)
    ensures var listed := Obj(map["message" := Arr([Str(NotSubscribed)])]);
      && Worker.Handle(key, Received(403, "Forbidden", Some(listed))) == Fail(403, MsgNotSubscribed)
      && VercelDownload.Handle(req, parseText, isUrl, key, Received(403, "Forbidden", Some(listed))) == Fail(403, MsgInvalidKey)
    ensures var numeric := Obj(map["message" := Num(1)]);
      && Worker.Handle(key, Received(403, "Forbidden", Some(numeric))) == Fail(500, MsgInternal)
      && VercelDownload.Handle(req, parseText, isUrl, key, Received(403, "Forbidden", Some(numeric))) == Fail(403, MsgInvalidKey)
  {
    var listed := Obj(map["message" := Arr([Str(NotSubscribed)])]);
    assert Member(listed, Message) == Some(Arr([Str(NotSubscribed)]));
    var numeric := Obj(map["message" := Num(1)]);
    assert Member(numeric, Message) == Some(Num(1));
  }

  /** A 2xx reply whose body is not JSON: the worker throws (500), the raw
      handler reads `{}` (400, default message) and the Hono handler reports
      a malformed reply (502 naming the status). */
  lemma NonJsonSuccess(req: VercelDownload.Request, parseText: string -> Option<Json>,
                       isUrl: string -> bool, key: Option<string>)
    requires Admitted(req, parseText, isUrl) && KeyConfigured(key)
    ensures Worker.Handle(key, Received(200, "OK", None)) == Fail(500, MsgInternal)
    ensures VercelDownload.Handle(req, parseText, isUrl, key, Received(200, "OK", None)) == Fail(400, MsgNoVideo)
    ensures VercelIndex.Handle(key, Received(200, "OK", None)) == Fail(502, VercelIndex.BadJsonPrefix + "200)")
  {
    VercelDownload.NonJsonReplyIsEmptyObject(req, parseText, isUrl, key, 200, "OK");
    assert IntToString(200) == "200" by {
      assert NatToString(2) == "2";
      assert NatToString(20) == "20";
    }
    assert VercelIndex.BadJsonPrefix + "200" + ")" == VercelIndex.BadJsonPrefix + "200)";
  }

  /** A 2xx reply whose body is `null`: the worker and the Hono handler
      throw (500 each, with their own message), the raw handler answers
      400 with the default message. */
  lemma NullSuccess(req: VercelDownload.Request, parseText: string -> Option<Json>,
                    isUrl: string -> bool, key: Option<string>)
    requires Admitted(req, parseText, isUrl) && KeyConfigured(key)
    ensures Worker.Handle(key, Received(200, "OK", Some(Null))) == Fail(500, MsgInternal)
    ensures VercelDownload.Handle(req, parseText, isUrl, key, Received(200, "OK", Some(Null))) == Fail(400, MsgNoVideo)
    ensures VercelIndex.Handle(key, Received(200, "OK", Some(Null))) == Fail(500, VercelIndex.MsgFatal)
  {
    VercelDownload.SuccessfulReply(req, parseText, isUrl, key, 200, "OK", Null);
  }

  /** On a well-formed wrapped reply (string `play`, `title` and `cover`, an
      author object with a string `unique_id`) the worker and the Hono
      handler give the same success, unless the duration cannot be printed:
      then both throw, and each answers 500 with its own message. */
  lemma IndexAgreesWithWorker(key: Option<string>, status: int, statusText: string, data: Json)
    requires KeyConfigured(key) && IsOk(status)
    requires data.Obj? && Member(data, Code) == Some(Num(0)) && Member(data, Data).Some?
    requires var vd := Member(data, Data).value;
      && vd.Obj?
      && IsStringField(vd, Play) && IsStringField(vd, Title) && IsStringField(vd, Cover)
      && Member(vd, Author).Some? && Member(vd, Author).value.Obj?
      && IsStringField(Member(vd, Author).value, UniqueId)
    ensures var d := Member(Member(data, Data).value, Duration);
      var reply := Received(status, statusText, Some(data));
      && (!(d.Some? && PrintThrows(d.value)) ==> Worker.Handle(key, reply) == VercelIndex.Handle(key, reply))
      && (d.Some? && PrintThrows(d.value) ==>
            && Worker.Handle(key, reply) == Fail(500, MsgInternal)
            && VercelIndex.Handle(key, reply) == Fail(500, VercelIndex.MsgFatal))
  {
    var reply := Received(status, statusText, Some(data));
    var vd := Member(data, Data).value;
    var d := Member(vd, Duration);
    assert IsShapeA(data);
    Worker.SuccessfulReply(key, status, statusText, data);
    ShapeAVideoUrl(vd);
    ShapeATitle(vd);
    ShapeAAuthor(vd);
    ShapeAThumbnail(vd);
    var vs := [Member(vd, Play), Member(vd, WmPlay), Member(vd, HdPlay)];
    assert NoneTruthyBefore(vs, 0);
    assert VercelIndex.VideoUrlOf(vd) == Member(vd, Play);
    VercelIndex.AuthorNameCases(Member(vd, Author));
    var ts := [Member(vd, Title), Member(vd, Desc)];
    assert NoneTruthyBefore(ts, 0);
    var cs := [Member(vd, Cover), Member(vd, OriginCover), Member(vd, DynamicCover)];
    assert NoneTruthyBefore(cs, 0);
    var a := Member(vd, Author);
    var us := [GetOpt(a, UniqueId), GetOpt(a, Nickname), Member(vd, Username)];
    assert NoneTruthyBefore(us, 0);
    if d.Some? && PrintThrows(d.value) {
      assert !ShapeAPrintable(vd);
      assert !VercelIndex.Printable(vd);
      VercelIndex.SuccessIff(key, reply);
      assert VercelIndex.Run(key, reply).Throw?;
      VercelIndex.ZodBranchUnreachable(key, reply);
    } else {
      assert ShapeAPrintable(vd);
      var w := ShapeA(vd);
      assert Worker.Handle(key, reply) == Succeed(w.value);
      assert VercelIndex.Printable(vd);
      VercelIndex.SuccessIff(key, reply);
      var i := VercelIndex.Handle(key, reply);
      assert i.body.Success?;
      VercelIndex.SuccessFields(key, status, statusText, data);
      assert i.body.data.author == w.value.author;
      assert i.body.data == w.value;
    }
  }

  /** `v.f` is a non-empty string. */
  predicate IsStringField(v: Json, f: Field)
    requires v != Null
  {
    Member(v, f).Some? && Member(v, f).value.Str? && Member(v, f).value.s != ""
  }

  // ---------------------------------------------------------------------
  // Worked examples

  const WrappedVideo: Json := Obj(map[
    "play" := Str("https://cdn/x.mp4"),
    "title" := Str("Hi"),
    "author" := Obj(map["unique_id" := Str("u1")]),
    "duration" := Num(12),
    "cover" := Str("https://cdn/c.jpg")
  ])

  const WrappedReply: Json := Obj(map["code" := Num(0), "data" := WrappedVideo])

  const WrappedDetails := Details(Str("https://cdn/x.mp4"), "Hi", "u1", 12, Str("https://cdn/c.jpg"))

  lemma WrappedReplyFields()
    ensures Member(WrappedReply, Code) == Some(Num(0))
    ensures Member(WrappedReply, Data) == Some(WrappedVideo)
    ensures Member(WrappedVideo, Play) == Some(Str("https://cdn/x.mp4"))
    ensures Member(WrappedVideo, Title) == Some(Str("Hi"))
    ensures Member(WrappedVideo, Cover) == Some(Str("https://cdn/c.jpg"))
    ensures Member(WrappedVideo, Duration) == Some(Num(12))
    ensures Member(WrappedVideo, Author) == Some(Obj(map["unique_id" := Str("u1")]))
    ensures Member(Obj(map["unique_id" := Str("u1")]), UniqueId) == Some(Str("u1"))
  {
  }

  lemma WrappedReplyShapeA()
    ensures ShapeA(WrappedVideo) == Ok(WrappedDetails)
  {
    var vd := WrappedVideo;
    WrappedReplyFields();
    ShapeAVideoUrl(vd);
    ShapeATitle(vd);
    ShapeAAuthor(vd);
    ShapeAThumbnail(vd);
    ShapeADuration(vd, 12);
  }

  /** A wrapped reply with every field present: all three handlers return
      the same details. */
  lemma WrappedReplyAllHandlers(req: VercelDownload.Request, parseText: string -> Option<Json>,
                                isUrl: string -> bool, key: Option<string>)
    requires Admitted(req, parseText, isUrl) && KeyConfigured(key)
    ensures Worker.Handle(key, Received(200, "OK", Some(WrappedReply))) == Succeed(WrappedDetails)
    ensures VercelDownload.Handle(req, parseText, isUrl, key, Received(200, "OK", Some(WrappedReply)))
         == Succeed(WrappedDetails)
    ensures VercelIndex.Handle(key, Received(200, "OK", Some(WrappedReply))) == Succeed(WrappedDetails)
  {
    WrappedReplyWorker(key);
    WorkerAgreesWithDownload(req, parseText, isUrl, key, 200, "OK", WrappedReply);
    WrappedReplyIndex(key);
  }

  lemma WrappedReplyWorker(key: Option<string>)
    requires KeyConfigured(key)
    ensures Worker.Handle(key, Received(200, "OK", Some(WrappedReply))) == Succeed(WrappedDetails)
  {
    var data := WrappedReply;
    WrappedReplyFields();
    WrappedReplyShapeA();
    assert Member(data, Data) == Some(WrappedVideo);
    assert Truthy(Member(data, Data));
    assert IsShapeA(data);
    Worker.SuccessfulReply(key, 200, "OK", data);
    assert Worker.Handle(key, Received(200, "OK", Some(data))) == Succeed(ShapeA(WrappedVideo).value);
  }

  lemma WrappedReplyIndex(key: Option<string>)
    requires KeyConfigured(key)
    ensures VercelIndex.Handle(key, Received(200, "OK", Some(WrappedReply))) == Succeed(WrappedDetails)
  {
    WrappedReplyFields();
    var vd := WrappedVideo;
    assert IsStringField(vd, Play) && IsStringField(vd, Title) && IsStringField(vd, Cover);
    assert IsStringField(Member(vd, Author).value, UniqueId);
    IndexAgreesWithWorker(key, 200, "OK", WrappedReply);
    WrappedReplyWorker(key);
  }

  /** A 429: the worker and the raw handler give their rate-limit error; the
      Hono handler keeps the status and passes the upstream message on. */
  lemma RateLimitedAllHandlers(req: VercelDownload.Request, parseText: string -> Option<Json>,
                               isUrl: string -> bool, key: Option<string>)
    requires Admitted(req, parseText, isUrl) && KeyConfigured(key)
    ensures var body := Obj(map["message" := Str("Too many requests")]);
      && Worker.Handle(key, Received(429, "Too Many Requests", Some(body))) == Fail(429, MsgRateLimited)
      && VercelDownload.Handle(req, parseText, isUrl, key, Received(429, "Too Many Requests", Some(body)))
           == Fail(429, MsgRateLimited)
      && VercelIndex.Handle(key, Received(429, "Too Many Requests", Some(body)))
           == Fail(429, VercelIndex.ApiErrorPrefix + "Too many requests")
  {
    var body := Obj(map["message" := Str("Too many requests")]);
    VercelIndex.UpstreamFailure(key, 429, "Too Many Requests", body);
    assert GetOpt(Some(body), Message) == Some(Str("Too many requests"));
  }

  /** A 2xx reply `{"code":1,"msg":"no video"}` is a 400 carrying "no video"
      from every handler. */
  lemma NoVideoAllHandlers(req: VercelDownload.Request, parseText: string -> Option<Json>,
                           isUrl: string -> bool, key: Option<string>)
    requires Admitted(req, parseText, isUrl) && KeyConfigured(key)
    ensures var body := Obj(map["code" := Num(1), "msg" := Str("no video")]);
      && Worker.Handle(key, Received(200, "OK", Some(body))) == Fail(400, "no video")
      && VercelDownload.Handle(req, parseText, isUrl, key, Received(200, "OK", Some(body))) == Fail(400, "no video")
      && VercelIndex.Handle(key, Received(200, "OK", Some(body))) == Fail(400, "no video")
  {
    var body := Obj(map["code" := Num(1), "msg" := Str("no video")]);
    assert Member(body, Code) == Some(Num(1));
    assert Member(body, Msg) == Some(Str("no video"));
    assert Member(body, VideoUrl) == None && Member(body, Play) == None;
    Worker.Unrecognised(key, 200, "OK", body);
    VercelDownload.SuccessfulReply(req, parseText, isUrl, key, 200, "OK", body);
    VercelIndex.NotProcessed(key, 200, "OK", body);
  }
}
