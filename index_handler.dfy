/**
  The Vercel Hono handler `POST /api/download` of `api/index.ts`. It reads
  the upstream body as text and parses it strictly (502 when it is not
  JSON), maps every failure status the same way, accepts only the wrapped
  Shape A layout, and refuses a success without a string download URL.
 */
module VercelIndex {
  import opened JsValues
  import opened Gateway

  const MsgKeyMissing := "Error del Servidor: La clave de API no está configurada."
  const BadJsonPrefix := "La API externa devolvió una respuesta inválida (código: "
  const ApiErrorPrefix := "Error de la API externa: "
  const MsgUnknownApiError := "Error desconocido de la API externa."
  const MsgNotProcessed := "La API externa no pudo procesar la URL."
  const MsgNoDownloadUrl := "El video fue procesado, pero la API no devolvió una URL de descarga."
  const UnknownAuthor := "Autor Desconocido"
  const DefaultTitle := "Video de TikTok"
  const InvalidRequestPrefix := "Petición inválida: "
  const MsgFatal := "Ha ocurrido un error fatal e inesperado en el servidor."

  /** `videoData.play || videoData.wmplay || videoData.hdplay`, with no default. */
  function VideoUrlOf(vd: Json): JsVal
    requires vd != Null
  {
    OrChain([Member(vd, Play), Member(vd, WmPlay), Member(vd, HdPlay)])
  }

  /** `typeof videoUrl === 'string' && videoUrl`. */
  predicate IsDownloadUrl(v: JsVal)
  {
    v.Some? && v.value.Str? && v.value.s != ""
  }

  /** `authorName`: an object (and, since `typeof null === 'object'`, null)
      is asked for `unique_id || nickname`, a string is used as it is,
      anything else is "Autor Desconocido". */
  function AuthorName(author: JsVal): Result<JsVal>
  {
    match author
    case None => Ok(Some(Str(UnknownAuthor)))
    case Some(a) =>
      match a
      case Null => Throw(TypeError)
      case Obj(_) => Ok(Or(Member(a, UniqueId), Member(a, Nickname)))
      case Arr(_) => Ok(Or(Member(a, UniqueId), Member(a, Nickname)))
      case Str(_) => Ok(author)
      case Bool(_) => Ok(Some(Str(UnknownAuthor)))
      case Num(_) => Ok(Some(Str(UnknownAuthor)))
  }

  /** The success payload built from `data.data`, once a download URL was
      found. Title, author name and thumbnail are printed with `String()`
      and the duration converted with `Number()`. */
  function Extract(vd: Json): Result<Details>
    requires vd != Null && IsDownloadUrl(VideoUrlOf(vd))
  {
    var authorName :- AuthorName(Member(vd, Author));
    var title := OrDefault([Member(vd, Title), Member(vd, Desc)], Str(DefaultTitle));
    var thumbnail := OrChain([Member(vd, Cover), Member(vd, OriginCover), Member(vd, DynamicCover)]);
    var titleText :- StringOf(Some(title));
    var authorText :- StringOf(authorName);
    var duration :- NumberOf(Member(vd, Duration));
    var thumbnailText :- StringOf(Some(OrDefault([thumbnail], Str(""))));
    Ok(Details(
      videoUrl := VideoUrlOf(vd).value,
      title := titleText,
      author := authorText,
      duration := duration,
      thumbnail := Str(thumbnailText)
    ))
  }

  /** Everything the success payload prints or converts can be printed:
      the chosen title, the author name, the duration and the chosen
      thumbnail. */
  predicate Printable(vd: Json)
    requires vd != Null
  {
    var name := AuthorName(Member(vd, Author));
    var thumbnail := OrChain([Member(vd, Cover), Member(vd, OriginCover), Member(vd, DynamicCover)]);
    && !PrintThrows(OrDefault([Member(vd, Title), Member(vd, Desc)], Str(DefaultTitle)))
    && !(name.Ok? && name.value.Some? && PrintThrows(name.value.value))
    && !(Member(vd, Duration).Some? && PrintThrows(Member(vd, Duration).value))
    && !(Truthy(thumbnail) && PrintThrows(thumbnail.value))
  }

  /** The body of the `try` block. */
  function Run(key: Option<string>, reply: Reply): Result<Response>
  {
    if !KeyConfigured(key) then Ok(Fail(500, MsgKeyMissing))
    else
      match reply
      case Unreachable => Throw(NetworkError)
      case Received(status, statusText, body) =>
        if body.None? then Ok(Fail(502, BadJsonPrefix + IntToString(status) + ")"))
        else if !IsOk(status) then
          var errorMsg := OrDefault([GetOpt(body, Message), GetOpt(body, Msg)], Str(MsgUnknownApiError));
          var text :- StringOf(Some(errorMsg));
          Ok(Fail(status, ApiErrorPrefix + text))
        else
          var code :- Get(body, Code);
          var inner :- Get(body, Data);
          if code != Some(Num(0)) || !Truthy(inner) then
            var msg :- Get(body, Msg);
            Ok(Response(400, map[], Failure(OrDefault([msg], Str(MsgNotProcessed)))))
          else if !IsDownloadUrl(VideoUrlOf(inner.value)) then Ok(Fail(404, MsgNoDownloadUrl))
          else
            var details :- Extract(inner.value);
            Ok(Succeed(details))
  }

  /** The `catch` block: a ZodError is a 400 naming its first issue, anything
      else the fatal 500. */
  function Catch(fault: Fault): (r: Response)
    ensures r.status == 400 <==> fault.ZodError?
    ensures r.status == 500 <==> !fault.ZodError?
    ensures !fault.ZodError? ==> r == Fail(500, MsgFatal)
    ensures fault.ZodError? ==>
      r.body == Failure(Str(InvalidRequestPrefix + if |fault.issues| > 0 then fault.issues[0] else "undefined"))
  {
    match fault
    case ZodError(issues) => Fail(400, InvalidRequestPrefix + if |issues| > 0 then issues[0] else "undefined")
    case _ => Fail(500, MsgFatal)
  }

  function Handle(key: Option<string>, reply: Reply): (r: Response)
    ensures r.headers == map[]
    ensures r.body.Success? ==> r.status == 200
  {
    match Run(key, reply)
    case Ok(response) => response
    case Throw(fault) => Catch(fault)
  }

  // ---------------------------------------------------------------------
  // Properties

  /** Without a key the answer is the configuration error, whatever the
      upstream would have said. */
  lemma KeyCheckedFirst(key: Option<string>, reply: Reply, other: Reply)
    requires !KeyConfigured(key)
    ensures Handle(key, reply) == Handle(key, other) == Fail(500, MsgKeyMissing)
  {
  }

  /** A body that is not JSON is a 502 naming the upstream status, for every
      status, 2xx or not: the parse comes before the `ok` test. A failed
      request is the fatal 500. */
  lemma NonJsonReply(key: Option<string>, status: int, statusText: string)
    requires KeyConfigured(key)
    ensures Handle(key, Received(status, statusText, None)) == Fail(502, BadJsonPrefix + IntToString(status) + ")")
    ensures Handle(key, Unreachable) == Fail(500, MsgFatal)
  {
  }

  /** A non-2xx JSON reply keeps its status, with `message`, else `msg`, else
      the default; 403 and 429 get no message of their own. A chosen message
      that cannot be printed makes the template literal throw: the fatal 500. */
  lemma UpstreamFailure(key: Option<string>, status: int, statusText: string, data: Json)
    requires KeyConfigured(key) && !IsOk(status)
    ensures var m, msg := GetOpt(Some(data), Message), GetOpt(Some(data), Msg);
      var r := Handle(key, Received(status, statusText, Some(data)));
      && (Truthy(m) ==>
            r == if PrintThrows(m.value) then Fail(500, MsgFatal) else Fail(status, ApiErrorPrefix + ToJsString(m.value)))
      && (!Truthy(m) && Truthy(msg) ==>
            r == if PrintThrows(msg.value) then Fail(500, MsgFatal) else Fail(status, ApiErrorPrefix + ToJsString(msg.value)))
      && (!Truthy(m) && !Truthy(msg) ==> r == Fail(status, ApiErrorPrefix + MsgUnknownApiError))
  {
    var vs := [GetOpt(Some(data), Message), GetOpt(Some(data), Msg)];
    assert NoneTruthyBefore(vs, 0);
    if !Truthy(vs[0]) { assert NoneTruthyBefore(vs, 1); }
  }

  /** A 2xx reply whose `code` is not 0 or whose `data` is falsy is a 400 with
      `msg` or the default; a `null` body throws and is the fatal 500. There
      is no flat-layout fallback. */
  lemma NotProcessed(key: Option<string>, status: int, statusText: string, data: Json)
    requires KeyConfigured(key) && IsOk(status)
    ensures var r := Handle(key, Received(status, statusText, Some(data)));
      && (data == Null ==> r == Fail(500, MsgFatal))
      && (data != Null && (Member(data, Code) != Some(Num(0)) || !Truthy(Member(data, Data))) ==>
            var msg := Member(data, Msg);
            r == Response(400, map[], Failure(if Truthy(msg) then msg.value else Str(MsgNotProcessed))))
  {
    if data != Null {
      var vs := [Member(data, Msg)];
      assert NoneTruthyBefore(vs, 0);
      if !Truthy(vs[0]) { assert NoneTruthyBefore(vs, 1); }
    }
  }

  /** The handler succeeds exactly when a keyed 2xx JSON reply has `code`
      0, truthy `data`, a first truthy `play`/`wmplay`/`hdplay` that is a
      non-empty string, an author that is not null, and values to print that
      can be printed; a success then always carries that non-empty string as
      its `video_url`. */
  lemma SuccessIff(key: Option<string>, reply: Reply)
    ensures var r := Handle(key, reply);
      r.body.Success? <==>
        && KeyConfigured(key)
        && reply.Received? && reply.body.Some? && IsOk(reply.status)
        && reply.body.value != Null
        && Member(reply.body.value, Code) == Some(Num(0))
        && Truthy(Member(reply.body.value, Data))
        && IsDownloadUrl(VideoUrlOf(Member(reply.body.value, Data).value))
        && Member(Member(reply.body.value, Data).value, Author) != Some(Null)
        && Printable(Member(reply.body.value, Data).value)
    ensures var r := Handle(key, reply);
      r.body.Success? ==> r.body.data.videoUrl.Str? && r.body.data.videoUrl.s != ""
  {
  }

  /** A wrapped reply without a usable download URL is a 404. In particular a
      truthy `play` that is not a string hides a good `wmplay`. */
  lemma NoDownloadUrl(key: Option<string>, status: int, statusText: string, data: Json)
    requires KeyConfigured(key) && IsOk(status) && data != Null
    requires Member(data, Code) == Some(Num(0)) && Truthy(Member(data, Data))
    ensures var vd := Member(data, Data).value;
      var r := Handle(key, Received(status, statusText, Some(data)));
      && (!IsDownloadUrl(VideoUrlOf(vd)) ==> r == Fail(404, MsgNoDownloadUrl))
      && (Truthy(Member(vd, Play)) && !Member(vd, Play).value.Str? ==> r == Fail(404, MsgNoDownloadUrl))
  {
    var vd := Member(data, Data).value;
    var vs := [Member(vd, Play), Member(vd, WmPlay), Member(vd, HdPlay)];
    assert NoneTruthyBefore(vs, 0);
  }

  /** How the author is named: an object or an array (both `typeof
      'object'`) gives `unique_id || nickname` printed with `String()` (so
      "undefined" when it has neither, as for every array, and a throw
      when the chosen one cannot be printed), a string gives itself,
      anything else "Autor Desconocido", and a `null` author throws. */
  lemma AuthorNameCases(author: JsVal)
    ensures author == Some(Null) <==> AuthorName(author).Throw?
    ensures var r := AuthorName(author);
      && (author.Some? && author.value.Str? ==> r == Ok(author) && StringOf(r.value) == Ok(author.value.s))
      && (author.None? || (author.Some? && (author.value.Bool? || author.value.Num?)) ==>
            StringOf(r.value) == Ok(UnknownAuthor))
      && (author.Some? && (author.value.Obj? || author.value.Arr?) ==>
            var uid, nick := Member(author.value, UniqueId), Member(author.value, Nickname);
            && (Truthy(uid) ==> StringOf(r.value) == StringOf(uid))
            && (Truthy(uid) && PrintThrows(uid.value) ==> StringOf(r.value).Throw?)
            && (!Truthy(uid) ==> StringOf(r.value) == StringOf(nick))
            && (!Truthy(uid) && nick.Some? && PrintThrows(nick.value) ==> StringOf(r.value).Throw?)
            && (uid.None? && nick.None? ==> StringOf(r.value) == Ok("undefined")))
  {
  }

  /** On success the remaining fields follow their fallback chains: title
      `title || desc || 'Video de TikTok'`, the author name printed,
      thumbnail the first truthy of `cover`/`origin_cover`/`dynamic_cover`
      printed, else "", duration `Number(duration) || 0`. */
  lemma SuccessFields(key: Option<string>, status: int, statusText: string, data: Json)
    requires var r := Handle(key, Received(status, statusText, Some(data))); r.body.Success?
    ensures data != Null && Truthy(Member(data, Data))
    ensures var vd := Member(data, Data).value;
      var d := Handle(key, Received(status, statusText, Some(data))).body.data;
      var t, desc := Member(vd, Title), Member(vd, Desc);
      var c, o, dc := Member(vd, Cover), Member(vd, OriginCover), Member(vd, DynamicCover);
      && d.videoUrl == VideoUrlOf(vd).value
      && (Truthy(t) ==> d.title == ToJsString(t.value))
      && (!Truthy(t) && Truthy(desc) ==> d.title == ToJsString(desc.value))
      && (!Truthy(t) && !Truthy(desc) ==> d.title == DefaultTitle)
      && (Truthy(c) ==> d.thumbnail == Str(ToJsString(c.value)))
      && (!Truthy(c) && Truthy(o) ==> d.thumbnail == Str(ToJsString(o.value)))
      && (!Truthy(c) && !Truthy(o) && Truthy(dc) ==> d.thumbnail == Str(ToJsString(dc.value)))
      && (!Truthy(c) && !Truthy(o) && !Truthy(dc) ==> d.thumbnail == Str(""))
      && d.duration == NumberOrZero(Member(vd, Duration))
      && AuthorName(Member(vd, Author)).Ok?
      && d.author == JsString(AuthorName(Member(vd, Author)).value)
  {
    SuccessIff(key, Received(status, statusText, Some(data)));
    var vd := Member(data, Data).value;
    var ts := [Member(vd, Title), Member(vd, Desc)];
    assert NoneTruthyBefore(ts, 0);
    if !Truthy(ts[0]) { assert NoneTruthyBefore(ts, 1); }
    var cs := [Member(vd, Cover), Member(vd, OriginCover), Member(vd, DynamicCover)];
    var th := OrChain(cs);
    assert NoneTruthyBefore(cs, 0);
    if !Truthy(cs[0]) {
      assert NoneTruthyBefore(cs, 1);
      if !Truthy(cs[1]) {
        assert NoneTruthyBefore(cs, 2);
        if !Truthy(cs[2]) { assert NoneTruthyBefore(cs, 3); }
      }
    }
    assert NoneTruthyBefore([th], 0);
    if !Truthy(th) { assert NoneTruthyBefore([th], 1); }
  }

  /** A wrapped reply with a usable download URL and a `null` author is the
      fatal 500: `typeof null === 'object'`, so `author.unique_id` is read. */
  lemma NullAuthor(key: Option<string>, status: int, statusText: string, data: Json)
    requires KeyConfigured(key) && IsOk(status) && data != Null
    requires Member(data, Code) == Some(Num(0)) && Truthy(Member(data, Data))
    requires IsDownloadUrl(VideoUrlOf(Member(data, Data).value))
    requires Member(Member(data, Data).value, Author) == Some(Null)
    ensures Handle(key, Received(status, statusText, Some(data))) == Fail(500, MsgFatal)
  {
  }

  /** Nothing in the `try` block throws a ZodError (the request schema runs
      in the route's validator, before the handler), so the 400 branch of
      the `catch` is never taken: whatever the handler throws, it is never a
      ZodError, so it is the fatal 500. */
  lemma ZodBranchUnreachable(key: Option<string>, reply: Reply)
    ensures Run(key, reply).Throw? ==> Run(key, reply).fault in {TypeError, NetworkError}
    ensures Run(key, reply).Throw? ==> Handle(key, reply) == Fail(500, MsgFatal)
  {
  }
}
