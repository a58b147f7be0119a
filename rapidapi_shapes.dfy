/**
  What the Cloudflare worker and the Vercel raw handler have in common: the
  messages they answer with, the two known upstream layouts ("Shape A",
  wrapped in `{code: 0, data}`, and "Shape B", flat) and the fixed
  first-truthy-wins fallback chain for every output field. `Normalise` is the
  worker's 2xx branch; the raw handler differs in how it reads `msg` (see
  `VercelDownload.Normalise200`).
 */
module RapidApiShapes {
  import opened JsValues
  import opened Gateway

  const MsgKeyMissing := "RapidAPI key not configured. Please add your RAPIDAPI_KEY in the environment variables."
  const MsgNotSubscribed := "No estás suscrito a esta API. Ve a RapidAPI y suscríbete a \"TikTok Download Without Watermark\" de yi005 para usar esta función."
  const MsgInvalidKey := "Clave de API inválida. Verifica tu RAPIDAPI_KEY en RapidAPI.com"
  const MsgRateLimited := "Límite de solicitudes excedido. Intenta de nuevo en unos minutos."
  const ApiErrorPrefix := "Error de la API: "
  const MsgNoVideo := "URL de video inválida o video no encontrado"
  const MsgInternal := "Internal server error"
  const NotSubscribed := "not subscribed"

  /** `data && data.code === 0 && data.data`. */
  predicate IsShapeA(data: Json)
  {
    Truthy(Some(data)) && Member(data, Code) == Some(Num(0)) && Truthy(Member(data, Data))
  }

  /** `data && (data.video_url || data.play)`. */
  predicate IsShapeB(data: Json)
  {
    Truthy(Some(data)) && (Truthy(Member(data, VideoUrl)) || Truthy(Member(data, Play)))
  }

  /** The details built from `data.data` of a Shape A reply. Title and
      author are printed with `String()` and the duration converted with
      `Number()`, each of which throws on a value that cannot be printed. */
  function ShapeA(vd: Json): Result<Details>
    requires vd != Null
  {
    var author := Member(vd, Author);
    var title :- StringOf(Some(OrDefault([Member(vd, Title), Member(vd, Desc)], Str("TikTok Video"))));
    var name :- StringOf(Some(OrDefault([GetOpt(author, UniqueId), GetOpt(author, Nickname), Member(vd, Username)], Str("Unknown"))));
    var duration :- NumberOf(Member(vd, Duration));
    Ok(Details(
      videoUrl := OrDefault([Member(vd, Play), Member(vd, WmPlay), Member(vd, HdPlay)], Str("")),
      title := title,
      author := name,
      duration := duration,
      thumbnail := OrDefault([Member(vd, Cover), Member(vd, OriginCover), Member(vd, DynamicCover)], Str(""))
    ))
  }

  /** The details built from a flat Shape B reply. */
  function ShapeB(data: Json): Result<Details>
    requires data != Null
  {
    var title :- StringOf(Some(OrDefault([Member(data, Title), Member(data, Desc)], Str("TikTok Video"))));
    var name :- StringOf(Some(OrDefault([Member(data, Author), Member(data, Username)], Str("Unknown"))));
    var duration :- NumberOf(Member(data, Duration));
    Ok(Details(
      videoUrl := OrDefault([Member(data, VideoUrl), Member(data, Play)], Str("")),
      title := title,
      author := name,
      duration := duration,
      thumbnail := OrDefault([Member(data, Thumbnail), Member(data, Cover), Member(data, OriginCover)], Str(""))
    ))
  }

  /** The values Shape A prints or converts can all be printed: the chosen
      title, the chosen author and the duration. */
  predicate ShapeAPrintable(vd: Json)
    requires vd != Null
  {
    var author := Member(vd, Author);
    && !PrintThrows(OrDefault([Member(vd, Title), Member(vd, Desc)], Str("TikTok Video")))
    && !PrintThrows(OrDefault([GetOpt(author, UniqueId), GetOpt(author, Nickname), Member(vd, Username)], Str("Unknown")))
    && !(Member(vd, Duration).Some? && PrintThrows(Member(vd, Duration).value))
  }

  /** The same for Shape B. */
  predicate ShapeBPrintable(data: Json)
    requires data != Null
  {
    && !PrintThrows(OrDefault([Member(data, Title), Member(data, Desc)], Str("TikTok Video")))
    && !PrintThrows(OrDefault([Member(data, Author), Member(data, Username)], Str("Unknown")))
    && !(Member(data, Duration).Some? && PrintThrows(Member(data, Duration).value))
  }

  /** The answer to a 2xx reply: Shape A is tried before Shape B, and a reply
      matching neither is a 400 carrying the upstream `msg` or a default.
      `data.msg` throws when the body is `null`, and building the details
      throws when a value to print cannot be printed. */
  function Normalise(data: Json): (r: Result<Response>)
    ensures r.Throw? <==>
      || data == Null
      || (IsShapeA(data) && !ShapeAPrintable(Member(data, Data).value))
      || (!IsShapeA(data) && IsShapeB(data) && !ShapeBPrintable(data))
    ensures r.Ok? && r.value.body.Success? <==>
      || (IsShapeA(data) && ShapeAPrintable(Member(data, Data).value))
      || (!IsShapeA(data) && IsShapeB(data) && ShapeBPrintable(data))
    ensures r.Ok? ==> r.value.status == (if IsShapeA(data) || IsShapeB(data) then 200 else 400)
  {
    if IsShapeA(data) then
      var details :- ShapeA(Member(data, Data).value);
      Ok(Succeed(details))
    else if IsShapeB(data) then
      var details :- ShapeB(data);
      Ok(Succeed(details))
    else
      var msg :- Get(Some(data), Msg);
      Ok(Response(400, map[], Failure(OrDefault([msg], Str(MsgNoVideo)))))
  }

  // ---------------------------------------------------------------------
  // Field by field: the first truthy candidate wins, in the fixed order.

  /** The video URL and the thumbnail are passed on without printing, so
      they never make Shape A throw. */
  lemma ShapeAVideoUrl(vd: Json)
    requires vd != Null
    ensures var p, w, h := Member(vd, Play), Member(vd, WmPlay), Member(vd, HdPlay);
      var r := ShapeA(vd);
      && (r.Ok? <==> ShapeAPrintable(vd))
      && (Truthy(p) ==> r.Ok? ==> r.value.videoUrl == p.value)
      && (!Truthy(p) && Truthy(w) ==> r.Ok? ==> r.value.videoUrl == w.value)
      && (!Truthy(p) && !Truthy(w) && Truthy(h) ==> r.Ok? ==> r.value.videoUrl == h.value)
      && (!Truthy(p) && !Truthy(w) && !Truthy(h) ==> r.Ok? ==> r.value.videoUrl == Str(""))
  {
    var vs := [Member(vd, Play), Member(vd, WmPlay), Member(vd, HdPlay)];
    assert NoneTruthyBefore(vs, 0);
    if !Truthy(vs[0]) {
      assert NoneTruthyBefore(vs, 1);
      if !Truthy(vs[1]) { assert NoneTruthyBefore(vs, 2); }
    }
  }

  lemma ShapeAThumbnail(vd: Json)
    requires vd != Null
    ensures var c, o, d := Member(vd, Cover), Member(vd, OriginCover), Member(vd, DynamicCover);
      var r := ShapeA(vd);
      && (Truthy(c) ==> r.Ok? ==> r.value.thumbnail == c.value)
      && (!Truthy(c) && Truthy(o) ==> r.Ok? ==> r.value.thumbnail == o.value)
      && (!Truthy(c) && !Truthy(o) && Truthy(d) ==> r.Ok? ==> r.value.thumbnail == d.value)
      && (!Truthy(c) && !Truthy(o) && !Truthy(d) ==> r.Ok? ==> r.value.thumbnail == Str(""))
  {
    var vs := [Member(vd, Cover), Member(vd, OriginCover), Member(vd, DynamicCover)];
    assert NoneTruthyBefore(vs, 0);
    if !Truthy(vs[0]) {
      assert NoneTruthyBefore(vs, 1);
      if !Truthy(vs[1]) { assert NoneTruthyBefore(vs, 2); }
    }
  }

  /** The title is `title`, else `desc`, else "TikTok Video", printed with
      `String()`; a chosen value that cannot be printed makes Shape A throw. */
  lemma ShapeATitle(vd: Json)
    requires vd != Null
    ensures var t, d := Member(vd, Title), Member(vd, Desc);
      var r := ShapeA(vd);
      && (Truthy(t) ==> r.Ok? ==> r.value.title == ToJsString(t.value))
      && (Truthy(t) && PrintThrows(t.value) ==> r.Throw?)
      && (!Truthy(t) && Truthy(d) ==> r.Ok? ==> r.value.title == ToJsString(d.value))
      && (!Truthy(t) && Truthy(d) && PrintThrows(d.value) ==> r.Throw?)
      && (!Truthy(t) && !Truthy(d) ==> r.Ok? ==> r.value.title == "TikTok Video")
  {
    var vs := [Member(vd, Title), Member(vd, Desc)];
    assert NoneTruthyBefore(vs, 0);
    if !Truthy(vs[0]) { assert NoneTruthyBefore(vs, 1); }
  }

  /** The author is `author.unique_id`, else `author.nickname`, else
      `username`, else "Unknown", printed with `String()`; a plain string
      `author` is never used, and a chosen value that cannot be printed
      makes Shape A throw. */
  lemma ShapeAAuthor(vd: Json)
    requires vd != Null
    ensures var a := Member(vd, Author);
      var uid, nick, user := GetOpt(a, UniqueId), GetOpt(a, Nickname), Member(vd, Username);
      var r := ShapeA(vd);
      && (Truthy(uid) ==> r.Ok? ==> r.value.author == ToJsString(uid.value))
      && (Truthy(uid) && PrintThrows(uid.value) ==> r.Throw?)
      && (!Truthy(uid) && Truthy(nick) ==> r.Ok? ==> r.value.author == ToJsString(nick.value))
      && (!Truthy(uid) && Truthy(nick) && PrintThrows(nick.value) ==> r.Throw?)
      && (!Truthy(uid) && !Truthy(nick) && Truthy(user) ==> r.Ok? ==> r.value.author == ToJsString(user.value))
      && (!Truthy(uid) && !Truthy(nick) && Truthy(user) && PrintThrows(user.value) ==> r.Throw?)
      && (!Truthy(uid) && !Truthy(nick) && !Truthy(user) ==> r.Ok? ==> r.value.author == "Unknown")
      && (a.Some? && !a.value.Obj? ==> !Truthy(uid) && !Truthy(nick))
  {
    var a := Member(vd, Author);
    var vs := [GetOpt(a, UniqueId), GetOpt(a, Nickname), Member(vd, Username)];
    assert NoneTruthyBefore(vs, 0);
    if !Truthy(vs[0]) {
      assert NoneTruthyBefore(vs, 1);
      if !Truthy(vs[1]) { assert NoneTruthyBefore(vs, 2); }
    }
  }

  /** The duration is the number sent, 0 when it is missing or not numeric
      (null, an object, a string that is not a decimal integer), 1 or 0 for a
      boolean, and a decimal string is read as its value; a duration that
      cannot be printed makes `Number()`, and so Shape A, throw. */
  lemma ShapeADuration(vd: Json, n: int)
    requires vd != Null
    ensures var d := Member(vd, Duration);
      var r := ShapeA(vd);
      && (d.Some? && PrintThrows(d.value) ==> r.Throw?)
      && (d == Some(Num(n)) ==> r.Ok? ==> r.value.duration == n)
      && (d == Some(Str(IntToString(n))) ==> r.Ok? ==> r.value.duration == n)
      && (d == None || d == Some(Null) || (d.Some? && d.value.Obj? && !PrintThrows(d.value)) ==>
            r.Ok? ==> r.value.duration == 0)
      && (d.Some? && d.value.Str? && StringToNumber(d.value.s).None? ==> r.Ok? ==> r.value.duration == 0)
      && (d.Some? && d.value.Bool? ==> r.Ok? ==> r.value.duration == if d.value.b then 1 else 0)
  {
    NumberOfPrintedInt(n);
  }

  lemma ShapeBVideoUrl(data: Json)
    requires data != Null
    ensures var v, p := Member(data, VideoUrl), Member(data, Play);
      var r := ShapeB(data);
      && (r.Ok? <==> ShapeBPrintable(data))
      && (Truthy(v) ==> r.Ok? ==> r.value.videoUrl == v.value)
      && (!Truthy(v) && Truthy(p) ==> r.Ok? ==> r.value.videoUrl == p.value)
      && (IsShapeB(data) ==> r.Ok? ==> Truthy(Some(r.value.videoUrl)))
  {
    var vs := [Member(data, VideoUrl), Member(data, Play)];
    assert NoneTruthyBefore(vs, 0);
    if !Truthy(vs[0]) { assert NoneTruthyBefore(vs, 1); }
  }

  /** Shape B prints `author || username || 'Unknown'` with `String()`, so an
      author object becomes "[object Object]", unless it has its own
      `toString`, which makes Shape B throw. */
  lemma ShapeBAuthor(data: Json)
    requires data != Null
    ensures var a, user := Member(data, Author), Member(data, Username);
      var r := ShapeB(data);
      && (Truthy(a) ==> r.Ok? ==> r.value.author == ToJsString(a.value))
      && (Truthy(a) && PrintThrows(a.value) ==> r.Throw?)
      && (a.Some? && a.value.Obj? && "toString" !in a.value.fields ==> r.Ok? ==> r.value.author == "[object Object]")
      && (a.Some? && a.value.Obj? && "toString" in a.value.fields ==> r.Throw?)
      && (!Truthy(a) && Truthy(user) ==> r.Ok? ==> r.value.author == ToJsString(user.value))
      && (!Truthy(a) && Truthy(user) && PrintThrows(user.value) ==> r.Throw?)
      && (!Truthy(a) && !Truthy(user) ==> r.Ok? ==> r.value.author == "Unknown")
  {
    var vs := [Member(data, Author), Member(data, Username)];
    assert NoneTruthyBefore(vs, 0);
    if !Truthy(vs[0]) { assert NoneTruthyBefore(vs, 1); }
  }

  lemma ShapeBThumbnail(data: Json)
    requires data != Null
    ensures var t, c, o := Member(data, Thumbnail), Member(data, Cover), Member(data, OriginCover);
      var r := ShapeB(data);
      && (Truthy(t) ==> r.Ok? ==> r.value.thumbnail == t.value)
      && (!Truthy(t) && Truthy(c) ==> r.Ok? ==> r.value.thumbnail == c.value)
      && (!Truthy(t) && !Truthy(c) && Truthy(o) ==> r.Ok? ==> r.value.thumbnail == o.value)
      && (!Truthy(t) && !Truthy(c) && !Truthy(o) ==> r.Ok? ==> r.value.thumbnail == Str(""))
  {
    var vs := [Member(data, Thumbnail), Member(data, Cover), Member(data, OriginCover)];
    assert NoneTruthyBefore(vs, 0);
    if !Truthy(vs[0]) {
      assert NoneTruthyBefore(vs, 1);
      if !Truthy(vs[1]) { assert NoneTruthyBefore(vs, 2); }
    }
  }

  /** A reply that is both Shape A and Shape B is read as Shape A, from `data.data`. */
  lemma ShapeAWins(data: Json)
    requires IsShapeA(data) && IsShapeB(data)
    ensures var a := ShapeA(Member(data, Data).value);
      Normalise(data) == if a.Ok? then Ok(Succeed(a.value)) else Throw(a.fault)
  {
  }

  /** A 2xx reply matching neither shape answers 400 with the upstream `msg`
      when truthy, otherwise with the default message. */
  lemma NoShape(data: Json)
    requires data != Null && !IsShapeA(data) && !IsShapeB(data)
    ensures var msg := Member(data, Msg);
      && (Truthy(msg) ==> Normalise(data) == Ok(Response(400, map[], Failure(msg.value))))
      && (!Truthy(msg) ==> Normalise(data) == Ok(Fail(400, MsgNoVideo)))
  {
    var vs := [Member(data, Msg)];
    assert NoneTruthyBefore(vs, 0);
  }
}
