/**
  The Cloudflare worker's `POST /api/download` handler. The request body has
  already passed the route's schema; the handler checks the key, calls the
  upstream once, reads its body with `response.json()`, maps failure
  statuses, normalises a success, and turns anything thrown into a 500.
 */
module Worker {
  import opened JsValues
  import opened Gateway
  import opened RapidApiShapes

  /** The answer to a non-2xx reply whose body parsed as `data`. */
  function MapFailureStatus(status: int, statusText: string, data: Json): Result<Response>
  {
    if status == 403 then
      var message :- Get(Some(data), Message);
      if !Truthy(message) then Ok(Fail(403, MsgInvalidKey))
      else
        var subscribed :- Includes(message.value, NotSubscribed);
        Ok(Fail(403, if subscribed then MsgNotSubscribed else MsgInvalidKey))
    else if status == 429 then Ok(Fail(429, MsgRateLimited))
    else
      var message :- Get(Some(data), Message);
      var text :- StringOf(Or(message, Some(Str(statusText))));
      Ok(Fail(status, ApiErrorPrefix + text))
  }

  /** The body of the `try` block. */
  function Run(key: Option<string>, reply: Reply): Result<Response>
  {
    if !KeyConfigured(key) then Ok(Fail(500, MsgKeyMissing))
    else
      match reply
      case Unreachable => Throw(NetworkError)
      case Received(status, statusText, body) =>
        if body.None? then Throw(SyntaxError)
        else if !IsOk(status) then MapFailureStatus(status, statusText, body.value)
        else Normalise(body.value)
  }

  /** The handler with its `catch`: whatever is thrown becomes a 500. */
  function Handle(key: Option<string>, reply: Reply): (r: Response)
    ensures r.headers == map[]
    ensures r.body.Success? ==> r.status == 200
  {
    match Run(key, reply)
    case Ok(response) => response
    case Throw(_) => Fail(500, MsgInternal)
  }

  // ---------------------------------------------------------------------
  // Properties

  /** Without a key the answer is the configuration error, whatever the
      upstream would have said: no upstream request is needed. */
  lemma KeyCheckedFirst(key: Option<string>, reply: Reply, other: Reply)
    requires !KeyConfigured(key)
    ensures Handle(key, reply) == Handle(key, other) == Fail(500, MsgKeyMissing)
  {
  }

  /** A failed request or a body that is not JSON ends in the catch-all 500,
      whatever the status: `response.json()` runs before `response.ok` is read. */
  lemma UnreadableReplyIsInternalError(key: Option<string>, status: int, statusText: string)
    requires KeyConfigured(key)
    ensures Handle(key, Unreachable) == Fail(500, MsgInternal)
    ensures Handle(key, Received(status, statusText, None)) == Fail(500, MsgInternal)
  {
  }

  /** A 403 is the subscription error exactly when `message` contains
      "not subscribed" (as a substring of a string, or as an element of an
      array); a missing, empty or other message is the invalid-key error; a
      truthy message that has no `includes` makes the handler throw. */
  lemma Forbidden(key: Option<string>, statusText: string, data: Json)
    requires KeyConfigured(key)
    ensures var r := Handle(key, Received(403, statusText, Some(data)));
      var m := if data == Null then None else Member(data, Message);
      && (data == Null ==> r == Fail(500, MsgInternal))
      && (data != Null && !Truthy(m) ==> r == Fail(403, MsgInvalidKey))
      && (m.Some? && m.value.Str? && m.value.s != "" ==>
            r == Fail(403, if Contains(m.value.s, NotSubscribed) then MsgNotSubscribed else MsgInvalidKey))
      && (m.Some? && m.value.Arr? ==>
            r == Fail(403, if Str(NotSubscribed) in m.value.items then MsgNotSubscribed else MsgInvalidKey))
      && (Truthy(m) && !m.value.Str? && !m.value.Arr? ==> r == Fail(500, MsgInternal))
      && (r.status == 403 <==> data != Null && (!Truthy(m) || m.value.Str? || m.value.Arr?))
  {
  }

  /** 429 is the rate-limit error, whatever the body says. */
  lemma RateLimited(key: Option<string>, statusText: string, data: Json)
    requires KeyConfigured(key)
    ensures Handle(key, Received(429, statusText, Some(data))) == Fail(429, MsgRateLimited)
  {
  }

  /** Any other failure status is kept, with `message` when truthy and the
      status text otherwise; a `message` that cannot be printed makes the
      template literal throw. */
  lemma OtherFailureStatus(key: Option<string>, status: int, statusText: string, data: Json)
    requires KeyConfigured(key) && !IsOk(status) && status != 403 && status != 429
    ensures var r := Handle(key, Received(status, statusText, Some(data)));
      && (data == Null ==> r == Fail(500, MsgInternal))
      && (data != Null ==>
            var m := Member(data, Message);
            r == if Truthy(m) && PrintThrows(m.value) then Fail(500, MsgInternal)
                 else Fail(status, ApiErrorPrefix + if Truthy(m) then ToJsString(m.value) else statusText))
  {
  }

  /** A 2xx reply succeeds, with status 200, exactly when it is Shape A or
      Shape B and the values it prints can be printed; Shape A is read from
      `data.data` and wins when both match; a value that cannot be printed
      is the catch-all 500. */
  lemma SuccessfulReply(key: Option<string>, status: int, statusText: string, data: Json)
    requires KeyConfigured(key) && IsOk(status)
    ensures var r := Handle(key, Received(status, statusText, Some(data)));
      && (r.body.Success? <==>
            || (IsShapeA(data) && ShapeAPrintable(Member(data, Data).value))
            || (!IsShapeA(data) && IsShapeB(data) && ShapeBPrintable(data)))
      && (IsShapeA(data) ==>
            var a := ShapeA(Member(data, Data).value);
            r == if a.Ok? then Succeed(a.value) else Fail(500, MsgInternal))
      && (!IsShapeA(data) && IsShapeB(data) ==>
            var b := ShapeB(data);
            r == if b.Ok? then Succeed(b.value) else Fail(500, MsgInternal))
  {
  }

  /** A 2xx reply matching neither shape: 400 with `msg` or the default
      message, except that a `null` body makes `data.msg` throw. */
  lemma Unrecognised(key: Option<string>, status: int, statusText: string, data: Json)
    requires KeyConfigured(key) && IsOk(status) && !IsShapeA(data) && !IsShapeB(data)
    ensures var r := Handle(key, Received(status, statusText, Some(data)));
      && (data == Null ==> r == Fail(500, MsgInternal))
      && (data != Null && Truthy(Member(data, Msg)) ==> r == Response(400, map[], Failure(Member(data, Msg).value)))
      && (data != Null && !Truthy(Member(data, Msg)) ==> r == Fail(400, MsgNoVideo))
  {
    if data != Null { NoShape(data); }
  }

  /** The handler succeeds exactly on a 2xx JSON reply of either shape, with
      a key, whose printed values can be printed. */
  lemma SuccessIff(key: Option<string>, reply: Reply)
    ensures Handle(key, reply).body.Success? <==>
      && KeyConfigured(key)
      && reply.Received? && reply.body.Some? && IsOk(reply.status)
      && var data := reply.body.value;
         || (IsShapeA(data) && ShapeAPrintable(Member(data, Data).value))
         || (!IsShapeA(data) && IsShapeB(data) && ShapeBPrintable(data))
  {
  }
}
