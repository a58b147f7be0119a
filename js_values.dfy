/**
  JavaScript values as the gateway handlers see them: the result of parsing an
  upstream JSON body, `undefined` for a missing property, and the handful of
  JavaScript coercions the handlers rely on (truthiness, `||`, property access
  that throws on `null`, `String(x)`, `Number(x) || 0`, `includes`).
 */
module JsValues {

  datatype Option<+T> = None | Some(value: T)

  /** A value produced by JSON.parse. Numbers are integers in this model. */
  datatype Json =
    | Null
    | Bool(b: bool)
    | Num(n: int)
    | Str(s: string)
    | Arr(items: seq<Json>)
    | Obj(fields: map<string, Json>)

  /** A JavaScript value that may be `undefined` (None). */
  type JsVal = Option<Json>

  const EmptyObject: Json := Obj(map[])

  /** What a handler can throw. */
  datatype Fault =
    | TypeError                   // property access on null/undefined, calling a non-function
    | SyntaxError                 // response.json() on a body that is not JSON
    | NetworkError                // fetch() rejected
    | ZodError(issues: seq<string>)

  /** A computation that either returns a value or throws. */
  datatype Result<+T> = Ok(value: T) | Throw(fault: Fault) {
    predicate IsFailure() { Throw? }
    function PropagateFailure<U>(): Result<U> requires Throw? { Throw(fault) }
    function Extract(): T requires Ok? { value }
  }

  /** The property names the handlers read. None of them is an array index
      or a property that strings, numbers or arrays carry themselves. */
  datatype Field =
    | Code | Data | Msg | Message
    | Play | WmPlay | HdPlay | VideoUrl
    | Title | Desc | Author | UniqueId | Nickname | Username
    | Duration | Cover | OriginCover | DynamicCover | Thumbnail
    | Url

  function Name(f: Field): string
  {
    match f
    case Code => "code"
    case Data => "data"
    case Msg => "msg"
    case Message => "message"
    case Play => "play"
    case WmPlay => "wmplay"
    case HdPlay => "hdplay"
    case VideoUrl => "video_url"
    case Title => "title"
    case Desc => "desc"
    case Author => "author"
    case UniqueId => "unique_id"
    case Nickname => "nickname"
    case Username => "username"
    case Duration => "duration"
    case Cover => "cover"
    case OriginCover => "origin_cover"
    case DynamicCover => "dynamic_cover"
    case Thumbnail => "thumbnail"
    case Url => "url"
  }

  /** JavaScript truthiness: undefined, null, false, 0 and "" are falsy. */
  predicate Truthy(v: JsVal)
  {
    match v
    case None => false
    case Some(j) =>
      match j
      case Null => false
      case Bool(b) => b
      case Num(n) => n != 0
      case Str(s) => s != ""
      case Arr(_) => true
      case Obj(_) => true
  }

  /** `v.f` on a value that is neither undefined nor null. */
  function Member(v: Json, f: Field): JsVal
    requires v != Null
  {
    if v.Obj? && Name(f) in v.fields then Some(v.fields[Name(f)]) else None
  }

  /** `v.f`: throws a TypeError when `v` is undefined or null. */
  function Get(v: JsVal, f: Field): Result<JsVal>
  {
    if v == None || v == Some(Null) then Throw(TypeError) else Ok(Member(v.value, f))
  }

  /** `v?.f`: undefined when `v` is undefined or null. */
  function GetOpt(v: JsVal, f: Field): JsVal
  {
    if v == None || v == Some(Null) then None else Member(v.value, f)
  }

  /** `a || b`. */
  function Or(a: JsVal, b: JsVal): JsVal
  {
    if Truthy(a) then a else b
  }

  /** `vs[0] || vs[1] || ... || vs[|vs|-1]`: the first truthy operand, or the
      last operand when none is truthy. */
  function OrChain(vs: seq<JsVal>): (r: JsVal)
    requires |vs| > 0
    ensures forall k | 0 <= k < |vs| && Truthy(vs[k]) && NoneTruthyBefore(vs, k) :: r == vs[k]
    ensures NoneTruthyBefore(vs, |vs|) ==> r == vs[|vs| - 1]
  {
    if |vs| == 1 then vs[0]
    else
      var rest := OrChain(vs[1..]);
      assert forall k | 1 <= k <= |vs| :: NoneTruthyBefore(vs, k) ==> NoneTruthyBefore(vs[1..], k - 1);
      Or(vs[0], rest)
  }

  /** No operand before position `k` is truthy. */
  ghost predicate NoneTruthyBefore(vs: seq<JsVal>, k: int)
    requires 0 <= k <= |vs|
  {
    forall j | 0 <= j < k :: !Truthy(vs[j])
  }

  /** `vs[0] || ... || vs[|vs|-1] || d` for a literal default `d`. */
  function OrDefault(vs: seq<JsVal>, d: Json): (r: Json)
    ensures forall k | 0 <= k < |vs| && Truthy(vs[k]) && NoneTruthyBefore(vs, k) :: r == vs[k].value
    ensures NoneTruthyBefore(vs, |vs|) ==> r == d
  {
    var all := vs + [Some(d)];
    OrChainOfAppended(vs, d);
    var r := OrChain(all);
    if r.Some? then r.value else d
  }

  lemma OrChainOfAppended(vs: seq<JsVal>, d: Json)
    ensures var r := OrChain(vs + [Some(d)]);
      && r.Some?
      && (forall k | 0 <= k < |vs| && Truthy(vs[k]) && NoneTruthyBefore(vs, k) :: r == vs[k])
      && (NoneTruthyBefore(vs, |vs|) ==> r == Some(d))
  {
    var all := vs + [Some(d)];
    var r := OrChain(all);
    forall k | 0 <= k < |vs| && Truthy(vs[k]) && NoneTruthyBefore(vs, k)
      ensures r == vs[k]
    {
      assert all[k] == vs[k];
      assert NoneTruthyBefore(all, k);
    }
    if NoneTruthyBefore(vs, |vs|) {
      assert NoneTruthyBefore(all, |all| - 1);
      assert all[|all| - 1] == Some(d);
    } else {
      var k :| 0 <= k < |vs| && Truthy(vs[k]);
      FirstTruthy(vs, k);
    }
  }

  /** When some operand is truthy, there is a first truthy one. */
  lemma {:induction false} FirstTruthy(vs: seq<JsVal>, k: int)
    requires 0 <= k < |vs| && Truthy(vs[k])
    ensures exists m | 0 <= m <= k :: Truthy(vs[m]) && NoneTruthyBefore(vs, m)
  {
    if !NoneTruthyBefore(vs, k) {
      var j :| 0 <= j < k && Truthy(vs[j]);
      FirstTruthy(vs, j);
    }
  }

  /** `String(v)` for a value that is not undefined. */
  function ToJsString(v: Json): string
  {
    match v
    case Null => "null"
    case Bool(b) => if b then "true" else "false"
    case Num(n) => IntToString(n)
    case Str(s) => s
    case Arr(items) =>
      // Array.prototype.join(","): null elements become empty strings
      JoinComma(seq(|items|, i requires 0 <= i < |items| =>
        if items[i] == Null then "" else ToJsString(items[i])))
    case Obj(_) => "[object Object]"
  }

  /** `String(v)`, also for undefined. */
  function JsString(v: JsVal): string
  {
    match v
    case None => "undefined"
    case Some(j) => ToJsString(j)
  }

  /** Printing a JSON value calls its `toString`. An object that carries its
      own `toString` key has one that is not a function (JSON cannot hold a
      function), and its inherited `valueOf` gives back the object itself,
      so `String()`, `Number()` and a template literal throw a TypeError on
      it. An array prints its elements, so it throws when one of them does. */
  predicate PrintThrows(v: Json)
  {
    match v
    case Obj(fields) => "toString" in fields
    case Arr(items) => exists i | 0 <= i < |items| :: PrintThrows(items[i])
    case _ => false
  }

  /** `String(v)` and `${v}`. */
  function StringOf(v: JsVal): Result<string>
  {
    if v.Some? && PrintThrows(v.value) then Throw(TypeError) else Ok(JsString(v))
  }

  /** `Number(v) || 0`: `Number()` prints an object or array first. */
  function NumberOf(v: JsVal): Result<int>
  {
    if v.Some? && PrintThrows(v.value) then Throw(TypeError) else Ok(NumberOrZero(v))
  }

  function JoinComma(ss: seq<string>): string
  {
    if |ss| == 0 then ""
    else if |ss| == 1 then ss[0]
    else ss[0] + "," + JoinComma(ss[1..])
  }

  function DigitChar(d: nat): char
    requires d < 10
  {
    (48 + d) as char
  }

  predicate IsDigit(c: char)
  {
    48 <= c as int <= 57
  }

  function DigitValue(c: char): nat
    requires IsDigit(c)
  {
    c as int - 48
  }

  /** Decimal digits of a natural number, without leading zeros. */
  function NatToString(n: nat): (s: string)
    ensures |s| > 0
    ensures forall i | 0 <= i < |s| :: IsDigit(s[i])
  {
    if n < 10 then [DigitChar(n)] else NatToString(n / 10) + [DigitChar(n % 10)]
  }

  /** How JavaScript prints an integer-valued number. */
  function IntToString(n: int): string
  {
    if n < 0 then "-" + NatToString(-n) else NatToString(n)
  }

  function DigitsValue(s: string): nat
    requires forall i | 0 <= i < |s| :: IsDigit(s[i])
  {
    if s == [] then 0 else DigitsValue(s[..|s| - 1]) * 10 + DigitValue(s[|s| - 1])
  }

  predicate AllDigits(s: string)
  {
    |s| > 0 && forall i | 0 <= i < |s| :: IsDigit(s[i])
  }

  /** `Number(s)` for a string: the empty string is 0, an optionally signed
      run of decimal digits is its value, anything else is NaN (None). */
  function StringToNumber(s: string): Option<int>
  {
    if s == "" then Some(0)
    else if AllDigits(s) then Some(DigitsValue(s))
    else if s[0] == '-' && AllDigits(s[1..]) then Some(0 - DigitsValue(s[1..]) as int)
    else if s[0] == '+' && AllDigits(s[1..]) then Some(DigitsValue(s[1..]))
    else None
  }

  /** `Number(v)`; None stands for NaN. */
  function ToNumber(v: JsVal): Option<int>
  {
    match v
    case None => None
    case Some(j) =>
      match j
      case Null => Some(0)
      case Bool(b) => Some(if b then 1 else 0)
      case Num(n) => Some(n)
      case Str(s) => StringToNumber(s)
      case Arr(_) => StringToNumber(ToJsString(j))
      case Obj(_) => None
  }

  /** `Number(v) || 0`. */
  function NumberOrZero(v: JsVal): int
  {
    match ToNumber(v)
    case Some(n) => n
    case None => 0
  }

  /** `needle` occurs in `s` at position `i`. */
  predicate OccursAt(s: string, needle: string, i: int)
  {
    0 <= i && i + |needle| <= |s| && s[i..i + |needle|] == needle
  }

  /** `s.includes(needle)` for strings. */
  predicate Contains(s: string, needle: string)
  {
    exists i | 0 <= i <= |s| - |needle| :: OccursAt(s, needle, i)
  }

  /** `v.includes(needle)`: strings search for a substring, arrays for an
      equal element; on any other value `includes` is not a function and the
      call throws. */
  function Includes(v: Json, needle: string): (r: Result<bool>)
    ensures r.Throw? <==> !v.Str? && !v.Arr?
    ensures v.Str? ==> r == Ok(Contains(v.s, needle))
    ensures v.Arr? ==> r == Ok(Str(needle) in v.items)
  {
    match v
    case Str(s) => Ok(Contains(s, needle))
    case Arr(items) => Ok(Str(needle) in items)
    case _ => Throw(TypeError)
  }

  // ---------------------------------------------------------------------
  // Properties of the coercions

  /** `includes` finds the needle wherever it is: in a string with any text
      before and after it, and in an array at any position. A string shorter
      than the needle never contains it. */
  lemma IncludesFinds(pre: string, post: string, needle: string, before: seq<Json>, after: seq<Json>)
    ensures Includes(Str(pre + needle + post), needle) == Ok(true)
    ensures Includes(Arr(before + [Str(needle)] + after), needle) == Ok(true)
    ensures |pre| < |needle| ==> Includes(Str(pre), needle) == Ok(false)
  {
    var s := pre + needle + post;
    assert s[|pre|..|pre| + |needle|] == needle;
    assert OccursAt(s, needle, |pre|);
    assert (before + [Str(needle)] + after)[|before|] == Str(needle);
  }

  /** Which values print: scalars always do, an object exactly when it has
      no `toString` key of its own, and an array holding a value that cannot
      be printed, at any position, cannot be printed either. */
  lemma PrintingThrows(v: Json, before: seq<Json>, after: seq<Json>)
    ensures v.Null? || v.Bool? || v.Num? || v.Str? ==> StringOf(Some(v)) == Ok(ToJsString(v))
    ensures v.Obj? ==> (StringOf(Some(v)).Throw? <==> "toString" in v.fields)
    ensures v.Obj? && "toString" !in v.fields ==> StringOf(Some(v)) == Ok("[object Object]")
    ensures StringOf(Some(v)).Throw? ==> StringOf(Some(Arr(before + [v] + after))).Throw?
    ensures StringOf(Some(v)).Throw? <==> NumberOf(Some(v)).Throw?
  {
    var items := before + [v] + after;
    assert items[|before|] == v;
  }

  lemma {:induction false} NatToStringDigits(n: nat)
    ensures DigitsValue(NatToString(n)) == n
  {
    if n >= 10 {
      var s := NatToString(n);
      var prefix := NatToString(n / 10);
      assert s == prefix + [DigitChar(n % 10)];
      assert s[..|s| - 1] == prefix;
      NatToStringDigits(n / 10);
    }
  }

  /** `Number(String(n)) === n` for every integer: printing then reading a
      number gives it back. */
  lemma NumberOfPrintedInt(n: int)
    ensures StringToNumber(IntToString(n)) == Some(n)
    ensures NumberOrZero(Some(Str(ToJsString(Num(n))))) == n
  {
    var s := IntToString(n);
    if n < 0 {
      NatToStringDigits(-n);
      assert s[1..] == NatToString(-n);
      assert !IsDigit(s[0]);
    } else {
      NatToStringDigits(n);
    }
  }
}
