/** Defensive parsing of cache contents (lib/utils.ts). */
module Utils {
  import opened Wrappers
  import opened Json

  /** A JavaScript value that is not a string. */
  type NonString = v: Js | !v.JStr? witness JNull

  /** What `safeJsonParse` can be handed: `undefined`, a string (given by its
      text), or a value that is not a string. */
  datatype Raw = Undefined | RString(t: Text) | RValue(v: NonString)

  predicate RawFalsy(raw: Raw) {
    match raw
    case Undefined => true
    case RString(t) => TextFalsy(t)
    case RValue(v) => !Truthy(v)
  }

  /** `typeof v === "object"` for a value that is not `null`. */
  predicate IsObjectLike(v: Js) {
    v.JObj? || v.JArr?
  }

  /** `safeJsonParse(raw)`; `JNull` is the `null` it returns. The result is
      either `null` or exactly what the input holds: the value its text parses
      to, or the object it already is. */
  function SafeJsonParse(raw: Raw): (r: Js)
    ensures RawFalsy(raw) ==> r == JNull
    ensures r == JNull
            || (raw.RString? && Parse(raw.t) == Some(r))
            || (raw.RValue? && raw.v == r && IsObjectLike(r))
    ensures raw.RString? && !RawFalsy(raw) && Parse(raw.t).Some? ==> r == Parse(raw.t).value
    ensures raw.RValue? && !IsObjectLike(raw.v) ==> r == JNull
  {
    if RawFalsy(raw) then JNull
    else match raw
      case RString(t) => (match Parse(t) case Some(v) => v case None => JNull)
      case RValue(v) => if IsObjectLike(v) then v else JNull
  }

  /** The text written by `JSON.stringify(v)` is parsed back to `v`; a text
      `JSON.parse` rejects gives `null`. */
  lemma SafeJsonParseRoundTrip(v: Js, s: string)
    ensures SafeJsonParse(RString(Json(v))) == v
    ensures SafeJsonParse(RString(Garbage(s))) == JNull
  {
  }

  /** The minimal shape of an active-chat mirror: a truthy `chatId` and an
      array `messages`. */
  predicate IsMirrorShape(m: Obj) {
    TruthyOpt(Field(m, "chatId")) && IsArray(Field(m, "messages"))
  }

  /** `safeParseRedisChat(raw)`: the parsed object exactly when the text is
      not blank, parses, and has the mirror shape; `None` otherwise. */
  function SafeParseRedisChat(raw: Option<Text>): (r: Option<Obj>)
    ensures r.Some? <==>
              raw.Some? && !TextBlank(raw.value) && Parse(raw.value).Some?
              && Parse(raw.value).value.JObj? && IsMirrorShape(Parse(raw.value).value.fields)
    ensures r.Some? ==> Parse(raw.value) == Some(JObj(r.value))
  {
    match raw
    case None => None
    case Some(t) =>
      if TextBlank(t) then None
      else match Parse(t)
        case None => None
        case Some(v) => if v.JObj? && IsMirrorShape(v.fields) then Some(v.fields) else None
  }

  /** Every mirror the application writes is read back as it was written. */
  lemma MirrorRoundTrip(m: Obj)
    requires IsMirrorShape(m)
    ensures SafeParseRedisChat(Some(Json(JObj(m)))) == Some(m)
  {
  }

  /** Whatever `safeParseRedisChat` accepts, `safeJsonParse` returns too: the
      former only adds the shape check. */
  lemma SafeParseRedisChatRefines(t: Text)
    requires SafeParseRedisChat(Some(t)).Some?
    ensures SafeJsonParse(RString(t)) == JObj(SafeParseRedisChat(Some(t)).value)
  {
  }
}
