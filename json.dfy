/** JSON values as the application handles them once `JSON.parse` has run,
    JavaScript truthiness and string conversion over them, and the text kept
    under a JSON-valued cache key. */
module Json {
  import opened Wrappers

  /** A parsed JSON value. Numbers are integers: fractions, NaN and the
      infinities never occur in the values this application stores. An object
      field that is `undefined` is simply absent from `fields`. */
  datatype Js =
    | JNull
    | JBool(b: bool)
    | JNum(n: int)
    | JStr(s: string)
    | JArr(items: seq<Js>)
    | JObj(fields: map<string, Js>)

  type Obj = map<string, Js>

  /** JavaScript truthiness: `null`, `false`, `0` and `""` are falsy; arrays and
      objects, even empty ones, are truthy. */
  predicate Truthy(v: Js) {
    match v
    case JNull => false
    case JBool(b) => b
    case JNum(n) => n != 0
    case JStr(s) => s != ""
    case JArr(_) => true
    case JObj(_) => true
  }

  /** Truthiness of a possibly `undefined` value. */
  /** `typeof v`. */
  function TypeOf(v: Js): (r: string)
    ensures r == "string" <==> v.JStr?
    ensures r == "object" <==> v.JNull? || v.JArr? || v.JObj?
  {
    match v
    case JNull => "object"
    case JBool(_) => "boolean"
    case JNum(_) => "number"
    case JStr(_) => "string"
    case JArr(_) => "object"
    case JObj(_) => "object"
  }

  predicate TruthyOpt(o: Option<Js>) {
    o.Some? && Truthy(o.value)
  }

  /** `v?.k`: the field `k` of `v` when `v` is an object that has it. */
  function Get(v: Js, k: string): Option<Js> {
    if v.JObj? && k in v.fields then Some(v.fields[k]) else None
  }

  /** Field lookup on an object that is known to be one. */
  function Field(m: Obj, k: string): Option<Js> {
    if k in m then Some(m[k]) else None
  }

  /** `Array.isArray(x)` for a possibly `undefined` value. */
  predicate IsArray(o: Option<Js>) {
    o.Some? && o.value.JArr?
  }

  /** Strings as a JSON array of strings. */
  function StrArr(ids: seq<string>): (r: seq<Js>)
    ensures |r| == |ids|
    ensures forall i :: 0 <= i < |ids| ==> r[i] == JStr(ids[i])
  {
    seq(|ids|, i requires 0 <= i < |ids| => JStr(ids[i]))
  }

  lemma StrArrSnoc(ids: seq<string>)
    requires ids != []
    ensures StrArr(ids) == StrArr(ids[..|ids| - 1]) + [JStr(ids[|ids| - 1])]
  {
  }

  /** Text found under a JSON-valued cache key, represented by what
      `JSON.parse` makes of it: `Json(v)` is a text that parses to `v` (every
      text written with `JSON.stringify(v)` is one), `Garbage(s)` is a text `s`
      that `JSON.parse` rejects. */
  datatype Text = Json(v: Js) | Garbage(s: string)

  /** `JSON.parse(t)`; `None` where it throws. */
  function Parse(t: Text): Option<Js> {
    match t
    case Json(v) => Some(v)
    case Garbage(_) => None
  }

  /** A text is falsy only when it is the empty string; a JSON text never is. */
  predicate TextFalsy(t: Text) {
    t.Garbage? && t.s == ""
  }

  /** `t.trim() === ""`: a JSON text always holds a token, so only garbage can be blank. */
  predicate TextBlank(t: Text) {
    t.Garbage? && IsBlank(t.s)
  }

  /** The characters `String.prototype.trim` removes: white space and line terminators. */
  predicate IsWs(c: char) {
    c == ' ' || c == '\t' || c == '\n' || c == '\r' || c == '\U{000B}' || c == '\U{000C}'
    || c == '\U{00A0}' || c == '\U{1680}' || ('\U{2000}' <= c <= '\U{200A}')
    || c == '\U{2028}' || c == '\U{2029}' || c == '\U{202F}' || c == '\U{205F}'
    || c == '\U{3000}' || c == '\U{FEFF}'
  }

  predicate IsBlank(s: string) {
    forall i :: 0 <= i < |s| ==> IsWs(s[i])
  }

  function TrimStart(s: string): (r: string)
    ensures |r| <= |s|
    ensures r == s[|s| - |r|..]
    ensures r == "" || !IsWs(r[0])
    ensures IsBlank(s[..|s| - |r|])
  {
    if s == [] || !IsWs(s[0]) then s
    else
      var r := TrimStart(s[1..]);
      assert s[1..][..|s[1..]| - |r|] == s[1..|s| - |r|];
      r
  }

  function TrimEnd(s: string): (r: string)
    ensures |r| <= |s|
    ensures r == s[..|r|]
    ensures r == "" || !IsWs(r[|r| - 1])
    ensures IsBlank(s[|r|..])
  {
    if s == [] || !IsWs(s[|s| - 1]) then s
    else
      var r := TrimEnd(s[..|s| - 1]);
      assert s[..|s| - 1][|r|..] == s[|r|..|s| - 1];
      r
  }

  /** A blank prefix followed by a blank rest is blank. */
  lemma BlankJoin(s: string, k: nat)
    requires k <= |s| && IsBlank(s[..k]) && IsBlank(s[k..])
    ensures IsBlank(s)
  {
    forall i | 0 <= i < |s| ensures IsWs(s[i]) {
      if i < k {
        assert s[..k][i] == s[i];
      } else {
        assert s[k..][i - k] == s[i];
      }
    }
  }

  /** `s.trim()`. */
  function Trim(s: string): (r: string)
    ensures r == "" <==> IsBlank(s)
    ensures r == "" || (!IsWs(r[0]) && !IsWs(r[|r| - 1]))
  {
    var a := TrimStart(s);
    var r := TrimEnd(a);
    if r == "" then
      assert a[|r|..] == a;
      BlankJoin(s, |s| - |a|);
      r
    else r
  }

  /** The decimal spelling of a natural number. */
  function NatToString(n: nat): (r: string)
    ensures |r| >= 1
    ensures forall i :: 0 <= i < |r| ==> '0' <= r[i] <= '9'
    decreases n
  {
    var d := [(48 + n % 10) as char];
    if n < 10 then d else NatToString(n / 10) + d
  }

  /** `String(v)`: the text JavaScript makes of a value. Array elements that are
      `null` become empty, as `Array.prototype.join` does. */
  function JsString(v: Js): (r: string)
    ensures v.JStr? ==> r == v.s
    ensures v.JNum? ==> |r| >= 1 && (r[0] == '-' <==> v.n < 0)
    ensures v.JArr? && |v.items| == 0 ==> r == ""
    decreases v, 1
  {
    match v
    case JNull => "null"
    case JBool(b) => if b then "true" else "false"
    case JNum(n) => if n < 0 then "-" + NatToString(-n) else NatToString(n)
    case JStr(s) => s
    case JArr(items) => JoinItems(v, 0)
    case JObj(_) => "[object Object]"
  }

  function JoinItems(v: Js, from: nat): string
    requires v.JArr?
    decreases v, 0, |v.items| - from
  {
    if from >= |v.items| then ""
    else
      var e := v.items[from];
      var text := if e.JNull? then "" else JsString(e);
      var rest := JoinItems(v, from + 1);
      if from + 1 < |v.items| then text + "," + rest else text
  }

  /** `v.toString()` / `v?.toString()`: `None` for `null`, where the call throws
      or the optional chain yields `undefined`. */
  function ToStringCall(v: Js): (r: Option<string>)
    ensures r.None? <==> v.JNull?
    ensures v.JStr? ==> r == Some(v.s)
  {
    if v.JNull? then None else Some(JsString(v))
  }

  /** `items.map(m => m.toString())`: `None` where an element is `null` and the
      call throws. */
  function ToStrings(items: seq<Js>): (r: Option<seq<Js>>)
    ensures r.None? <==> exists i :: 0 <= i < |items| && items[i].JNull?
    ensures r.Some? ==> |r.value| == |items|
                        && forall i :: 0 <= i < |items| ==> r.value[i] == JStr(JsString(items[i]))
  {
    if exists i :: 0 <= i < |items| && items[i].JNull? then None
    else Some(seq(|items|, i requires 0 <= i < |items| => JStr(JsString(items[i]))))
  }

  /** A list of strings is converted to itself. */
  lemma ToStringsOfStrings(ids: seq<string>)
    ensures ToStrings(StrArr(ids)) == Some(StrArr(ids))
  {
    var items := StrArr(ids);
    assert forall i :: 0 <= i < |items| ==> items[i] == JStr(ids[i]) && JsString(items[i]) == ids[i];
    assert !exists i :: 0 <= i < |items| && items[i].JNull?;
    assert ToStrings(items).value == items;
  }
}
