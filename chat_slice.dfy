/** The client's chat list and preview (store/slices/chatSlice.ts). */
module ChatSlice {
  import opened Wrappers
  import opened Json
  import opened AuthSlice

  /** The `chatId` a chat is matched by. */
  function IdOf(c: Obj): Option<Js> {
    Field(c, "chatId")
  }

  /** `c.chatId || c._id`. */
  function ChatIdOf(v: Js): (r: Option<Js>)
    ensures TruthyOpt(Get(v, "chatId")) ==> r == Get(v, "chatId")
    ensures !TruthyOpt(Get(v, "chatId")) ==> r == Get(v, "_id")
  {
    if TruthyOpt(Get(v, "chatId")) then Get(v, "chatId") else Get(v, "_id")
  }

  /** `{ ...c, chatId: c.chatId || c._id }`: every field of `c` is kept and
      `chatId` falls back to `_id`. Reading `chatId` of `null` throws
      (`None`). Only objects contribute fields to the spread. */
  function Normalise(v: Js): (r: Option<Obj>)
    ensures r.None? <==> v.JNull?
    ensures r.Some? ==> IdOf(r.value) == ChatIdOf(v)
    ensures r.Some? ==> forall k :: k != "chatId" ==> Field(r.value, k) == Get(v, k)
  {
    if v.JNull? then None
    else
      var fields := if v.JObj? then v.fields else map[];
      var id := ChatIdOf(v);
      Some(if id.Some? then fields["chatId" := id.value] else fields - {"chatId"})
  }

  /** Normalising a normalised chat changes nothing: a truthy `chatId` is
      kept, and a falsy one already equals `_id`. */
  lemma NormaliseIdempotent(v: Js)
    requires !v.JNull?
    ensures Normalise(JObj(Normalise(v).value)) == Some(Normalise(v).value)
  {
    var c := Normalise(v).value;
    var c' := Normalise(JObj(c)).value;
    assert IdOf(c') == IdOf(c);
    assert forall k :: k != "chatId" ==> Field(c', k) == Field(c, k);
    assert forall k :: k in c' <==> k in c by {
      forall k ensures k in c' <==> k in c {
        assert Field(c', k).Some? <==> Field(c, k).Some?;
      }
    }
    assert forall k :: k in c ==> c'[k] == c[k] by {
      forall k | k in c ensures c'[k] == c[k] {
        assert Field(c', k) == Field(c, k);
      }
    }
    assert c' == c;
  }

  /** `items.map(normalise)`; `None` when an item is `null` and the mapper
      throws. */
  function NormaliseAll(items: seq<Js>): (r: Option<seq<Obj>>)
    ensures r.None? <==> exists i :: 0 <= i < |items| && items[i].JNull?
    ensures r.Some? ==> |r.value| == |items|
                        && forall i :: 0 <= i < |items| ==> Normalise(items[i]) == Some(r.value[i])
  {
    if items == [] then Some([])
    else
      match (Normalise(items[0]), NormaliseAll(items[1..]))
      case (Some(c), Some(rest)) =>
        assert forall i :: 1 <= i < |items| ==> items[i] == items[1..][i - 1];
        Some([c] + rest)
      case (None, _) => None
      case (Some(_), None) =>
        var i :| 0 <= i < |items[1..]| && items[1..][i].JNull?;
        assert items[i + 1].JNull?;
        None
  }

  /** Lines 93-103 for `result.data`: an array has each chat normalised, any
      other value is normalised into a one-element list; `None` where the
      normalisation throws (an `undefined` or `null` result, or a `null`
      element). */
  function Fetched(data: Option<Js>): (r: Option<seq<Obj>>)
    ensures data.None? || data.value.JNull? ==> r.None?
    ensures IsArray(data) ==> r == NormaliseAll(data.value.items)
    ensures data.Some? && !data.value.JNull? && !data.value.JArr? ==> r == Some([Normalise(data.value).value])
  {
    match data
    case None => None
    case Some(v) =>
      if v.JArr? then NormaliseAll(v.items)
      else if v.JNull? then None
      else Some([Normalise(v).value])
  }

  /** Every fetched chat is in normal form: normalising it again changes
      nothing. */
  lemma FetchedAreNormal(data: Option<Js>, i: nat)
    requires Fetched(data).Some? && i < |Fetched(data).value|
    ensures Normalise(JObj(Fetched(data).value[i])) == Some(Fetched(data).value[i])
  {
    var v := if IsArray(data) then data.value.items[i] else data.value;
    assert Normalise(v) == Some(Fetched(data).value[i]);
    NormaliseIdempotent(v);
  }

  /** The `fetchChat` thunk on how `apiRequest` settled: the normalised
      chats, or the rejection `error.message || "Failed to fetch chats"`. */
  datatype Loaded = Loaded(chats: seq<Obj>) | Refused(error: Option<string>)

  function FetchChat(s: Settled): (r: Loaded)
    ensures s.Resolved? && !s.result.JNull? && Fetched(Get(s.result, "data")).Some? ==>
              r == Loaded(Fetched(Get(s.result, "data")).value)
    ensures s.Failed? ==> r == Refused(Some(if s.message != "" then s.message else "Failed to fetch chats"))
    ensures r.Refused? ==> r.error.Some? && r.error.value != ""
  {
    match s
    case Failed(m) => Refused(Some(if m != "" then m else "Failed to fetch chats"))
    case Resolved(result) =>
      if result.JNull? then Refused(Some(ReadFault))
      else
        match Fetched(Get(result, "data"))
        case Some(chats) => Loaded(chats)
        case None => Refused(Some(ReadFault))
  }

  /** The URL `fetchChat` requests: the chat's id as a query parameter when
      one is given. */
  function FetchChatUrl(chatId: Option<string>): (r: string)
    ensures chatId.None? || chatId.value == "" ==> r == "/api/chat"
    ensures chatId.Some? && chatId.value != "" ==> r == "/api/chat?chatId=" + chatId.value
  {
    if chatId.Some? && chatId.value != "" then "/api/chat?chatId=" + chatId.value else "/api/chat"
  }

  /** The request `fetchChat` makes: a GET without a body or cookies. */
  function FetchChatRequest(base: Option<string>, chatId: Option<string>): (r: Request)
    ensures r.url == BaseText(base) + FetchChatUrl(chatId)
    ensures r.verb == GET && r.body.None? && !r.includeCredentials
  {
    BuildRequest(base, FetchChatUrl(chatId), GET, None, false)
  }

  /** `m` with the field `k` set to `v`; `JSON.stringify` leaves out a field
      that is `undefined`. */
  function WithField(m: Obj, k: string, v: Option<Js>): (r: Obj)
    ensures k in r <==> v.Some?
    ensures v.Some? ==> r[k] == v.value
    ensures forall j :: j != k ==> Field(r, j) == Field(m, j)
  {
    if v.Some? then m[k := v.value] else m - {k}
  }

  /** The request `deleteChat` makes: a DELETE of `{ chatId, deleteAll }`
      without cookies. */
  function DeleteChatRequest(base: Option<string>, chatId: Option<Js>, deleteAll: Option<Js>): (r: Request)
    ensures r.url == BaseText(base) + "/api/chat/delete" && r.verb == DELETE && !r.includeCredentials
    ensures r.body == Some(JObj(WithField(WithField(map[], "chatId", chatId), "deleteAll", deleteAll)))
  {
    BuildRequest(base, "/api/chat/delete", DELETE,
                 Some(JObj(WithField(WithField(map[], "chatId", chatId), "deleteAll", deleteAll))), false)
  }

  /** The request `updateChatTitle` makes: a PATCH of `{ chatId, title }`
      without cookies. */
  function UpdateTitleRequest(base: Option<string>, chatId: Option<Js>, title: string): (r: Request)
    ensures r.url == BaseText(base) + "/api/chat/update" && r.verb == PATCH && !r.includeCredentials
    ensures r.body.Some? && r.body.value.JObj?
    ensures Get(r.body.value, "title") == Some(JStr(title)) && Get(r.body.value, "chatId") == chatId
  {
    BuildRequest(base, "/api/chat/update", PATCH,
                 Some(JObj(WithField(map[], "chatId", chatId)["title" := JStr(title)])), false)
  }

  /** The request `createChat` makes, for the value `base` of the
      `BASE_API_URL` binding the module imports: the endpoint is built without
      "/api", so the base is not put in front of it a second time. */
  function CreateChatRequest(base: Option<string>): (r: Request)
    ensures !StartsWith(BaseText(base), "/api") ==> r.url == BaseText(base) + "/chat/create"
    ensures r.verb == POST && r.body.None? && !r.includeCredentials
  {
    CreatePathKeepsPrefix(BaseText(base));
    BuildRequest(base, BaseText(base) + "/chat/create", POST, None, false)
  }

  /** Appending "/chat/create" cannot make a text start with "/api". */
  lemma CreatePathKeepsPrefix(b: string)
    ensures StartsWith(b + "/chat/create", "/api") ==> StartsWith(b, "/api")
  {
    var t := b + "/chat/create";
    if |b| == 0 {
      assert t[1] == 'c' != "/api"[1];
      assert t[..4] != "/api";
    } else if |b| < 4 {
      assert t[|b|] == '/' != "/api"[|b|];
      assert t[..4][|b|] != "/api"[|b|];
    } else {
      assert t[..4] == b[..4];
    }
  }

  /** authSlice.ts declares `BASE_API_URL` without exporting it, so the
      imported binding is `undefined` and the chat is created at a path
      relative to the page, not under "/api". */
  lemma CreateChatPathRelative()
    ensures CreateChatRequest(None).url == "undefined/chat/create"
  {
    assert !StartsWith("undefined", "/api") by {
      assert "undefined"[0] != "/api"[0];
    }
  }

  /** How `deleteChat`, `updateChatTitle` and `createChat` settle: the
      returned chat, or the rejection value. */
  datatype Saved = Saved(chat: Obj) | NotSaved(error: string)

  /** The thunk body `return { ...result.data, chatId: result.data.chatId ||
      result.data._id }` with its catch block `rejectWithValue(error.message
      || fallback)`. Reading a field of a missing or `null` `data` throws,
      and that error is caught too. */
  function SavedChat(s: Settled, fallback: string): (r: Saved)
    ensures s.Resolved? && TruthyOpt(Get(s.result, "data")) ==>
              var data := Get(s.result, "data").value;
              r == Saved(Normalise(data).value) && IdOf(r.chat) == ChatIdOf(data)
    ensures s.Resolved? && (Get(s.result, "data").None? || Get(s.result, "data").value.JNull?) ==>
              r == NotSaved(ReadFault)
    ensures s.Failed? ==> r == NotSaved(if s.message != "" then s.message else fallback)
  {
    match s
    case Failed(m) => NotSaved(if m != "" then m else fallback)
    case Resolved(result) =>
      var data := Get(result, "data");
      if data.None? then NotSaved(ReadFault)
      else
        match Normalise(data.value)
        case None => NotSaved(ReadFault)
        case Some(c) => Saved(c)
  }

  /** The `createChat` thunk body: the returned `data.chat` normalised; the
      returned `history` is not kept by the reducer. */
  function CreatedChat(s: Settled): (r: Saved)
    ensures s.Resolved? && Get(s.result, "data").Some? && TruthyOpt(Get(Get(s.result, "data").value, "chat")) ==>
              var chat := Get(Get(s.result, "data").value, "chat").value;
              r == Saved(Normalise(chat).value) && IdOf(r.chat) == ChatIdOf(chat)
    ensures s.Failed? ==> r == NotSaved(if s.message != "" then s.message else "Failed to create chat")
    ensures r.NotSaved? ==> r.error != ""
  {
    match s
    case Failed(m) => NotSaved(if m != "" then m else "Failed to create chat")
    case Resolved(result) =>
      var data := Get(result, "data");
      if data.None? then NotSaved(ReadFault)
      else
        var chat := Get(data.value, "chat");
        if chat.None? then NotSaved(ReadFault)
        else
          match Normalise(chat.value)
          case None => NotSaved(ReadFault)
          case Some(c) => Saved(c)
  }

  /** A saved chat is in normal form: normalising it again changes nothing. */
  lemma SavedChatIsNormal(s: Settled, fallback: string)
    requires SavedChat(s, fallback).Saved?
    ensures Normalise(JObj(SavedChat(s, fallback).chat)) == Some(SavedChat(s, fallback).chat)
  {
    NormaliseIdempotent(Get(s.result, "data").value);
  }

  /** `x?.at(-1)`: the last element (or character) of an array or string,
      `None` for an empty or missing one, `Fault` where `at` is not a
      function and the call throws. */
  datatype Read = Value(v: Option<Js>) | Fault

  function LastOf(o: Option<Js>): (r: Read)
    ensures o.Some? && o.value.JArr? && o.value.items != [] ==> r == Value(Some(o.value.items[|o.value.items| - 1]))
    ensures r.Fault? <==> o.Some? && (o.value.JBool? || o.value.JNum? || o.value.JObj?)
  {
    match o
    case None => Value(None)
    case Some(v) =>
      match v
      case JNull => Value(None)
      case JArr(items) => Value(if items == [] then None else Some(items[|items| - 1]))
      case JStr(s) => Value(if s == "" then None else Some(JStr([s[|s| - 1]])))
      case _ => Fault
  }

  /** Lines 205-207: the component of the last message of the last chat,
      or `null` when any step is missing or the component is falsy. */
  function PreviewOf(chats: seq<Obj>): (r: Read)
    ensures chats == [] ==> r == Value(None)
    ensures r.Value? && r.v.Some? ==> Truthy(r.v.value)
    ensures chats != [] ==> (r.Fault? <==> LastOf(Field(chats[|chats| - 1], "messages")).Fault?)
  {
    if chats == [] then Value(None)
    else
      match LastOf(Field(chats[|chats| - 1], "messages"))
      case Fault => Fault
      case Value(m) =>
        var component := if m.Some? then (match Get(m.value, "aiResponse") case Some(a) => Get(a, "component") case None => None)
                         else None;
        Value(if TruthyOpt(component) then component else None)
  }

  /** The component of a well-formed last message is what the preview
      shows. */
  lemma PreviewShowsLastComponent(chats: seq<Obj>, earlier: seq<Js>, component: Js, rest: Obj)
    requires chats != [] && Truthy(component)
    requires Field(chats[|chats| - 1], "messages")
               == Some(JArr(earlier + [JObj(map["aiResponse" := JObj(rest["component" := component])])]))
    ensures PreviewOf(chats) == Value(Some(component))
  {
    var items := earlier + [JObj(map["aiResponse" := JObj(rest["component" := component])])];
    assert items[|items| - 1] == JObj(map["aiResponse" := JObj(rest["component" := component])]);
  }

  /** `chats.filter(chat => chat.chatId !== id)`. */
  function RemoveChat(chats: seq<Obj>, id: Option<Js>): (r: seq<Obj>)
    ensures |r| <= |chats|
    ensures forall c :: c in r ==> c in chats && IdOf(c) != id
    ensures forall c :: c in chats && IdOf(c) != id ==> c in r
  {
    if chats == [] then []
    else if IdOf(chats[0]) != id then [chats[0]] + RemoveChat(chats[1..], id)
    else RemoveChat(chats[1..], id)
  }

  /** Filtering keeps the order: it distributes over concatenation. */
  lemma {:induction false} RemoveChatAppend(a: seq<Obj>, b: seq<Obj>, id: Option<Js>)
    ensures RemoveChat(a + b, id) == RemoveChat(a, id) + RemoveChat(b, id)
  {
    if a == [] {
      assert a + b == b;
    } else {
      assert (a + b)[1..] == a[1..] + b;
      RemoveChatAppend(a[1..], b, id);
    }
  }

  /** Deleting twice is deleting once. */
  lemma {:induction false} RemoveChatIdempotent(chats: seq<Obj>, id: Option<Js>)
    ensures RemoveChat(RemoveChat(chats, id), id) == RemoveChat(chats, id)
  {
    if chats != [] {
      RemoveChatIdempotent(chats[1..], id);
    }
  }

  /** Deleting a chat that was just created leaves the list as deleting it
      before would have. */
  lemma CreateThenDelete(chats: seq<Obj>, chat: Obj)
    ensures RemoveChat(chats + [chat], IdOf(chat)) == RemoveChat(chats, IdOf(chat))
  {
    RemoveChatAppend(chats, [chat], IdOf(chat));
    assert [chat][1..] == [];
  }

  /** `chats.map(chat => chat.chatId === p.chatId ? p : chat)`. */
  function ReplaceChat(chats: seq<Obj>, p: Obj): (r: seq<Obj>)
    ensures |r| == |chats|
    ensures forall i :: 0 <= i < |chats| ==> IdOf(r[i]) == IdOf(chats[i])
    ensures forall i :: 0 <= i < |chats| && IdOf(chats[i]) != IdOf(p) ==> r[i] == chats[i]
    ensures forall i :: 0 <= i < |chats| && IdOf(chats[i]) == IdOf(p) ==> r[i] == p
  {
    if chats == [] then []
    else [if IdOf(chats[0]) == IdOf(p) then p else chats[0]] + ReplaceChat(chats[1..], p)
  }

  /** Applying the same update twice is applying it once. */
  lemma ReplaceChatIdempotent(chats: seq<Obj>, p: Obj)
    ensures ReplaceChat(ReplaceChat(chats, p), p) == ReplaceChat(chats, p)
  {
  }

  /** An update never changes which chats a later delete keeps. */
  lemma {:induction false} ReplaceThenRemove(chats: seq<Obj>, p: Obj, id: Option<Js>)
    requires id != IdOf(p)
    ensures RemoveChat(ReplaceChat(chats, p), id) == ReplaceChat(RemoveChat(chats, id), p)
  {
    if chats != [] {
      ReplaceThenRemove(chats[1..], p, id);
      assert ReplaceChat(chats, p)[1..] == ReplaceChat(chats[1..], p);
    }
  }

  /** The chat state of the client. */
  class ChatState {
    var chats: seq<Obj>
    var preview: Option<Js>
    var loading: bool
    var error: Option<string>

    constructor()
      ensures chats == [] && preview.None? && !loading && error.None?
    {
      chats := [];
      preview := None;
      loading := false;
      error := None;
    }

    /** `handlePending`, shared by the four thunks. */
    method Pending()
      modifies this
      ensures loading && error.None?
      ensures chats == old(chats) && preview == old(preview)
    {
      loading := true;
      error := None;
    }

    /** `handleRejected`, shared by the four thunks. */
    method Rejected(payload: Option<string>)
      modifies this
      ensures !loading && error == payload
      ensures chats == old(chats) && preview == old(preview)
    {
      loading := false;
      error := payload;
    }

    /** `clearChats`. */
    method ClearChats()
      modifies this
      ensures chats == [] && preview.None?
      ensures loading == old(loading) && error == old(error)
    {
      chats := [];
      preview := None;
    }

    /** `clearPreview`. */
    method ClearPreview()
      modifies this
      ensures preview.None?
      ensures chats == old(chats) && loading == old(loading) && error == old(error)
    {
      preview := None;
    }

    /** Fulfilled `fetchChat`: the fetched chats replace the list and the
        preview is recomputed. When reading the preview throws, the
        reducer's changes are discarded. */
    method FetchFulfilled(payload: seq<Obj>)
      modifies this
      ensures PreviewOf(payload).Fault? ==>
                chats == old(chats) && preview == old(preview) && loading == old(loading) && error == old(error)
      ensures PreviewOf(payload).Value? ==>
                !loading && chats == payload && preview == PreviewOf(payload).v && error == old(error)
    {
      var p := PreviewOf(payload);
      if p.Fault? {
        return;
      }
      loading := false;
      chats := payload;
      preview := p.v;
    }

    /** Fulfilled `deleteChat`: every chat with the deleted chat's id goes. */
    method DeleteFulfilled(payload: Obj)
      modifies this
      ensures !loading && chats == RemoveChat(old(chats), IdOf(payload))
      ensures preview == old(preview) && error == old(error)
    {
      loading := false;
      chats := RemoveChat(chats, IdOf(payload));
    }

    /** Fulfilled `updateChatTitle`: every chat with the payload's id is
        replaced by the payload. */
    method UpdateFulfilled(payload: Obj)
      modifies this
      ensures !loading && chats == ReplaceChat(old(chats), payload)
      ensures preview == old(preview) && error == old(error)
    {
      loading := false;
      chats := ReplaceChat(chats, payload);
    }

    /** Fulfilled `createChat`: the new chat goes to the end of the list. */
    method CreateFulfilled(chat: Obj)
      modifies this
      ensures !loading && chats == old(chats) + [chat]
      ensures preview == old(preview) && error == old(error)
    {
      loading := false;
      chats := chats + [chat];
    }
  }
}
