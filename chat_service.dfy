/** Active-chat resolution and message attachment (lib/services/chat.service.ts). */
module ChatService {
  import opened Wrappers
  import opened Json
  import opened Ids
  import opened Seqs
  import opened Utils
  import opened Api
  import opened Records
  import opened Store

  /** Lifetime of an active-chat mirror: 24 hours. */
  const ActiveTtl: int := 86400
  /** Number of message ids an active-chat mirror keeps. */
  const MessageLimit: nat := 50
  const DefaultTitle: string := "New Chat"

  /** `chat:{id}:active`, with every non-hex character of the investor id removed. */
  function ActiveKey(investorId: string): string {
    "chat:" + StripNonHex(investorId) + ":active"
  }

  /** The key depends only on the hex digits of the id: sanitising first
      changes nothing, and characters that are not hex digits are ignored
      wherever they occur. */
  lemma ActiveKeySanitised(a: string, junk: string, b: string)
    requires StripNonHex(junk) == ""
    ensures ActiveKey(StripNonHex(a)) == ActiveKey(a)
    ensures ActiveKey(a + junk + b) == ActiveKey(a + b)
  {
    StripNonHexIdempotent(a);
    StripNonHexAppend(a + junk, b);
    StripNonHexAppend(a, junk);
    StripNonHexAppend(a, b);
    assert StripNonHex(a + junk) == StripNonHex(a);
    assert StripNonHex(a + junk + b) == StripNonHex(a + b);
  }

  /** A chat as `Chat.create` makes it: default title and no messages. */
  function NewChatRec(investorId: string, now: int): ChatRec {
    ChatRec(investorId, DefaultTitle, [], now)
  }

  /** The mirror written for a newly created chat. */
  function NewMirror(chatId: string, safeInvestorId: string, now: int): (m: Obj)
    ensures chatId != "" ==> IsMirrorShape(m)
    ensures "chatId" in m && "messages" in m && m["messages"] == JArr([])
    ensures IsCanonical(chatId) ==> Cast(m["chatId"]) == Some(chatId)
  {
    map["chatId" := JStr(chatId), "messages" := JArr([]), "investorId" := JStr(safeInvestorId),
        "title" := JStr(DefaultTitle), "createdAt" := JNum(now)]
  }

  /** The mirror built from a stored chat: its id, its message ids as
      strings, its owner, title and creation time. */
  function DocMirror(doc: ChatDoc): (m: Obj)
    ensures doc.id != "" ==> IsMirrorShape(m)
    ensures "chatId" in m && "messages" in m && m["messages"] == JArr(StrArr(doc.rec.messages))
    ensures IsCanonical(doc.id) ==> Cast(m["chatId"]) == Some(doc.id)
  {
    map["chatId" := JStr(doc.id), "messages" := JArr(StrArr(doc.rec.messages)),
        "investorId" := JStr(doc.rec.investorId), "title" := JStr(doc.rec.title),
        "createdAt" := JNum(doc.rec.createdAt)]
  }

  /** The reduced mirror attach builds when it is given none. */
  function BareMirror(doc: ChatDoc): (m: Obj)
    ensures doc.id != "" ==> IsMirrorShape(m)
    ensures "chatId" in m && "messages" in m && m["messages"] == JArr(StrArr(doc.rec.messages))
    ensures IsCanonical(doc.id) ==> Cast(m["chatId"]) == Some(doc.id)
  {
    map["chatId" := JStr(doc.id), "messages" := JArr(StrArr(doc.rec.messages))]
  }

  /** What `resolveChat` reads under the active key: `null` when the key is
      missing, otherwise what `safeJsonParse` makes of the text. */
  function CachedValue(t: Option<Text>): Js {
    match t
    case None => JNull
    case Some(x) => SafeJsonParse(RString(x))
  }

  /** The chat id the cached mirror names, when it is a valid id. */
  function MirrorChatId(cached: Js): (r: Option<string>)
    ensures r.Some? ==> cached.JObj? && IsIdValue(Get(cached, "chatId"))
    ensures r.Some? ==> IsCanonical(r.value)
  {
    var c := Get(cached, "chatId");
    if IsIdValue(c) then Some(Canon(c.value.s)) else None
  }

  /** The chat the caller names, when it is a valid id of a stored chat. */
  function CallerChat(chats: map<string, ChatRec>, chatId: Option<Js>): Option<string> {
    if IsIdValue(chatId) && Canon(chatId.value.s) in chats then Some(Canon(chatId.value.s)) else None
  }

  datatype Resolved = Resolved(chat: ChatDoc, mirror: Obj, key: string)

  /** Outcome of step 3, creating a chat for the sanitised investor id: the
      cast of an id that is not 24 hex digits throws, in the fallback too. */
  function CreateOutcome(investorId: string, freshId: string, now: int): Outcome<Resolved> {
    var safe := StripNonHex(investorId);
    if IsValidId(safe) then
      Ok(Resolved(ChatDoc(freshId, NewChatRec(Canon(safe), now)), NewMirror(freshId, safe, now),
                  ActiveKey(investorId)))
    else Throws(BsonError)
  }

  /** The cache after step 3 from `base`: the new mirror written with the
      mirror lifetime, or nothing written when the create threw. */
  function AfterCreate(base: map<string, Entry<Text>>, investorId: string, freshId: string, now: int)
    : map<string, Entry<Text>>
  {
    var safe := StripNonHex(investorId);
    if IsValidId(safe) then base[ActiveKey(investorId) := Entry(Json(JObj(NewMirror(freshId, safe, now))), ActiveTtl)]
    else base
  }

  /** Steps 1 and 2 of `resolveChat`: the caller's chat, else the chat the
      cached mirror names (with the cached object as mirror); a mirror naming
      a missing chat is deleted. */
  method FindActive(db: Db, cache: Cache, investorId: string, chatId: Option<Js>)
    returns (found: Option<ChatDoc>, mirror: Option<Obj>)
    modifies cache
    ensures OnlyJsonChanged(cache)
    ensures CallerChat(db.chats, chatId).Some? ==>
              var id := CallerChat(db.chats, chatId).value;
              found == Some(ChatDoc(id, db.chats[id])) && mirror.None? && cache.json == old(cache.json)
    ensures CallerChat(db.chats, chatId).None? ==>
              var cached := CachedValue(ValueOf(old(cache.json), ActiveKey(investorId)));
              var mid := MirrorChatId(cached);
              (mid.Some? && mid.value in db.chats ==>
                 found == Some(ChatDoc(mid.value, db.chats[mid.value])) && mirror == Some(cached.fields)
                 && cache.json == old(cache.json))
              && (mid.Some? && mid.value !in db.chats ==>
                 found.None? && cache.json == old(cache.json) - {ActiveKey(investorId)})
              && (mid.None? ==> found.None? && cache.json == old(cache.json))
  {
    var key := "chat:" + StripNonHex(investorId) + ":active";
    found, mirror := None, None;
    if IsIdValue(chatId) {
      var id := Canon(chatId.value.s);
      if id in db.chats {
        found := Some(ChatDoc(id, db.chats[id]));
        return;
      }
    }
    var cached := CachedValue(cache.GetJson(key));
    var mid := MirrorChatId(cached);
    if mid.Some? {
      if mid.value in db.chats {
        found := Some(ChatDoc(mid.value, db.chats[mid.value]));
        mirror := Some(cached.fields);
      } else {
        cache.DelJson(key);
      }
    }
  }

  /** Step 3 of `resolveChat`: a new chat for the sanitised investor id and
      its mirror with the mirror lifetime. A create that throws is retried
      once by the fallback with the same arguments, so an id that does not
      sanitise to 24 hex digits throws out of `resolveChat`. */
  method CreateActive(db: Db, cache: Cache, investorId: string, freshId: string, now: int)
    returns (r: Outcome<Resolved>)
    requires freshId !in db.chats
    modifies db, cache
    ensures OnlyChatsChanged(db) && OnlyJsonChanged(cache)
    ensures r == CreateOutcome(investorId, freshId, now)
    ensures cache.json == AfterCreate(old(cache.json), investorId, freshId, now)
    ensures r.Ok? ==> db.chats == old(db.chats)[freshId := r.value.chat.rec]
    ensures r.Throws? ==> db.chats == old(db.chats)
  {
    var safe := StripNonHex(investorId);
    var key := "chat:" + safe + ":active";
    if !IsValidId(safe) {
      return Throws(BsonError);
    }
    var doc := ChatDoc(freshId, NewChatRec(Canon(safe), now));
    db.chats := db.chats[freshId := doc.rec];
    var m := NewMirror(freshId, safe, now);
    ghost var before := cache.json;
    cache.SetJson(key, Json(JObj(m)));
    cache.ExpireJson(key, ActiveTtl);
    SetThenExpire(before, key, Json(JObj(m)), ActiveTtl);
    r := Ok(Resolved(doc, m, key));
  }

  /** `resolveChat(investorId, chatId)`: the caller's chat when `chatId` is a
      valid id of a stored chat (with no owner check and no cache read),
      otherwise the chat the cached mirror names, otherwise a new chat; a
      mirror naming a missing chat is deleted first. `freshId` is the id the
      store gives a created chat and `now` its creation time. */
  method ResolveChat(db: Db, cache: Cache, investorId: string, chatId: Option<Js>, freshId: string, now: int)
    returns (r: Outcome<Resolved>)
    requires IsCanonical(freshId) && freshId !in db.chats
    modifies db, cache
    ensures OnlyChatsChanged(db) && OnlyJsonChanged(cache)
    // 1. the caller's chat, looked up by id alone
    ensures CallerChat(old(db.chats), chatId).Some? ==>
              var id := CallerChat(old(db.chats), chatId).value;
              r == Ok(Resolved(ChatDoc(id, old(db.chats)[id]), DocMirror(ChatDoc(id, old(db.chats)[id])),
                               ActiveKey(investorId)))
              && db.chats == old(db.chats) && cache.json == old(cache.json)
    // 2. the chat the mirror names, with the cached object kept as the mirror
    ensures CallerChat(old(db.chats), chatId).None? ==>
              var cached := CachedValue(ValueOf(old(cache.json), ActiveKey(investorId)));
              var mid := MirrorChatId(cached);
              (mid.Some? && mid.value in old(db.chats) ==>
                 r == Ok(Resolved(ChatDoc(mid.value, old(db.chats)[mid.value]), cached.fields, ActiveKey(investorId)))
                 && db.chats == old(db.chats) && cache.json == old(cache.json))
    // 3. a stale mirror is deleted and a chat created
              && (mid.Some? && mid.value !in old(db.chats) ==>
                 r == CreateOutcome(investorId, freshId, now)
                 && cache.json == AfterCreate(old(cache.json) - {ActiveKey(investorId)}, investorId, freshId, now))
    // 4. no usable mirror: a chat is created
              && (mid.None? ==>
                 r == CreateOutcome(investorId, freshId, now)
                 && cache.json == AfterCreate(old(cache.json), investorId, freshId, now))
              && (r.Ok? && r.value.chat.id == freshId ==> db.chats == old(db.chats)[freshId := r.value.chat.rec])
              && (r.Throws? || r.value.chat.id != freshId ==> db.chats == old(db.chats))
  {
    var found, mirror := FindActive(db, cache, investorId, chatId);
    if found.None? {
      r := CreateActive(db, cache, investorId, freshId, now);
      return;
    }
    var m := if mirror.Some? then mirror.value else DocMirror(found.value);
    r := Ok(Resolved(found.value, m, ActiveKey(investorId)));
  }

  /** On every path the mirror returned names the chat returned. */
  lemma ResolvedMirrorNamesChat(chats: map<string, ChatRec>, json: map<string, Entry<Text>>,
                                investorId: string, chatId: Option<Js>, freshId: string, now: int)
    requires IsCanonical(freshId)
    ensures CallerChat(chats, chatId).Some? ==>
              var id := CallerChat(chats, chatId).value;
              Cast(DocMirror(ChatDoc(id, chats[id]))["chatId"]) == Some(id)
    ensures var mid := MirrorChatId(CachedValue(ValueOf(json, ActiveKey(investorId))));
            mid.Some? ==> Cast(CachedValue(ValueOf(json, ActiveKey(investorId))).fields["chatId"]) == mid
    ensures CreateOutcome(investorId, freshId, now).Ok? ==>
              var res := CreateOutcome(investorId, freshId, now).value;
              Cast(res.mirror["chatId"]) == Some(res.chat.id)
  {
  }

  /** A created chat's mirror is the one the next resolution finds: the next
      call with no caller id returns the same chat. */
  lemma CreatedMirrorIsFound(investorId: string, freshId: string, now: int)
    requires IsCanonical(freshId) && IsValidId(StripNonHex(investorId))
    ensures var json := AfterCreate(map[], investorId, freshId, now);
            MirrorChatId(CachedValue(ValueOf(json, ActiveKey(investorId)))) == Some(freshId)
  {
    CanonicalIsValid(freshId);
  }

  // ------------------------------------------------------------------
  // Attaching a message
  // ------------------------------------------------------------------

  /** The mirror's message window after attaching `msgId`: the id appended
      when absent, then only the newest fifty kept. */
  function Window(items: seq<Js>, msgId: string): (r: seq<Js>)
    ensures |r| <= MessageLimit
    ensures r == Newest(AddOnce(items, JStr(msgId)), MessageLimit)
    ensures JStr(msgId) !in items ==> r[|r| - 1] == JStr(msgId)
  {
    Newest(AddOnce(items, JStr(msgId)), MessageLimit)
  }

  /** `s.includes(sub)` on strings. */
  predicate HasSubstring(s: string, sub: string) {
    exists i, j :: 0 <= i <= j <= |s| && s[i..j] == sub
  }

  /** The mirror's `messages` value after attach, `None` where attach throws
      a TypeError: a falsy value is taken as an empty list, an array gets the
      window, a string that already contains the id is cut to its last fifty
      characters, and any other value cannot be appended to. */
  function NextMessages(field: Option<Js>, msgId: string): (r: Option<Js>)
    ensures !TruthyOpt(field) ==> r == Some(JArr(Window([], msgId)))
    ensures IsArray(field) ==> r == Some(JArr(Window(field.value.items, msgId)))
    ensures r.Some? ==> TruthyOpt(field) ==> field.value.JArr? || field.value.JStr?
  {
    if !TruthyOpt(field) then Some(JArr(Window([], msgId)))
    else match field.value
      case JArr(items) => Some(JArr(Window(items, msgId)))
      case JStr(s) =>
        if HasSubstring(s, msgId) then Some(JStr(Newest(s, MessageLimit))) else None
      case _ => None
  }

  /** The stored chat after attach's save: the id pushed onto the stored list. */
  function Pushed(rec: ChatRec, msgId: string): ChatRec {
    rec.(messages := rec.messages + [msgId])
  }

  /** The window update of attach on a mirror: the new mirror to write, or
      `None` where attach throws before writing. */
  function MirrorAfterAttach(m: Obj, msgId: string): Option<Obj> {
    var next := NextMessages(Field(m, "messages"), msgId);
    if next.Some? then Some(m["messages" := next.value]) else None
  }

  /** The chat document attach works on: `chat` itself when it is a loaded
      document, otherwise the stored chat with its id, if there still is one. */
  function AttachTarget(chats: map<string, ChatRec>, chat: ChatDoc, live: bool): Option<ChatDoc> {
    if live then Some(chat)
    else if chat.id in chats then Some(ChatDoc(chat.id, chats[chat.id]))
    else None
  }

  /** Lines 190-205: the mirror's window updated and written back with the
      mirror lifetime; a TypeError leaves mirror and cache as they are. */
  method UpdateMirror(cache: Cache, m: Obj, msgId: string, key: string) returns (r: Obj)
    modifies cache
    ensures OnlyJsonChanged(cache)
    ensures MirrorAfterAttach(m, msgId).None? ==> r == m && cache.json == old(cache.json)
    ensures MirrorAfterAttach(m, msgId).Some? ==>
              r == MirrorAfterAttach(m, msgId).value
              && cache.json == old(cache.json)[key := Entry(Json(JObj(r)), ActiveTtl)]
  {
    var next := MirrorAfterAttach(m, msgId);
    if next.None? {
      return m;
    }
    r := next.value;
    ghost var before := cache.json;
    cache.SetJson(key, Json(JObj(r)));
    cache.ExpireJson(key, ActiveTtl);
    SetThenExpire(before, key, Json(JObj(r)), ActiveTtl);
  }

  /** `attachMessageToChat(chatDoc, messageDoc, redisObj, redisKey)`. `live`
      says whether `chat` is a loaded document (otherwise it is fetched
      again), `saveFails` whether the store rejects the save. Every failure
      is swallowed and returns the mirror as it stands, without a cache
      write. */
  method AttachMessageToChat(db: Db, cache: Cache, chat: ChatDoc, live: bool, msgId: string,
                             mirror: Option<Obj>, key: string, saveFails: bool)
    returns (r: Option<Obj>)
    modifies db, cache
    ensures OnlyChatsChanged(db) && OnlyJsonChanged(cache)
    // a document that must be re-fetched but is gone: nothing changes
    ensures AttachTarget(old(db.chats), chat, live).None? ==>
              r == mirror && db.chats == old(db.chats) && cache.json == old(cache.json)
    ensures AttachTarget(old(db.chats), chat, live).Some? ==>
              var doc := AttachTarget(old(db.chats), chat, live).value;
              var m := if mirror.Some? then mirror.value else BareMirror(doc);
              var push := msgId !in doc.rec.messages;
              var saved := !saveFails && doc.id in old(db.chats);
              // the id is pushed onto the stored chat at most once
              (push && saved ==> db.chats == old(db.chats)[doc.id := Pushed(old(db.chats)[doc.id], msgId)])
              && (!(push && saved) ==> db.chats == old(db.chats))
              // a failed save returns the mirror unwritten
              && (push && !saved ==> r == Some(m) && cache.json == old(cache.json))
              // otherwise the window is updated and written back
              && (!push || saved ==>
                    (MirrorAfterAttach(m, msgId).None? ==> r == Some(m) && cache.json == old(cache.json))
                    && (MirrorAfterAttach(m, msgId).Some? ==>
                          r == MirrorAfterAttach(m, msgId)
                          && cache.json == old(cache.json)[key := Entry(Json(JObj(r.value)), ActiveTtl)]))
  {
    var doc := chat;
    if !live {
      if chat.id !in db.chats {
        return mirror;
      }
      doc := ChatDoc(chat.id, db.chats[chat.id]);
    }

    var m := if mirror.Some? then mirror.value else BareMirror(doc);

    if msgId !in doc.rec.messages {
      if saveFails || doc.id !in db.chats {
        return Some(m);
      }
      // `lastMessage` is not a path of the Chat schema, so only the push is saved.
      db.chats := db.chats[doc.id := Pushed(db.chats[doc.id], msgId)];
    }

    var m' := UpdateMirror(cache, m, msgId, key);
    r := Some(m');
  }

  /** The attached id is in the window unless it was already present but
      older than the newest fifty. */
  lemma WindowKeepsId(items: seq<Js>, msgId: string)
    requires JStr(msgId) !in items || JStr(msgId) in Newest(items, MessageLimit)
    ensures JStr(msgId) in Window(items, msgId)
  {
  }

  /** Attaching a message a second time leaves the window as the first time. */
  lemma WindowIdempotent(items: seq<Js>, msgId: string)
    requires JStr(msgId) !in items || JStr(msgId) in Newest(items, MessageLimit)
    ensures Window(Window(items, msgId), msgId) == Window(items, msgId)
  {
    WindowKeepsId(items, msgId);
  }

  /** The windows after attaching `ids` one after another. */
  function AttachAll(items: seq<Js>, ids: seq<string>): seq<Js>
    decreases |ids|
  {
    if ids == [] then items else Window(AttachAll(items, ids[..|ids| - 1]), ids[|ids| - 1])
  }

  /** Every entry of the window came from the starting list or an attached id. */
  lemma {:induction false} AttachAllFrom(items: seq<Js>, ids: seq<string>, x: Js)
    requires x in AttachAll(items, ids)
    ensures x in items || (x.JStr? && x.s in ids)
    decreases |ids|
  {
    if ids != [] {
      var prev := ids[..|ids| - 1];
      var y := ids[|ids| - 1];
      var w := AttachAll(items, prev);
      var added := AddOnce(w, JStr(y));
      assert AttachAll(items, ids) == Newest(added, MessageLimit);
      NewestIn(added, MessageLimit, x);
      if x in w {
        AttachAllFrom(items, prev, x);
        assert x.JStr? && x.s in prev ==> x.s in ids;
      }
    }
  }

  /** Attaching an id the window does not hold appends it and trims. */
  lemma WindowFresh(w: seq<Js>, y: string)
    requires JStr(y) !in w
    ensures Window(w, y) == Newest(w + [JStr(y)], MessageLimit)
  {
  }

  /** An id neither in the starting list nor attached is not in the window. */
  lemma AttachAllNotIn(items: seq<Js>, ids: seq<string>, y: string)
    requires JStr(y) !in items && y !in ids
    ensures JStr(y) !in AttachAll(items, ids)
  {
    if JStr(y) in AttachAll(items, ids) {
      AttachAllFrom(items, ids, JStr(y));
    }
  }

  lemma {:induction false} AttachAllFresh(items: seq<Js>, ids: seq<string>)
    requires ids != [] || |items| <= MessageLimit
    requires NoDup(ids)
    requires forall i :: 0 <= i < |ids| ==> JStr(ids[i]) !in items
    ensures AttachAll(items, ids) == Newest(items + StrArr(ids), MessageLimit)
    decreases |ids|
  {
    if ids == [] {
      assert items + StrArr(ids) == items;
    } else {
      var prev := ids[..|ids| - 1];
      var y := ids[|ids| - 1];
      NoDupInit(ids);
      assert JStr(ids[|ids| - 1]) !in items;
      forall i | 0 <= i < |prev| ensures JStr(prev[i]) !in items {
        assert prev[i] == ids[i];
      }
      AttachAllNotIn(items, prev, y);
      StrArrSnoc(ids);
      var all := items + StrArr(prev);
      assert items + StrArr(ids) == all + [JStr(y)];
      if prev == [] {
        assert all == items;
        AttachFreshStep(items, ids, all);
      } else {
        AttachAllFresh(items, prev);
        AttachFreshStep(items, ids, all);
      }
    }
  }

  /** One step of `AttachAllFresh`: when the window before the last id is the
      newest of `all`, the window after it is the newest of `all` and the id. */
  lemma AttachFreshStep(items: seq<Js>, ids: seq<string>, all: seq<Js>)
    requires ids != []
    requires JStr(ids[|ids| - 1]) !in AttachAll(items, ids[..|ids| - 1])
    requires AttachAll(items, ids[..|ids| - 1]) == Newest(all, MessageLimit) || AttachAll(items, ids[..|ids| - 1]) == all
    ensures AttachAll(items, ids) == Newest(all + [JStr(ids[|ids| - 1])], MessageLimit)
  {
    var w := AttachAll(items, ids[..|ids| - 1]);
    var y := ids[|ids| - 1];
    WindowFresh(w, y);
    NewestAppend(all, JStr(y), MessageLimit);
  }

  /** Sixty distinct messages attached to an empty mirror leave the last fifty. */
  lemma SixtyAttaches(ids: seq<string>)
    requires |ids| == 60 && NoDup(ids)
    ensures AttachAll([], ids) == StrArr(ids[10..])
  {
    var none: seq<Js> := [];
    var all := StrArr(ids);
    AttachAllFresh(none, ids);
    assert none + all == all;
    NewestSixty(ids);
  }

  lemma NewestSixty(ids: seq<string>)
    requires |ids| == 60
    ensures Newest(StrArr(ids), MessageLimit) == StrArr(ids[10..])
  {
  }
}
