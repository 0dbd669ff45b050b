/** Serving the active chat (controllers/chat/getChat.controller.ts). */
module GetChat {
  import opened Wrappers
  import opened Json
  import opened Ids
  import opened Utils
  import opened Api
  import opened Records
  import opened Store
  import opened Hydrate
  import opened Requests
  import opened ChatQueries

  /** `hydrateChat(m)` against the store's current collections. */
  function Hydrated(db: Db, m: Obj): Outcome<HydratedChat>
    reads db
  {
    HydrateChat(m, db.messages, db.prompts, db.aiResponses)
  }

  /** A hydration answered with status 200, or the error it threw. */
  function Served(h: Outcome<HydratedChat>, message: string): (r: Outcome<ApiResponse<HydratedChat>>)
    ensures r.Ok? <==> h.Ok?
    ensures r.Ok? ==> r.value == ApiResponse(200, h.value, message) && r.value.Success()
    ensures r.Throws? ==> r.error == h.error
  {
    match h
    case Ok(v) => Respond(200, v, message)
    case Throws(e) => Throws(e)
  }

  /** `doc` restored as the active chat: its mirror written under the key with
      the restore lifetime, and the hydrated mirror answered. */
  predicate Restored(db: Db, investorId: string, doc: ChatDoc, j0: map<string, Entry<Text>>,
                     j1: map<string, Entry<Text>>, r: Outcome<ApiResponse<HydratedChat>>, message: string)
    reads db
  {
    var m := RestoredMirror(doc, investorId);
    j1 == j0[RawActiveKey(investorId) := Entry(Json(JObj(m)), RestoreTtl)]
    && r == Served(Hydrated(db, m), message)
  }

  /** Lines 54-70 from the cache state `j0`: the newest chat of the investor
      is restored, or 404 when there is none. The owner filter casts the
      header, so a header that is not an id throws. */
  predicate LatestPath(db: Db, investorId: string, j0: map<string, Entry<Text>>,
                       j1: map<string, Entry<Text>>, r: Outcome<ApiResponse<HydratedChat>>)
    reads db
  {
    (!IsValidId(investorId) ==> r == Throws(CastError) && j1 == j0)
    && (IsValidId(investorId) && !HasChats(db.chats, Canon(investorId)) ==>
          r == Fail(404, "No chat found") && j1 == j0)
    && (IsValidId(investorId) && HasChats(db.chats, Canon(investorId)) ==>
          exists id :: id in db.chats && IsLatest(db.chats, Canon(investorId), id)
                       && Restored(db, investorId, ChatDoc(id, db.chats[id]), j0, j1, r,
                                   "Last chat restored as active"))
  }

  /** Lines 44-71, no chat id asked for: a mirror whose chat the investor owns
      is served as it is and nothing is written; a stale mirror is deleted
      and the newest chat restored. */
  predicate ActiveOrLatest(db: Db, investorId: string, m: Option<Obj>, j0: map<string, Entry<Text>>,
                           j1: map<string, Entry<Text>>, r: Outcome<ApiResponse<HydratedChat>>)
    reads db
    requires m.Some? ==> "chatId" in m.value
  {
    (m.Some? && ChatExists(db.chats, m.value["chatId"], investorId).Throws? ==>
       r == Throws(CastError) && j1 == j0)
    && (m.Some? && ChatExists(db.chats, m.value["chatId"], investorId) == Ok(true) ==>
       r == Served(Hydrated(db, m.value), "Active chat returned") && j1 == j0)
    && (m.Some? && ChatExists(db.chats, m.value["chatId"], investorId) == Ok(false) ==>
       LatestPath(db, investorId, j0 - {RawActiveKey(investorId)}, j1, r))
    && (m.None? ==> LatestPath(db, investorId, j0, j1, r))
  }

  /** Lines 88-103 from the cache state `j0`: the asked chat, if the investor
      owns it, is restored; otherwise 404. */
  predicate FindPath(db: Db, investorId: string, chatId: string, j0: map<string, Entry<Text>>,
                     j1: map<string, Entry<Text>>, r: Outcome<ApiResponse<HydratedChat>>)
    reads db
  {
    var found := FindOwned(db.chats, chatId, investorId);
    (found.Throws? ==> r == Throws(CastError) && j1 == j0)
    && (found == Ok(None) ==> r == Fail(404, "Chat not found") && j1 == j0)
    && (found.Ok? && found.value.Some? ==>
          Restored(db, investorId, found.value.value, j0, j1, r, "Chat restored & set active"))
  }

  /** Lines 76-103, a chat id asked for: a mirror naming exactly that string
      is served with no store check at all; otherwise a mirror whose chat is
      gone or not the investor's is deleted and the asked chat looked up. */
  predicate Requested(db: Db, investorId: string, chatId: string, m: Option<Obj>, j0: map<string, Entry<Text>>,
                      j1: map<string, Entry<Text>>, r: Outcome<ApiResponse<HydratedChat>>)
    reads db
    requires m.Some? ==> "chatId" in m.value
  {
    (m.Some? && m.value["chatId"] == JStr(chatId) ==>
       r == Served(Hydrated(db, m.value), "Active chat returned") && j1 == j0)
    && (m.Some? && m.value["chatId"] != JStr(chatId) ==>
          var present := ChatExists(db.chats, m.value["chatId"], investorId);
          (present.Throws? ==> r == Throws(CastError) && j1 == j0)
          && (present == Ok(true) ==> FindPath(db, investorId, chatId, j0, j1, r))
          && (present == Ok(false) ==> FindPath(db, investorId, chatId, j0 - {RawActiveKey(investorId)}, j1, r)))
    && (m.None? ==> FindPath(db, investorId, chatId, j0, j1, r))
  }

  /** Writes the mirror of `doc` with the restore lifetime and answers it. */
  method Restore(db: Db, cache: Cache, investorId: string, doc: ChatDoc, message: string)
    returns (r: Outcome<ApiResponse<HydratedChat>>)
    modifies cache
    ensures OnlyJsonChanged(cache)
    ensures Restored(db, investorId, doc, old(cache.json), cache.json, r, message)
  {
    var key := "chat:" + investorId + ":active";
    var m := RestoredMirror(doc, investorId);
    ghost var before := cache.json;
    cache.SetJson(key, Json(JObj(m)));
    cache.ExpireJson(key, RestoreTtl);
    SetThenExpire(before, key, Json(JObj(m)), RestoreTtl);
    r := Served(HydrateChat(m, db.messages, db.prompts, db.aiResponses), message);
  }

  /** Lines 54-70. */
  method RestoreLatest(db: Db, cache: Cache, investorId: string) returns (r: Outcome<ApiResponse<HydratedChat>>)
    modifies cache
    ensures OnlyJsonChanged(cache)
    ensures LatestPath(db, investorId, old(cache.json), cache.json, r)
  {
    if !IsValidId(investorId) {
      return Throws(CastError);
    }
    var last := LatestChat(db.chats, Canon(investorId));
    if last.None? {
      return Fail(404, "No chat found");
    }
    var id := last.value;
    r := Restore(db, cache, investorId, ChatDoc(id, db.chats[id]), "Last chat restored as active");
  }

  /** Lines 88-103. */
  method RestoreRequested(db: Db, cache: Cache, investorId: string, chatId: string)
    returns (r: Outcome<ApiResponse<HydratedChat>>)
    modifies cache
    ensures OnlyJsonChanged(cache)
    ensures FindPath(db, investorId, chatId, old(cache.json), cache.json, r)
  {
    var found := FindOwned(db.chats, chatId, investorId);
    if found.Throws? {
      return Throws(CastError);
    }
    if found.value.None? {
      return Fail(404, "Chat not found");
    }
    r := Restore(db, cache, investorId, found.value.value, "Chat restored & set active");
  }

  /** Lines 44-71, for the mirror `m` read under the active key. */
  method ServeActiveOrLatest(db: Db, cache: Cache, investorId: string, m: Option<Obj>)
    returns (r: Outcome<ApiResponse<HydratedChat>>)
    requires m.Some? ==> "chatId" in m.value
    modifies cache
    ensures OnlyJsonChanged(cache)
    ensures ActiveOrLatest(db, investorId, m, old(cache.json), cache.json, r)
  {
    var key := "chat:" + investorId + ":active";
    if m.Some? {
      var present := ChatExists(db.chats, m.value["chatId"], investorId);
      if present.Throws? {
        return Throws(CastError);
      }
      if present.value {
        return Served(HydrateChat(m.value, db.messages, db.prompts, db.aiResponses), "Active chat returned");
      }
      cache.DelJson(key);
    }
    r := RestoreLatest(db, cache, investorId);
  }

  /** Lines 76-103, for the mirror `m` read under the active key. */
  method ServeRequested(db: Db, cache: Cache, investorId: string, chatId: string, m: Option<Obj>)
    returns (r: Outcome<ApiResponse<HydratedChat>>)
    requires m.Some? ==> "chatId" in m.value
    modifies cache
    ensures OnlyJsonChanged(cache)
    ensures Requested(db, investorId, chatId, m, old(cache.json), cache.json, r)
  {
    var key := "chat:" + investorId + ":active";
    if m.Some? && m.value["chatId"] == JStr(chatId) {
      return Served(HydrateChat(m.value, db.messages, db.prompts, db.aiResponses), "Active chat returned");
    }
    if m.Some? {
      var present := ChatExists(db.chats, m.value["chatId"], investorId);
      if present.Throws? {
        return Throws(CastError);
      }
      if !present.value {
        cache.DelJson(key);
      }
    }
    r := RestoreRequested(db, cache, investorId, chatId);
  }

  /** `getChat(req)`: `header` is the `x-temp-user-id` header and `chatIdParam`
      the `chatId` query parameter. Only the cache's JSON keys change. */
  method GetChat(db: Db, cache: Cache, header: Option<string>, chatIdParam: Option<string>)
    returns (r: Outcome<ApiResponse<HydratedChat>>)
    modifies cache
    ensures OnlyJsonChanged(cache)
    ensures InvestorHeader(header) == "" ==>
              r == Fail(400, "Missing investor id") && cache.json == old(cache.json)
    ensures InvestorHeader(header) != "" ==>
              var investorId := InvestorHeader(header);
              var m := SafeParseRedisChat(ValueOf(old(cache.json), RawActiveKey(investorId)));
              var chatId := TrimmedOrNone(chatIdParam);
              (chatId.None? ==> ActiveOrLatest(db, investorId, m, old(cache.json), cache.json, r))
              && (chatId.Some? ==> Requested(db, investorId, chatId.value, m, old(cache.json), cache.json, r))
  {
    var investorId := InvestorHeader(header);
    if investorId == "" {
      return Fail(400, "Missing investor id");
    }
    var key := "chat:" + investorId + ":active";
    var m := SafeParseRedisChat(cache.GetJson(key));
    var chatId := TrimmedOrNone(chatIdParam);
    if chatId.None? {
      r := ServeActiveOrLatest(db, cache, investorId, m);
    } else {
      r := ServeRequested(db, cache, investorId, chatId.value, m);
    }
  }

  /** A restored chat is the mirror the next call finds: asking for it by the
      id the mirror holds is then answered from the mirror, with no store check. */
  lemma RestoredThenServed(db: Db, investorId: string, doc: ChatDoc, j0: map<string, Entry<Text>>,
                           j1: map<string, Entry<Text>>, r: Outcome<ApiResponse<HydratedChat>>,
                           message: string, j2: map<string, Entry<Text>>, r2: Outcome<ApiResponse<HydratedChat>>)
    requires doc.id != ""
    requires Restored(db, investorId, doc, j0, j1, r, message)
    requires Requested(db, investorId, doc.id, SafeParseRedisChat(ValueOf(j1, RawActiveKey(investorId))), j1, j2, r2)
    ensures SafeParseRedisChat(ValueOf(j1, RawActiveKey(investorId))) == Some(RestoredMirror(doc, investorId))
    ensures j2 == j1 && r2 == Served(Hydrated(db, RestoredMirror(doc, investorId)), "Active chat returned")
  {
    MirrorRoundTrip(RestoredMirror(doc, investorId));
  }

  /** A stored chat whose message ids are all ids hydrates without error, and
      its hydrated mirror drops only the message list. */
  lemma RestoredHydrates(db: Db, doc: ChatDoc, investorId: string)
    requires forall i :: 0 <= i < |doc.rec.messages| ==> IsValidId(doc.rec.messages[i])
    ensures Hydrated(db, RestoredMirror(doc, investorId)).Ok?
    ensures Hydrated(db, RestoredMirror(doc, investorId)).value.rest == RestoredMirror(doc, investorId) - {"messages"}
  {
    var items := StrArr(doc.rec.messages);
    assert forall i :: 0 <= i < |items| ==> items[i] == JStr(doc.rec.messages[i]);
  }
}
