/** Starting a new chat (controllers/chat/newChat.controller.ts). */
module NewChat {
  import opened Wrappers
  import opened Json
  import opened Ids
  import opened Seqs
  import opened Api
  import opened Records
  import opened Store
  import opened Requests
  import opened ChatService
  import opened HistoryService
  import opened ChatQueries

  /** The answer's data: the created chat and the upserted History. */
  datatype Created = Created(chat: ChatDoc, history: HistoryRec)

  /** `History.findOneAndUpdate({ investorId }, { $push: { chats: chatId } },
      { upsert: true })`: the id pushed onto the investor's History as it is,
      with no duplicate check and no length cap, or a History created with
      the id `freshId` holding only it. */
  function PushUpsert(hs: map<string, HistoryRec>, owner: string, chatId: string, freshId: string)
    : (r: map<string, HistoryRec>)
    ensures r.Keys == hs.Keys + {owner}
    ensures forall k :: k in hs && k != owner ==> r[k] == hs[k]
    ensures owner in hs ==> r[owner] == HistoryRec(hs[owner].id, hs[owner].chats + [chatId])
    ensures owner !in hs ==> r[owner] == HistoryRec(freshId, [chatId])
  {
    if owner in hs then hs[owner := hs[owner].(chats := hs[owner].chats + [chatId])]
    else hs[owner := HistoryRec(freshId, [chatId])]
  }

  /** The push neither deduplicates nor caps: the ledger grows by one even
      when it already holds the chat or is full, and then holds a duplicate. */
  lemma PushUpsertUnchecked(hs: map<string, HistoryRec>, owner: string, chatId: string, freshId: string)
    requires owner in hs
    ensures |PushUpsert(hs, owner, chatId, freshId)[owner].chats| == |hs[owner].chats| + 1
    ensures chatId in hs[owner].chats ==> !NoDup(PushUpsert(hs, owner, chatId, freshId)[owner].chats)
  {
    var before := hs[owner].chats;
    var after := PushUpsert(hs, owner, chatId, freshId)[owner].chats;
    if chatId in before {
      var i :| 0 <= i < |before| && before[i] == chatId;
      assert after[i] == after[|after| - 1];
    }
  }

  /** Steps 1, 4 and 5 on the cache: the active key deleted, then both
      mirrors written with a lifetime of one day. */
  method WriteMirrors(cache: Cache, key: string, historyKey: string, m: Obj, lm: Obj)
    modifies cache
    ensures OnlyJsonChanged(cache)
    ensures cache.json == old(cache.json)[key := Entry(Json(JObj(m)), ActiveTtl)]
                                         [historyKey := Entry(Json(JObj(lm)), HistoryTtl)]
  {
    cache.DelJson(key);
    ghost var j0 := cache.json;
    cache.SetJson(key, Json(JObj(m)));
    cache.ExpireJson(key, ActiveTtl);
    SetThenExpire(j0, key, Json(JObj(m)), ActiveTtl);
    ghost var j1 := cache.json;
    cache.SetJson(historyKey, Json(JObj(lm)));
    cache.ExpireJson(historyKey, HistoryTtl);
    SetThenExpire(j1, historyKey, Json(JObj(lm)), HistoryTtl);
    assert (old(cache.json) - {key})[key := Entry(Json(JObj(m)), ActiveTtl)]
        == old(cache.json)[key := Entry(Json(JObj(m)), ActiveTtl)];
  }

  /** Lines 16-66, for a header that is an id. */
  method StartChat(db: Db, cache: Cache, investorId: string, freshChatId: string, freshHistoryId: string, now: int)
    returns (r: Outcome<ApiResponse<Created>>)
    requires IsValidId(investorId)
    modifies db, cache
    ensures OnlyJsonChanged(cache)
    ensures db.messages == old(db.messages) && db.prompts == old(db.prompts)
    ensures db.aiResponses == old(db.aiResponses) && db.investors == old(db.investors)
    ensures var owner := Canon(investorId);
            var chat := ChatDoc(freshChatId, NewChatRec(owner, now));
            var history := PushUpsert(old(db.histories), owner, freshChatId, freshHistoryId)[owner];
            db.chats == old(db.chats)[freshChatId := chat.rec]
            && db.histories == PushUpsert(old(db.histories), owner, freshChatId, freshHistoryId)
            && cache.json == old(cache.json)
                 [RawActiveKey(investorId) := Entry(Json(JObj(NewMirror(freshChatId, investorId, now))), ActiveTtl)]
                 [HistoryKey(investorId) := Entry(Json(JObj(LedgerMirror(history, investorId))), HistoryTtl)]
            && r == Respond(200, Created(chat, history), "Chat created successfully")
  {
    var owner := Canon(investorId);
    var chat := ChatDoc(freshChatId, NewChatRec(owner, now));
    db.chats := db.chats[freshChatId := chat.rec];
    var histories := PushUpsert(db.histories, owner, freshChatId, freshHistoryId);
    db.histories := histories;
    var history := histories[owner];
    var key, historyKey := "chat:" + investorId + ":active", "history:" + investorId;
    assert key == RawActiveKey(investorId) && historyKey == HistoryKey(investorId);
    var m, lm := NewMirror(freshChatId, investorId, now), LedgerMirror(history, investorId);
    WriteMirrors(cache, key, historyKey, m, lm);
    r := Respond(200, Created(chat, history), "Chat created successfully");
  }


  /** `createNewChat(req)`: `header` is the `x-temp-user-id` header;
      `freshChatId` and `freshHistoryId` are the ids the store gives a
      created chat and a created History, `now` the creation time. */
  method CreateNewChat(db: Db, cache: Cache, header: Option<string>, freshChatId: string,
                       freshHistoryId: string, now: int)
    returns (r: Outcome<ApiResponse<Created>>)
    requires IsCanonical(freshChatId) && freshChatId !in db.chats
    modifies db, cache
    ensures OnlyJsonChanged(cache)
    ensures db.messages == old(db.messages) && db.prompts == old(db.prompts)
    ensures db.aiResponses == old(db.aiResponses) && db.investors == old(db.investors)
    // both checks come before any change
    ensures InvestorHeader(header) == "" ==>
              r == Fail(400, "Missing investor id") && db.chats == old(db.chats)
              && db.histories == old(db.histories) && cache.json == old(cache.json)
    ensures InvestorHeader(header) != "" && !IsValidId(InvestorHeader(header)) ==>
              r == Fail(400, "Invalid investor id") && db.chats == old(db.chats)
              && db.histories == old(db.histories) && cache.json == old(cache.json)
    ensures IsValidId(InvestorHeader(header)) ==>
              var investorId := InvestorHeader(header);
              var owner := Canon(investorId);
              var chat := ChatDoc(freshChatId, NewChatRec(owner, now));
              var history := PushUpsert(old(db.histories), owner, freshChatId, freshHistoryId)[owner];
              db.chats == old(db.chats)[freshChatId := chat.rec]
              && db.histories == PushUpsert(old(db.histories), owner, freshChatId, freshHistoryId)
              && cache.json == old(cache.json)
                   [RawActiveKey(investorId) := Entry(Json(JObj(NewMirror(freshChatId, investorId, now))), ActiveTtl)]
                   [HistoryKey(investorId) := Entry(Json(JObj(LedgerMirror(history, investorId))), HistoryTtl)]
              && r == Respond(200, Created(chat, history), "Chat created successfully")
  {
    var investorId := InvestorHeader(header);
    if investorId == "" {
      return Fail(400, "Missing investor id");
    }
    if !IsValidId(investorId) {
      return Fail(400, "Invalid investor id");
    }
    r := StartChat(db, cache, investorId, freshChatId, freshHistoryId, now);
  }

  /** The ledger mirror written is the stored ledger, and it is the one the
      history service then trusts. */
  lemma LedgerMirrorTrusted(rec: HistoryRec, investorId: string)
    requires rec.id != ""
    ensures CachedHistory(Some(Json(JObj(LedgerMirror(rec, investorId))))) == Some(FromRec(rec))
  {
  }

  /** The new chat's mirror is the one the next resolution finds. */
  lemma NewMirrorFound(investorId: string, freshChatId: string, now: int, json: map<string, Entry<Text>>)
    requires IsValidId(investorId) && IsCanonical(freshChatId)
    ensures var j := json[RawActiveKey(investorId) := Entry(Json(JObj(NewMirror(freshChatId, investorId, now))), ActiveTtl)];
            MirrorChatId(CachedValue(ValueOf(j, ActiveKey(investorId)))) == Some(freshChatId)
  {
    StripNonHexKeepsHex(investorId);
    CanonicalIsValid(freshChatId);
  }
}
