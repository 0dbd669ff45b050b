/** The per-investor chat ledger (lib/services/history.service.ts). */
module HistoryService {
  import opened Wrappers
  import opened Json
  import opened Ids
  import opened Seqs
  import opened Utils
  import opened Api
  import opened Records
  import opened Store

  /** The most chat ids the cached ledger keeps. */
  const MaxChats: nat := 100
  /** Lifetime of a cached ledger: 24 hours. */
  const HistoryTtl: int := 86400

  /** The key an investor's cached ledger lives under. */
  function HistoryKey(investorId: string): (r: string)
    ensures |r| == 8 + |investorId|
    ensures r[..8] == "history:" && r[8..] == investorId
  {
    "history:" + investorId
  }

  /** Distinct investors have distinct ledger keys. */
  lemma HistoryKeyInjective(a: string, b: string)
    ensures HistoryKey(a) == HistoryKey(b) <==> a == b
  {
    if HistoryKey(a) == HistoryKey(b) {
      assert HistoryKey(a)[8..] == HistoryKey(b)[8..];
    }
  }

  /** The ledger as the service holds it: the History id and the chat ids,
      either as read from the cache or as strings of the stored ids. */
  datatype HistoryObj = HistoryObj(id: Js, chats: seq<Js>)

  /** The object written to the cache. */
  function HistoryJson(h: HistoryObj): Obj {
    map["_id" := h.id, "chats" := JArr(h.chats)]
  }

  function FromRec(rec: HistoryRec): HistoryObj {
    HistoryObj(JStr(rec.id), StrArr(rec.chats))
  }

  /** Lines 22-28: a cached ledger is trusted only when it parses to a value
      with a truthy `_id`; a `chats` that is not an array is taken as empty. */
  function CachedHistory(t: Option<Text>): (r: Option<HistoryObj>)
    ensures r.Some? <==> t.Some? && TruthyOpt(Get(SafeJsonParse(RString(t.value)), "_id"))
    ensures r.Some? ==> r.value.id == Get(SafeJsonParse(RString(t.value)), "_id").value
    ensures r.Some? && IsArray(Get(SafeJsonParse(RString(t.value)), "chats")) ==>
              r.value.chats == Get(SafeJsonParse(RString(t.value)), "chats").value.items
    ensures r.Some? && !IsArray(Get(SafeJsonParse(RString(t.value)), "chats")) ==> r.value.chats == []
  {
    if t.None? then None
    else
      var parsed := SafeJsonParse(RString(t.value));
      var id := Get(parsed, "_id");
      if !TruthyOpt(id) then None
      else
        var chats := Get(parsed, "chats");
        Some(HistoryObj(id.value, if IsArray(chats) then chats.value.items else []))
  }

  /** A ledger the service writes is trusted as it was written. */
  lemma CachedHistoryRoundTrip(h: HistoryObj)
    requires Truthy(h.id)
    ensures CachedHistory(Some(Json(JObj(HistoryJson(h))))) == Some(h)
  {
  }

  /** Lines 71-92 on the local list: a chat id not yet present is appended
      and the list cut to its newest hundred; a present one changes nothing. */
  function AddCapped(chats: seq<Js>, chatId: string): (r: seq<Js>)
    ensures JStr(chatId) in r
    ensures JStr(chatId) in chats ==> r == chats
    ensures JStr(chatId) !in chats ==>
              |r| <= MaxChats && r == Newest(chats + [JStr(chatId)], MaxChats) && r[|r| - 1] == JStr(chatId)
    ensures |chats| <= MaxChats ==> |r| <= MaxChats
    ensures NoDup(chats) ==> NoDup(r)
  {
    if JStr(chatId) in chats then chats
    else
      var r := Newest(chats + [JStr(chatId)], MaxChats);
      assert NoDup(chats) ==> NoDup(chats + [JStr(chatId)]);
      NewestNoDup(chats + [JStr(chatId)], MaxChats);
      assert r[|r| - 1] == JStr(chatId);
      r
  }

  /** The ledger after adding `ids` one after another. */
  function AddAll(chats: seq<Js>, ids: seq<string>): seq<Js>
    decreases |ids|
  {
    if ids == [] then chats else AddCapped(AddAll(chats, ids[..|ids| - 1]), ids[|ids| - 1])
  }

  /** An id neither in the starting ledger nor added is not in the ledger. */
  lemma {:induction false} AddAllFrom(chats: seq<Js>, ids: seq<string>, x: Js)
    requires x in AddAll(chats, ids)
    ensures x in chats || (x.JStr? && x.s in ids)
    decreases |ids|
  {
    if ids != [] {
      var prev := ids[..|ids| - 1];
      var y := ids[|ids| - 1];
      var w := AddAll(chats, prev);
      var r := AddCapped(w, y);
      if x != JStr(y) {
        if JStr(y) !in w {
          var i :| 0 <= i < |r| && r[i] == x;
          assert r[i] == (w + [JStr(y)])[|w| + 1 - |r| + i];
        }
        assert x in w;
        AddAllFrom(chats, prev, x);
        assert x.JStr? && x.s in prev ==> x.s in ids;
      }
    }
  }

  /** Adding distinct new ids keeps the newest hundred of the whole list in
      insertion order: the oldest are evicted first. */
  lemma {:induction false} AddAllFresh(chats: seq<Js>, ids: seq<string>)
    requires |chats| <= MaxChats
    requires NoDup(ids)
    requires forall i :: 0 <= i < |ids| ==> JStr(ids[i]) !in chats
    ensures AddAll(chats, ids) == Newest(chats + StrArr(ids), MaxChats)
    decreases |ids|
  {
    if ids == [] {
      assert chats + StrArr(ids) == chats;
    } else {
      var prev := ids[..|ids| - 1];
      var y := ids[|ids| - 1];
      var w := AddAll(chats, prev);
      NoDupInit(ids);
      assert JStr(y) !in chats;
      if JStr(y) in w {
        AddAllFrom(chats, prev, JStr(y));
      }
      StrArrSnoc(ids);
      var all := chats + StrArr(prev);
      assert chats + StrArr(ids) == all + [JStr(y)];
      AddAllFresh(chats, prev);
      NewestAppend(all, JStr(y), MaxChats);
    }
  }

  /** A hundred and fifty distinct chats added to an empty ledger leave the
      newest hundred. */
  lemma HundredFiftyChats(ids: seq<string>)
    requires |ids| == 150 && NoDup(ids)
    ensures AddAll([], ids) == StrArr(ids[50..])
  {
    var none: seq<Js> := [];
    var all := StrArr(ids);
    AddAllFresh(none, ids);
    assert none + all == all;
    NewestHundred(ids);
  }

  lemma NewestHundred(ids: seq<string>)
    requires |ids| == 150
    ensures Newest(StrArr(ids), MaxChats) == StrArr(ids[50..])
  {
  }

  /** `History.updateOne({ _id: hid }, { $addToSet: { chats: c } })`. Store
      ids are unique, so at most one History matches. */
  function AddToSetWhere(hs: map<string, HistoryRec>, hid: string, c: string): (r: map<string, HistoryRec>)
    ensures r.Keys == hs.Keys
    ensures forall k :: k in hs ==> r[k].id == hs[k].id
  {
    map k | k in hs :: if hs[k].id == hid then hs[k].(chats := AddOnce(hs[k].chats, c)) else hs[k]
  }

  /** `History.updateOne({ _id: hid }, { $set: { chats: cs } })`. */
  function SetChatsWhere(hs: map<string, HistoryRec>, hid: string, cs: seq<string>): (r: map<string, HistoryRec>)
    ensures r.Keys == hs.Keys
    ensures forall k :: k in hs ==> r[k].id == hs[k].id
  {
    map k | k in hs :: if hs[k].id == hid then hs[k].(chats := cs) else hs[k]
  }

  /** Every entry is a string of 24 hex digits, so it casts to an id. */
  predicate AllIds(cs: seq<Js>) {
    forall i :: 0 <= i < |cs| ==> cs[i].JStr? && IsValidId(cs[i].s)
  }

  function CanonAll(cs: seq<Js>): (r: seq<string>)
    requires AllIds(cs)
    ensures |r| == |cs|
    ensures forall i :: 0 <= i < |cs| ==> r[i] == Canon(cs[i].s)
  {
    seq(|cs|, i requires 0 <= i < |cs| => Canon(cs[i].s))
  }

  /** The id of the chat to add, when it is a valid one. */
  function ValidChat(chatId: Option<Js>): seq<string> {
    if IsIdValue(chatId) then [Canon(chatId.value.s)] else []
  }

  /** Steps 1 and 2 on the store: a History is created when the investor has
      none, holding the chat when its id is valid. */
  function LoadedStore(hs: map<string, HistoryRec>, inv: string, chatId: Option<Js>, freshId: string)
    : map<string, HistoryRec>
  {
    if inv in hs then hs else hs[inv := HistoryRec(freshId, ValidChat(chatId))]
  }

  /** Steps 1 and 2 on the ledger: the created History, otherwise the
      trusted cached copy, otherwise the stored History. */
  function LoadedLedger(hs: map<string, HistoryRec>, cached: Option<HistoryObj>, inv: string,
                        chatId: Option<Js>, freshId: string): HistoryObj
  {
    if inv !in hs then FromRec(HistoryRec(freshId, ValidChat(chatId)))
    else if cached.Some? then cached.value
    else FromRec(hs[inv])
  }

  /** Steps 1 and 2 on the cache: a cached copy is dropped when the store
      has no History. */
  function LoadedCache(json: map<string, Entry<Text>>, hs: map<string, HistoryRec>, inv: string, key: string)
    : map<string, Entry<Text>>
  {
    if inv !in hs && CachedHistory(ValueOf(json, key)).Some? then json - {key} else json
  }

  method LoadHistory(db: Db, cache: Cache, investorId: string, chatId: Option<Js>, freshId: string)
    returns (h: HistoryObj)
    requires IsValidId(investorId)
    modifies db, cache
    ensures OnlyJsonChanged(cache)
    ensures db.chats == old(db.chats) && db.messages == old(db.messages) && db.prompts == old(db.prompts)
    ensures db.aiResponses == old(db.aiResponses) && db.investors == old(db.investors)
    ensures db.histories == LoadedStore(old(db.histories), Canon(investorId), chatId, freshId)
    ensures h == LoadedLedger(old(db.histories), CachedHistory(ValueOf(old(cache.json), HistoryKey(investorId))),
                              Canon(investorId), chatId, freshId)
    ensures cache.json == LoadedCache(old(cache.json), old(db.histories), Canon(investorId), HistoryKey(investorId))
  {
    var inv := Canon(investorId);
    var key := "history:" + investorId;
    var cached := CachedHistory(cache.GetJson(key));
    if inv !in db.histories {
      if cached.Some? {
        cache.DelJson(key);
      }
      var chats := if IsIdValue(chatId) then [Canon(chatId.value.s)] else [];
      db.histories := db.histories[inv := HistoryRec(freshId, chats)];
      h := FromRec(HistoryRec(freshId, chats));
    } else if cached.Some? {
      h := cached.value;
    } else {
      h := FromRec(db.histories[inv]);
    }
  }

  /** Whether step 3 adds the chat: its id is valid and the ledger does not
      hold that exact string. */
  predicate Adds(h: HistoryObj, chatId: Option<Js>) {
    IsIdValue(chatId) && chatId.value !in h.chats
  }

  /** The error step 3 throws, if any: the ledger id does not cast, or a
      survivor of the cut does not. */
  function AddError(h: HistoryObj, chatId: Option<Js>): (r: Option<Thrown>)
    ensures r.Some? ==> r.value == CastError || r.value == BsonError
  {
    if !Adds(h, chatId) then None
    else if Cast(h.id).None? then Some(CastError)
    else if |h.chats| + 1 > MaxChats && !AllIds(Newest(h.chats + [chatId.value], MaxChats)) then Some(BsonError)
    else None
  }

  /** Step 3 on the store: the chat added to the set of the History with the
      ledger's id, and once the list is cut, that History's chats replaced by
      the survivors. */
  function StoreAfterAdd(hs: map<string, HistoryRec>, h: HistoryObj, chatId: Option<Js>)
    : map<string, HistoryRec>
  {
    if !Adds(h, chatId) || Cast(h.id).None? then hs
    else
      var hid := Cast(h.id).value;
      var added := AddToSetWhere(hs, hid, Canon(chatId.value.s));
      var kept := Newest(h.chats + [chatId.value], MaxChats);
      if |h.chats| + 1 <= MaxChats || !AllIds(kept) then added
      else SetChatsWhere(added, hid, CanonAll(kept))
  }

  /** Step 3 on the ledger the service returns. */
  function LedgerAfterAdd(h: HistoryObj, chatId: Option<Js>): (r: HistoryObj)
    ensures r.id == h.id
    ensures !Adds(h, chatId) ==> r == h
    ensures Adds(h, chatId) ==> r.chats == AddCapped(h.chats, chatId.value.s)
  {
    if Adds(h, chatId) then HistoryObj(h.id, AddCapped(h.chats, chatId.value.s)) else h
  }

  /** Step 3: lines 70-95. */
  method AddToLedger(db: Db, h: HistoryObj, chatId: Option<Js>) returns (r: Outcome<HistoryObj>)
    modifies db
    ensures db.chats == old(db.chats) && db.messages == old(db.messages) && db.prompts == old(db.prompts)
    ensures db.aiResponses == old(db.aiResponses) && db.investors == old(db.investors)
    ensures db.histories == StoreAfterAdd(old(db.histories), h, chatId)
    ensures AddError(h, chatId).Some? ==> r == Throws(AddError(h, chatId).value)
    ensures AddError(h, chatId).None? ==> r == Ok(LedgerAfterAdd(h, chatId))
  {
    if !(IsIdValue(chatId) && chatId.value !in h.chats) {
      return Ok(h);
    }
    var c := Canon(chatId.value.s);
    var hid := Cast(h.id);
    if hid.None? {
      return Throws(CastError);
    }
    db.histories := AddToSetWhere(db.histories, hid.value, c);
    var chats := h.chats + [chatId.value];
    if |chats| > MaxChats {
      chats := chats[|chats| - MaxChats..];
      if !AllIds(chats) {
        return Throws(BsonError);
      }
      db.histories := SetChatsWhere(db.histories, hid.value, CanonAll(chats));
    }
    r := Ok(HistoryObj(h.id, chats));
  }

  /** `updateUserHistory(investorId, chatId)`: the ledger with the chat added
      once and capped, written to the cache with the ledger lifetime; store
      errors are rethrown. `freshId` is the id a created History gets. */
  method UpdateUserHistory(db: Db, cache: Cache, investorId: string, chatId: Option<Js>, freshId: string)
    returns (r: Outcome<HistoryObj>)
    modifies db, cache
    ensures OnlyJsonChanged(cache)
    ensures db.chats == old(db.chats) && db.messages == old(db.messages) && db.prompts == old(db.prompts)
    ensures db.aiResponses == old(db.aiResponses) && db.investors == old(db.investors)
    // the id cast before the try throws for a malformed investor id
    ensures !IsValidId(investorId) ==>
              r == Throws(BsonError) && db.histories == old(db.histories) && cache.json == old(cache.json)
    ensures IsValidId(investorId) ==>
              var inv := Canon(investorId);
              var key := HistoryKey(investorId);
              var h := LoadedLedger(old(db.histories), CachedHistory(ValueOf(old(cache.json), key)), inv, chatId, freshId);
              var base := LoadedCache(old(cache.json), old(db.histories), inv, key);
              db.histories == StoreAfterAdd(LoadedStore(old(db.histories), inv, chatId, freshId), h, chatId)
              && (AddError(h, chatId).Some? ==> r == Throws(AddError(h, chatId).value) && cache.json == base)
              && (AddError(h, chatId).None? ==>
                    r == Ok(LedgerAfterAdd(h, chatId))
                    && cache.json == base[key := Entry(Json(JObj(HistoryJson(LedgerAfterAdd(h, chatId)))), HistoryTtl)])
  {
    if !IsValidId(investorId) {
      return Throws(BsonError);
    }
    var key := "history:" + investorId;
    var h := LoadHistory(db, cache, investorId, chatId, freshId);
    r := AddToLedger(db, h, chatId);
    if r.Throws? {
      return;
    }
    var next := r.value;
    ghost var before := cache.json;
    cache.SetJson(key, Json(JObj(HistoryJson(next))));
    cache.ExpireJson(key, HistoryTtl);
    SetThenExpire(before, key, Json(JObj(HistoryJson(next))), HistoryTtl);
  }
}
