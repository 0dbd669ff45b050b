/** Renaming a chat (controllers/chat/updateChat.controller..ts). */
module UpdateChat {
  import opened Wrappers
  import opened Json
  import opened Ids
  import opened Utils
  import opened Api
  import opened Records
  import opened Store
  import opened Requests
  import opened ChatQueries

  /** `redisChat?.chatId` once the mirror has been read (lines 15-36): the
      chat id of an accepted mirror as a string, or "" when there is no
      usable mirror. The conversion of the message ids to strings throws on a
      `null` entry, and the mirror is then ignored. */
  function MirrorTarget(t: Option<Text>): (r: string)
    ensures SafeParseRedisChat(t).None? ==> r == ""
    ensures SafeParseRedisChat(t).Some? && ToStrings(SafeParseRedisChat(t).value["messages"].items).Some? ==>
              r == JsString(SafeParseRedisChat(t).value["chatId"])
  {
    match SafeParseRedisChat(t)
    case None => ""
    case Some(m) => if ToStrings(m["messages"].items).None? then "" else JsString(m["chatId"])
  }

  /** `chatId?.toString().trim()`, "" for a missing or `null` value. */
  function BodyTarget(chatId: Option<Js>): (r: string)
    ensures chatId.None? || chatId.value.JNull? ==> r == ""
    ensures chatId.Some? && chatId.value.JStr? ==> r == Trim(chatId.value.s)
  {
    if chatId.None? then ""
    else match ToStringCall(chatId.value)
      case None => ""
      case Some(s) => Trim(s)
  }

  /** Line 49: the body's chat id when it is not blank, else the mirror's. */
  function Target(chatId: Option<Js>, t: Option<Text>): (r: string)
    ensures BodyTarget(chatId) != "" ==> r == BodyTarget(chatId)
    ensures BodyTarget(chatId) == "" ==> r == MirrorTarget(t)
  {
    if BodyTarget(chatId) != "" then BodyTarget(chatId) else MirrorTarget(t)
  }

  /** Lines 51-71 as a relation: a non-empty target is kept as it is;
      otherwise the owner's newest chat becomes the target and is restored as
      the active mirror, with 404 when there is none and a cast error when
      the header is not an id. */
  ghost predicate Targeted(chats: map<string, ChatRec>, investorId: string, target: string, t: Outcome<string>,
                           j0: map<string, Entry<Text>>, j1: map<string, Entry<Text>>)
  {
    (target != "" ==> t == Ok(target) && j1 == j0)
    && (target == "" && !IsValidId(investorId) ==> t == Throws(CastError) && j1 == j0)
    && (target == "" && IsValidId(investorId) && !HasChats(chats, Canon(investorId)) ==>
          t == Fail(404, "No chat found to update") && j1 == j0)
    && (target == "" && IsValidId(investorId) && HasChats(chats, Canon(investorId)) ==>
          t.Ok? && t.value in chats && IsLatest(chats, Canon(investorId), t.value)
          && j1 == j0[RawActiveKey(investorId) :=
                        Entry(Json(JObj(RestoredMirror(ChatDoc(t.value, chats[t.value]), investorId))), RestoreTtl)])
  }

  /** Lines 81-96 on the cache `j`: an active mirror whose chat id reads as
      `target` gets the new title, its id written as `target` and its
      message ids as strings, and keeps its time to live when that is
      positive. Any other content, and a mirror whose conversion throws, is
      left alone. */
  function RefreshMirror(j: map<string, Entry<Text>>, key: string, target: string, title: string)
    : (r: map<string, Entry<Text>>)
    ensures r.Keys == j.Keys
    ensures forall k :: k in j && k != key ==> r[k] == j[k]
    ensures r != j ==>
              key in j && j[key].value.Json? && j[key].value.v.JObj?
              && var fields := j[key].value.v.fields;
                 "chatId" in fields && ToStringCall(fields["chatId"]) == Some(target)
                 && r[key].ttl == (if j[key].ttl > 0 then j[key].ttl else NoExpiry)
                 && r[key].value.Json? && r[key].value.v.JObj?
                 && var out := r[key].value.v.fields;
                    out.Keys == fields.Keys + {"chatId", "title", "messages"}
                    && out["chatId"] == JStr(target) && out["title"] == JStr(title)
                    && forall f :: f in fields && f !in {"chatId", "title", "messages"} ==> out[f] == fields[f]
  {
    if key !in j || TextBlank(j[key].value) then j
    else match Parse(j[key].value)
      case None => j
      case Some(parsed) =>
        var cid := Get(parsed, "chatId");
        if cid.None? || ToStringCall(cid.value) != Some(target) then j
        else
          var msgs := Get(parsed, "messages");
          var items := if IsArray(msgs) then ToStrings(msgs.value.items) else Some([]);
          if items.None? then j
          else
            var out := parsed.fields["chatId" := JStr(target)]["title" := JStr(title)]["messages" := JArr(items.value)];
            j[key := Entry(Json(JObj(out)), if j[key].ttl > 0 then j[key].ttl else NoExpiry)]
  }

  /** A mirror the controllers wrote for the target chat is renamed and
      nothing else about it changes: same messages, same lifetime. */
  lemma RefreshRenamesOnly(j: map<string, Entry<Text>>, doc: ChatDoc, investorId: string, title: string, ttl: int)
    requires doc.id != "" && ttl > 0
    ensures var key := RawActiveKey(investorId);
            var before := j[key := Entry(Json(JObj(RestoredMirror(doc, investorId))), ttl)];
            RefreshMirror(before, key, doc.id, title)
            == before[key := Entry(Json(JObj(RestoredMirror(ChatDoc(doc.id, doc.rec.(title := title)), investorId))), ttl)]
  {
    ToStringsOfStrings(doc.rec.messages);
    var m := RestoredMirror(doc, investorId);
    var m' := RestoredMirror(ChatDoc(doc.id, doc.rec.(title := title)), investorId);
    assert m["chatId" := JStr(doc.id)]["title" := JStr(title)]["messages" := m["messages"]] == m';
  }

  /** Lines 51-71. */
  method ResolveTarget(db: Db, cache: Cache, investorId: string, target: string) returns (t: Outcome<string>)
    modifies cache
    ensures OnlyJsonChanged(cache)
    ensures Targeted(db.chats, investorId, target, t, old(cache.json), cache.json)
  {
    if target != "" {
      return Ok(target);
    }
    if !IsValidId(investorId) {
      return Throws(CastError);
    }
    var last := LatestChat(db.chats, Canon(investorId));
    if last.None? {
      return Fail(404, "No chat found to update");
    }
    var id := last.value;
    var key := "chat:" + investorId + ":active";
    var m := RestoredMirror(ChatDoc(id, db.chats[id]), investorId);
    ghost var before := cache.json;
    cache.SetJson(key, Json(JObj(m)));
    cache.ExpireJson(key, RestoreTtl);
    SetThenExpire(before, key, Json(JObj(m)), RestoreTtl);
    t := Ok(id);
  }

  /** Lines 81-99: the mirror rewritten when it names the target, with the
      time to live read back first and restored when positive. */
  method RefreshActive(cache: Cache, key: string, target: string, title: string)
    modifies cache
    ensures OnlyJsonChanged(cache)
    ensures cache.json == RefreshMirror(old(cache.json), key, target, title)
  {
    var raw := cache.GetJson(key);
    if raw.None? || TextBlank(raw.value) {
      return;
    }
    var parsed := Parse(raw.value);
    if parsed.None? {
      return;
    }
    var cid := Get(parsed.value, "chatId");
    if cid.None? || ToStringCall(cid.value) != Some(target) {
      return;
    }
    var msgs := Get(parsed.value, "messages");
    var items := if IsArray(msgs) then ToStrings(msgs.value.items) else Some([]);
    if items.None? {
      return;
    }
    var out := parsed.value.fields["chatId" := JStr(target)]["title" := JStr(title)]["messages" := JArr(items.value)];
    var ttl := cache.TtlJson(key);
    cache.SetJson(key, Json(JObj(out)));
    if ttl > 0 {
      cache.ExpireJson(key, ttl);
    }
  }

  /** Lines 74-101 once the target `t` is resolved and the cache is `j1`:
      the target must be the investor's chat, which is renamed, and the
      active mirror is refreshed. */
  ghost predicate Renamed(chats0: map<string, ChatRec>, chats1: map<string, ChatRec>, investorId: string,
                          t: Outcome<string>, title: string, j1: map<string, Entry<Text>>,
                          j2: map<string, Entry<Text>>, r: Outcome<ApiResponse<ChatDoc>>)
  {
    (t.Throws? ==> r == Throws(t.error) && chats1 == chats0 && j2 == j1)
    && (t.Ok? ==>
          var found := FindOwned(chats0, t.value, investorId);
          (found.Throws? ==> r == Throws(CastError) && chats1 == chats0 && j2 == j1)
          && (found == Ok(None) ==> r == Fail(404, "Chat not found") && chats1 == chats0 && j2 == j1)
          && (found.Ok? && found.value.Some? ==>
                var doc := found.value.value;
                var renamed := doc.rec.(title := title);
                chats1 == chats0[doc.id := renamed]
                && r == Respond(200, ChatDoc(doc.id, renamed), "Chat updated successfully")
                && j2 == RefreshMirror(j1, RawActiveKey(investorId), t.value, title)))
  }

  /** Lines 51-101 for a checked title. */
  method ApplyTitle(db: Db, cache: Cache, investorId: string, target: string, title: string)
    returns (r: Outcome<ApiResponse<ChatDoc>>)
    modifies db, cache
    ensures OnlyChatsChanged(db) && OnlyJsonChanged(cache)
    ensures exists t: Outcome<string>, j1: map<string, Entry<Text>> ::
              Targeted(old(db.chats), investorId, target, t, old(cache.json), j1)
              && Renamed(old(db.chats), db.chats, investorId, t, title, j1, cache.json, r)
  {
    var t := ResolveTarget(db, cache, investorId, target);
    ghost var j1 := cache.json;
    if t.Throws? {
      r := Throws(t.error);
      assert Renamed(old(db.chats), db.chats, investorId, t, title, j1, cache.json, r);
      return;
    }
    var found := FindOwned(db.chats, t.value, investorId);
    if found.Throws? {
      r := Throws(CastError);
    } else if found.value.None? {
      r := Fail(404, "Chat not found");
    } else {
      var doc := found.value.value;
      var renamed := doc.rec.(title := title);
      db.chats := db.chats[doc.id := renamed];
      RefreshActive(cache, "chat:" + investorId + ":active", t.value, title);
      r := Respond(200, ChatDoc(doc.id, renamed), "Chat updated successfully");
    }
    assert Renamed(old(db.chats), db.chats, investorId, t, title, j1, cache.json, r);
  }

  /** `UpdateChat(req)`: `header` is the `x-temp-user-id` header, `body` the
      parsed request body (`None` when it is not JSON). Only the chats and
      the cache's JSON keys change. */
  method UpdateChat(db: Db, cache: Cache, header: Option<string>, body: Option<Js>)
    returns (r: Outcome<ApiResponse<ChatDoc>>)
    modifies db, cache
    ensures OnlyChatsChanged(db) && OnlyJsonChanged(cache)
    ensures InvestorHeader(header) == "" ==>
              r == Fail(400, "Missing investor id") && db.chats == old(db.chats) && cache.json == old(cache.json)
    ensures InvestorHeader(header) != "" && body.None? ==>
              r == Fail(400, "Invalid JSON body") && db.chats == old(db.chats) && cache.json == old(cache.json)
    // destructuring a `null` body throws
    ensures InvestorHeader(header) != "" && body == Some(JNull) ==>
              r == Throws(TypeError) && db.chats == old(db.chats) && cache.json == old(cache.json)
    // the title is checked before anything changes
    ensures InvestorHeader(header) != "" && body.Some? && body.value != JNull
            && !(TruthyOpt(Get(body.value, "title")) && Get(body.value, "title").value.JStr?) ==>
              r == Fail(400, "Title is required") && db.chats == old(db.chats) && cache.json == old(cache.json)
    ensures InvestorHeader(header) != "" && body.Some? && body.value != JNull
            && TruthyOpt(Get(body.value, "title")) && Get(body.value, "title").value.JStr? ==>
              var investorId := InvestorHeader(header);
              var key := RawActiveKey(investorId);
              var title := Get(body.value, "title").value.s;
              var target := Target(Get(body.value, "chatId"), ValueOf(old(cache.json), key));
              exists t: Outcome<string>, j1: map<string, Entry<Text>> ::
                Targeted(old(db.chats), investorId, target, t, old(cache.json), j1)
                && Renamed(old(db.chats), db.chats, investorId, t, title, j1, cache.json, r)
  {
    var investorId := InvestorHeader(header);
    if investorId == "" {
      return Fail(400, "Missing investor id");
    }
    var key := "chat:" + investorId + ":active";
    var mirrorTarget := MirrorTarget(cache.GetJson(key));
    if body.None? {
      return Fail(400, "Invalid JSON body");
    }
    if body.value == JNull {
      return Throws(TypeError);
    }
    var title := Get(body.value, "title");
    if !(TruthyOpt(title) && title.value.JStr?) {
      return Fail(400, "Title is required");
    }
    var bodyTarget := BodyTarget(Get(body.value, "chatId"));
    var target := if bodyTarget != "" then bodyTarget else mirrorTarget;

    r := ApplyTitle(db, cache, investorId, target, title.value.s);
  }
}
