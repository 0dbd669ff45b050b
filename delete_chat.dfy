/** Deleting one chat or all chats of an investor
    (controllers/chat/deleteChat.controller.ts). */
module DeleteChat {
  import opened Wrappers
  import opened Json
  import opened Ids
  import opened Seqs
  import opened Api
  import opened Records
  import opened Store
  import opened Requests
  import opened ChatQueries
  import opened HistoryService
  import opened Hydrate

  /** The store's collections and the cache's JSON keys as one value. */
  datatype World = World(chats: map<string, ChatRec>, messages: map<string, MessageRec>,
                         prompts: map<string, PromptRec>, ais: map<string, AiRec>,
                         histories: map<string, HistoryRec>, json: map<string, Entry<Text>>)

  function Snapshot(db: Db, cache: Cache): World
    reads db, cache
  {
    World(db.chats, db.messages, db.prompts, db.aiResponses, db.histories, cache.json)
  }

  /** What remains to do once the targets are chosen: answer `message` and
      stop, or delete `targets` and then point the active chat at
      `newActive`. */
  datatype Plan = Stop(message: string) | Remove(targets: seq<string>, newActive: Option<Js>)

  /** Line 25: `deleteAll === true || deleteAll === "true"`. */
  function DeleteAllFlag(v: Option<Js>): (r: bool)
    ensures r <==> v == Some(JBool(true)) || v == Some(JStr("true"))
  {
    match v
    case Some(JBool(b)) => b
    case Some(JStr(s)) => s == "true"
    case _ => false
  }

  /** `list.includes(x)`: an array or object is never identical to an
      element parsed separately, any other value is compared by value. */
  predicate Includes(list: seq<Js>, x: Js) {
    !x.JArr? && !x.JObj? && x in list
  }

  /** Lines 31-45: a cached ledger is used only when its text is not empty,
      parses, and has a truthy `_id` and an array `chats`. */
  function CachedLedger(t: Option<Text>): (r: Option<HistoryObj>)
    ensures r.Some? ==> t.Some? && !TextFalsy(t.value) && Parse(t.value).Some?
                        && TruthyOpt(Get(Parse(t.value).value, "_id")) && IsArray(Get(Parse(t.value).value, "chats"))
    ensures r.Some? ==> r.value == HistoryObj(Get(Parse(t.value).value, "_id").value,
                                             Get(Parse(t.value).value, "chats").value.items)
    ensures (t.Some? && !TextFalsy(t.value) && Parse(t.value).Some?
             && TruthyOpt(Get(Parse(t.value).value, "_id")) && IsArray(Get(Parse(t.value).value, "chats"))) ==> r.Some?
  {
    if t.None? || TextFalsy(t.value) then None
    else match Parse(t.value)
      case None => None
      case Some(v) =>
        var id := Get(v, "_id");
        var chats := Get(v, "chats");
        if TruthyOpt(id) && IsArray(chats) then Some(HistoryObj(id.value, chats.value.items)) else None
  }

  /** The ledger this controller accepts from the cache is accepted, unchanged,
      by the history service too, and every ledger mirror is accepted. */
  lemma CachedLedgerAgrees(t: Text, rec: HistoryRec, investorId: string)
    requires rec.id != ""
    ensures CachedLedger(Some(t)).Some? ==> CachedHistory(Some(t)) == CachedLedger(Some(t))
    ensures CachedLedger(Some(Json(JObj(LedgerMirror(rec, investorId))))) == Some(FromRec(rec))
  {
  }

  // ------------------------------------------------------------------
  // Steps 1 and 2: the ledger
  // ------------------------------------------------------------------

  /** The ledger the controller works on: the cached one, else the stored
      one; `None` when there is neither. The store lookup casts the header. */
  function LedgerFor(w: World, investorId: string): Outcome<Option<HistoryObj>> {
    var cached := CachedLedger(ValueOf(w.json, HistoryKey(investorId)));
    if cached.Some? then Ok(cached)
    else if !IsValidId(investorId) then Throws(CastError)
    else if Canon(investorId) !in w.histories then Ok(None)
    else Ok(Some(FromRec(w.histories[Canon(investorId)])))
  }

  /** A stored ledger fetched on a cache miss is written to the cache. */
  function AfterLoad(w: World, investorId: string): World {
    var cached := CachedLedger(ValueOf(w.json, HistoryKey(investorId)));
    if cached.None? && IsValidId(investorId) && Canon(investorId) in w.histories then
      var rec := w.histories[Canon(investorId)];
      w.(json := w.json[HistoryKey(investorId) := Entry(Json(JObj(LedgerMirror(rec, investorId))), HistoryTtl)])
    else w
  }

  method LoadLedger(db: Db, cache: Cache, investorId: string) returns (h: Outcome<Option<HistoryObj>>)
    modifies cache
    ensures OnlyJsonChanged(cache)
    ensures h == LedgerFor(old(Snapshot(db, cache)), investorId)
    ensures Snapshot(db, cache) == AfterLoad(old(Snapshot(db, cache)), investorId)
  {
    var key := "history:" + investorId;
    var cached := CachedLedger(cache.GetJson(key));
    if cached.Some? {
      return Ok(cached);
    }
    if !IsValidId(investorId) {
      return Throws(CastError);
    }
    var owner := Canon(investorId);
    if owner !in db.histories {
      return Ok(None);
    }
    var rec := db.histories[owner];
    ghost var before := cache.json;
    cache.SetJson(key, Json(JObj(LedgerMirror(rec, investorId))));
    cache.ExpireJson(key, HistoryTtl);
    SetThenExpire(before, key, Json(JObj(LedgerMirror(rec, investorId))), HistoryTtl);
    h := Ok(Some(FromRec(rec)));
  }

  // ------------------------------------------------------------------
  // Step 3: the targets
  // ------------------------------------------------------------------

  /** Line 66: every ledger entry made an id, `None` where one is not. */
  function AllTargets(chats: seq<Js>): (r: Option<seq<string>>)
    ensures r.Some? <==> AllIdValues(chats)
    ensures r.Some? ==> |r.value| == |chats| && forall i :: 0 <= i < |chats| ==> Cast(chats[i]) == Some(r.value[i])
  {
    if AllIdValues(chats) then Some(CanonIds(chats)) else None
  }

  /** Lines 89-97: the chat id the active mirror names, read only from a
      non-empty text that parses. */
  function ActiveChatId(t: Option<Text>): (r: Option<Js>)
    ensures r.Some? ==> t.Some? && !TextFalsy(t.value) && Parse(t.value).Some?
                        && r == Get(Parse(t.value).value, "chatId")
  {
    if t.None? || TextFalsy(t.value) then None
    else match Parse(t.value)
      case None => None
      case Some(v) => Get(v, "chatId")
  }

  /** The chat id a single deletion is about: the body's when truthy, else
      the active mirror's. */
  function Chosen(json: map<string, Entry<Text>>, investorId: string, chatId: Option<Js>): Option<Js> {
    if TruthyOpt(chatId) then chatId else ActiveChatId(ValueOf(json, RawActiveKey(investorId)))
  }

  /** The last element of a list, if any. */
  function Last(s: seq<Js>): (r: Option<Js>)
    ensures r.None? <==> s == []
    ensures r.Some? ==> r.value == s[|s| - 1]
  {
    if s == [] then None else Some(s[|s| - 1])
  }

  /** Lines 61-117: what to delete. Delete-all targets every ledger entry
      and never names a new active chat; a single deletion needs a chat id
      that the ledger holds, and names the last other ledger entry as the
      new active chat. */
  function PlanFor(json: map<string, Entry<Text>>, investorId: string, h: HistoryObj, chatId: Option<Js>, all: bool)
    : (r: Outcome<Plan>)
    ensures all && r.Ok? ==> r.value.Remove? && r.value.newActive.None? && AllTargets(h.chats) == Some(r.value.targets)
    ensures !all && r.Ok? && r.value.Remove? ==>
              var c := Chosen(json, investorId, chatId);
              c.Some? && Includes(h.chats, c.value) && Cast(c.value).Some? && r.value.targets == [Cast(c.value).value]
              && r.value.newActive == Last(Without(h.chats, {c.value}))
    ensures !all && !TruthyOpt(Chosen(json, investorId, chatId)) ==>
              r == Ok(Stop("No chatId provided and no active chat found"))
  {
    if all then
      match AllTargets(h.chats)
      case None => Throws(BsonError)
      case Some(ts) => Ok(Remove(ts, None))
    else
      var c := Chosen(json, investorId, chatId);
      if !TruthyOpt(c) then Ok(Stop("No chatId provided and no active chat found"))
      else if !Includes(h.chats, c.value) then Ok(Stop("ChatId not found in history"))
      else match Cast(c.value)
        case None => Throws(BsonError)
        case Some(id) => Ok(Remove([id], Last(Without(h.chats, {c.value}))))
  }

  /** The active key is deleted by delete-all when it holds a non-empty
      text (after every target was made an id), and by a single deletion
      when that key supplied the chat id. */
  function AfterPlan(json: map<string, Entry<Text>>, investorId: string, h: HistoryObj, chatId: Option<Js>, all: bool)
    : map<string, Entry<Text>>
  {
    var key := RawActiveKey(investorId);
    if all then
      if AllTargets(h.chats).Some? && key in json && !TextFalsy(json[key].value) then json - {key} else json
    else if !TruthyOpt(chatId) && TruthyOpt(ActiveChatId(ValueOf(json, key))) then json - {key}
    else json
  }

  method ChooseTargets(cache: Cache, investorId: string, h: HistoryObj, chatId: Option<Js>, all: bool)
    returns (p: Outcome<Plan>)
    modifies cache
    ensures OnlyJsonChanged(cache)
    ensures p == PlanFor(old(cache.json), investorId, h, chatId, all)
    ensures cache.json == AfterPlan(old(cache.json), investorId, h, chatId, all)
  {
    var key := "chat:" + investorId + ":active";
    if all {
      var ts := AllTargets(h.chats);
      if ts.None? {
        return Throws(BsonError);
      }
      var activeRaw := cache.GetJson(key);
      if activeRaw.Some? && !TextFalsy(activeRaw.value) {
        cache.DelJson(key);
      }
      return Ok(Remove(ts.value, None));
    }
    var c := chatId;
    if !TruthyOpt(c) {
      c := ActiveChatId(cache.GetJson(key));
      if TruthyOpt(c) {
        cache.DelJson(key);
      }
    }
    if !TruthyOpt(c) {
      return Ok(Stop("No chatId provided and no active chat found"));
    }
    if !Includes(h.chats, c.value) {
      return Ok(Stop("ChatId not found in history"));
    }
    var id := Cast(c.value);
    if id.None? {
      return Throws(BsonError);
    }
    var remaining := Without(h.chats, {c.value});
    p := Ok(Remove([id.value], Last(remaining)));
  }

  // ------------------------------------------------------------------
  // Steps 4 to 6: the cascade
  // ------------------------------------------------------------------

  /** A message of an owned target: `x` is a non-empty entry of the messages
      of `ts[i]`, a chat of `owner`. */
  predicate FromTargets(chats: map<string, ChatRec>, ts: seq<string>, owner: string, x: string) {
    exists i :: 0 <= i < |ts| && Owned(chats, ts[i], owner) && x != "" && x in chats[ts[i]].messages
  }

  /** Lines 120-133: the message ids of the targets the investor owns, in the
      order the chats are visited; the schema keeps every stored entry an id,
      so none of them is cast again. */
  function MessageIdsOf(chats: map<string, ChatRec>, ts: seq<string>, owner: string): (r: seq<string>)
    ensures forall x :: x in r <==> FromTargets(chats, ts, owner, x)
    decreases |ts|
  {
    if ts == [] then []
    else
      var prev := ts[..|ts| - 1];
      var t := ts[|ts| - 1];
      var r := MessageIdsOf(chats, prev, owner) + (if Owned(chats, t, owner) then Without(chats[t].messages, {""}) else []);
      assert forall x :: FromTargets(chats, ts, owner, x) ==> x in r by {
        forall x | FromTargets(chats, ts, owner, x) ensures x in r {
          var i :| 0 <= i < |ts| && Owned(chats, ts[i], owner) && x != "" && x in chats[ts[i]].messages;
          if i < |ts| - 1 {
            assert prev[i] == ts[i];
            assert FromTargets(chats, prev, owner, x);
          }
        }
      }
      assert forall x :: x in r ==> FromTargets(chats, ts, owner, x) by {
        forall x | x in r ensures FromTargets(chats, ts, owner, x) {
          if x in MessageIdsOf(chats, prev, owner) {
            var i :| 0 <= i < |prev| && Owned(chats, prev[i], owner) && x != "" && x in chats[prev[i]].messages;
            assert ts[i] == prev[i];
          } else {
            assert Owned(chats, ts[|ts| - 1], owner) && x != "" && x in chats[t].messages;
          }
        }
      }
      r
  }

  /** Lines 120-133 with the `forEach` loop. */
  method CollectMessageIds(chats: map<string, ChatRec>, targets: seq<string>, owner: string)
    returns (ids: seq<string>)
    ensures ids == MessageIdsOf(chats, targets, owner)
  {
    ids := [];
    var i := 0;
    while i < |targets|
      invariant 0 <= i <= |targets|
      invariant MessageIdsOf(chats, targets[..i], owner) == ids
    {
      assert targets[..i + 1][..i] == targets[..i];
      var t := targets[i];
      if t in chats && chats[t].investorId == owner {
        ids := ids + Without(chats[t].messages, {""});
      }
      i := i + 1;
    }
    assert targets[..i] == targets;
  }

  /** The ids of the found messages' prompts (`filter(Boolean)` drops the empty ones). */
  function PromptRefs(messages: map<string, MessageRec>, ids: seq<string>): (r: set<string>)
    ensures forall p :: p in r <==> exists k :: k in ids && k in messages && messages[k].prompt == p && p != ""
  {
    set k | k in ids && k in messages && messages[k].prompt != "" :: messages[k].prompt
  }

  /** The ids of the found messages' AI responses. */
  function AiRefs(messages: map<string, MessageRec>, ids: seq<string>): (r: set<string>)
    ensures forall a :: a in r <==> exists k :: k in ids && k in messages && messages[k].aiResponse == a && a != ""
  {
    set k | k in ids && k in messages && messages[k].aiResponse != "" :: messages[k].aiResponse
  }

  /** The targets the investor owns: what `Chat.deleteMany` matches. */
  function OwnedTargets(chats: map<string, ChatRec>, targets: seq<string>, owner: string): (r: set<string>)
    ensures forall t :: t in r <==> t in targets && Owned(chats, t, owner)
  {
    set t | t in targets && t in chats && chats[t].investorId == owner
  }

  /** Lines 137-170 on the store: the prompts and AI responses the found
      messages name, then those messages, then the investor's target chats
      are removed. */
  function AfterCascade(w: World, owner: string, targets: seq<string>, ids: seq<string>): World {
    w.(prompts := w.prompts - PromptRefs(w.messages, ids), ais := w.ais - AiRefs(w.messages, ids),
       messages := w.messages - (set x | x in ids), chats := w.chats - OwnedTargets(w.chats, targets, owner))
  }

  method Cascade(db: Db, owner: string, targets: seq<string>, ids: seq<string>)
    modifies db
    ensures db.histories == old(db.histories) && db.investors == old(db.investors)
    ensures db.prompts == old(db.prompts) - PromptRefs(old(db.messages), ids)
    ensures db.aiResponses == old(db.aiResponses) - AiRefs(old(db.messages), ids)
    ensures db.messages == old(db.messages) - (set x | x in ids)
    ensures db.chats == old(db.chats) - OwnedTargets(old(db.chats), targets, owner)
  {
    db.prompts := db.prompts - PromptRefs(db.messages, ids);
    db.aiResponses := db.aiResponses - AiRefs(db.messages, ids);
    db.messages := db.messages - (set x | x in ids);
    db.chats := db.chats - OwnedTargets(db.chats, targets, owner);
  }

  // ------------------------------------------------------------------
  // Steps 7 and 8: ledger and active chat
  // ------------------------------------------------------------------

  /** Lines 172-189: the stored ledger loses every target, keeping the order
      of the rest, and the cache gets a copy of it. */
  function AfterRepair(w: World, investorId: string, targets: seq<string>): World
    requires IsValidId(investorId)
  {
    var owner := Canon(investorId);
    if owner !in w.histories then w
    else
      var rec := w.histories[owner].(chats := Without(w.histories[owner].chats, set t | t in targets));
      w.(histories := w.histories[owner := rec],
         json := w.json[HistoryKey(investorId) := Entry(Json(JObj(LedgerMirror(rec, investorId))), HistoryTtl)])
  }

  /** The mirror naming only the new active chat. */
  function ActiveStub(chatId: Js): Obj {
    map["chatId" := chatId]
  }

  /** Lines 192-196: a truthy new active chat is written with no lifetime. */
  function AfterRepoint(w: World, investorId: string, newActive: Option<Js>): World {
    if TruthyOpt(newActive) then
      w.(json := w.json[RawActiveKey(investorId) := Entry(Json(JObj(ActiveStub(newActive.value))), NoExpiry)])
    else w
  }

  method RepairLedger(db: Db, cache: Cache, investorId: string, targets: seq<string>)
    requires IsValidId(investorId)
    modifies db, cache
    ensures OnlyJsonChanged(cache)
    ensures db.investors == old(db.investors)
    ensures Snapshot(db, cache) == AfterRepair(old(Snapshot(db, cache)), investorId, targets)
  {
    var owner := Canon(investorId);
    if owner !in db.histories {
      return;
    }
    var rec := db.histories[owner].(chats := Without(db.histories[owner].chats, set t | t in targets));
    db.histories := db.histories[owner := rec];
    var key := "history:" + investorId;
    ghost var before := cache.json;
    cache.SetJson(key, Json(JObj(LedgerMirror(rec, investorId))));
    cache.ExpireJson(key, HistoryTtl);
    SetThenExpire(before, key, Json(JObj(LedgerMirror(rec, investorId))), HistoryTtl);
  }

  // ------------------------------------------------------------------
  // The whole controller
  // ------------------------------------------------------------------

  /** Steps 4 to 8 for a plan that removes `targets`: the chat query casts
      the header. */
  function Removal(w: World, investorId: string, targets: seq<string>, newActive: Option<Js>, all: bool)
    : (Outcome<ApiResponse<()>>, World)
  {
    if !IsValidId(investorId) then (Throws(CastError), w)
    else
      var owner := Canon(investorId);
      var w1 := AfterRepair(AfterCascade(w, owner, targets, MessageIdsOf(w.chats, targets, owner)), investorId, targets);
      (Respond(200, (), if all then "All chats deleted successfully" else "Chat deleted successfully"),
       AfterRepoint(w1, investorId, newActive))
  }

  /** Steps 3 to 8 once the ledger `h` is loaded into `w`. */
  function WithLedger(w: World, investorId: string, h: HistoryObj, chatId: Option<Js>, all: bool)
    : (Outcome<ApiResponse<()>>, World)
  {
    var w1 := w.(json := AfterPlan(w.json, investorId, h, chatId, all));
    match PlanFor(w.json, investorId, h, chatId, all)
    case Throws(e) => (Throws(e), w1)
    case Ok(Stop(message)) => (Respond(200, (), message), w1)
    case Ok(Remove(targets, newActive)) => Removal(w1, investorId, targets, newActive, all)
  }

  /** Steps 1 to 8 for a non-empty header and a body that is not `null`. */
  function Delete(w: World, investorId: string, chatId: Option<Js>, all: bool): (Outcome<ApiResponse<()>>, World) {
    match LedgerFor(w, investorId)
    case Throws(e) => (Throws(e), w)
    case Ok(None) => (Respond(200, (), "No history found"), w)
    case Ok(Some(h)) => WithLedger(AfterLoad(w, investorId), investorId, h, chatId, all)
  }

  /** `DeleteChat(req)` over the world `w`: `header` is the `x-temp-user-id`
      header and `body` the parsed request body, `None` when it is not JSON
      (read as `{}`). */
  function DeleteChatSpec(w: World, header: Option<string>, body: Option<Js>): (r: (Outcome<ApiResponse<()>>, World))
    ensures InvestorHeader(header) == "" ==> r == (Fail(400, "Missing investor id"), w)
    ensures InvestorHeader(header) != "" && body == Some(JNull) ==> r == (Throws(TypeError), w)
  {
    var investorId := InvestorHeader(header);
    if investorId == "" then (Fail(400, "Missing investor id"), w)
    else if body == Some(JNull) then (Throws(TypeError), w)
    else
      var chatId := if body.None? then None else Get(body.value, "chatId");
      var all := DeleteAllFlag(if body.None? then None else Get(body.value, "deleteAll"));
      Delete(w, investorId, chatId, all)
  }

  method DeleteChat(db: Db, cache: Cache, header: Option<string>, body: Option<Js>)
    returns (r: Outcome<ApiResponse<()>>)
    modifies db, cache
    ensures OnlyJsonChanged(cache) && db.investors == old(db.investors)
    ensures (r, Snapshot(db, cache)) == DeleteChatSpec(old(Snapshot(db, cache)), header, body)
  {
    var investorId := InvestorHeader(header);
    if investorId == "" {
      return Fail(400, "Missing investor id");
    }
    if body == Some(JNull) {
      return Throws(TypeError);
    }
    var chatId := if body.None? then None else Get(body.value, "chatId");
    var all := DeleteAllFlag(if body.None? then None else Get(body.value, "deleteAll"));
    r := RunDelete(db, cache, investorId, chatId, all);
  }

  method RunDelete(db: Db, cache: Cache, investorId: string, chatId: Option<Js>, all: bool)
    returns (r: Outcome<ApiResponse<()>>)
    modifies db, cache
    ensures OnlyJsonChanged(cache) && db.investors == old(db.investors)
    ensures (r, Snapshot(db, cache)) == Delete(old(Snapshot(db, cache)), investorId, chatId, all)
  {
    var h := LoadLedger(db, cache, investorId);
    if h.Throws? {
      return Throws(h.error);
    }
    if h.value.None? {
      return Respond(200, (), "No history found");
    }
    r := DeleteWithLedger(db, cache, investorId, h.value.value, chatId, all);
  }

  method DeleteWithLedger(db: Db, cache: Cache, investorId: string, h: HistoryObj, chatId: Option<Js>, all: bool)
    returns (r: Outcome<ApiResponse<()>>)
    modifies db, cache
    ensures OnlyJsonChanged(cache) && db.investors == old(db.investors)
    ensures (r, Snapshot(db, cache)) == WithLedger(old(Snapshot(db, cache)), investorId, h, chatId, all)
  {
    var p := ChooseTargets(cache, investorId, h, chatId, all);
    if p.Throws? {
      return Throws(p.error);
    }
    if p.value.Stop? {
      return Respond(200, (), p.value.message);
    }
    r := RemoveTargets(db, cache, investorId, p.value.targets, p.value.newActive, all);
  }

  method RemoveTargets(db: Db, cache: Cache, investorId: string, targets: seq<string>, newActive: Option<Js>, all: bool)
    returns (r: Outcome<ApiResponse<()>>)
    modifies db, cache
    ensures OnlyJsonChanged(cache) && db.investors == old(db.investors)
    ensures (r, Snapshot(db, cache)) == Removal(old(Snapshot(db, cache)), investorId, targets, newActive, all)
  {
    if !IsValidId(investorId) {
      return Throws(CastError);
    }
    var owner := Canon(investorId);
    var ids := CollectMessageIds(db.chats, targets, owner);
    Cascade(db, owner, targets, ids);
    RepairLedger(db, cache, investorId, targets);
    if TruthyOpt(newActive) {
      cache.SetJson("chat:" + investorId + ":active", Json(JObj(ActiveStub(newActive.value))));
    }
    r := Respond(200, (), if all then "All chats deleted successfully" else "Chat deleted successfully");
  }

  // ------------------------------------------------------------------
  // Properties
  // ------------------------------------------------------------------

  /** The active key and the ledger key of one investor are different keys. */
  lemma KeysDiffer(investorId: string)
    ensures RawActiveKey(investorId) != HistoryKey(investorId)
  {
    assert RawActiveKey(investorId)[0] == 'c' && HistoryKey(investorId)[0] == 'h';
  }

  /** After a removal the stored ledger holds none of the targets, keeps the
      rest in order, and the cache holds the same ledger for a day. */
  lemma RemovalCleansLedger(w: World, investorId: string, targets: seq<string>, newActive: Option<Js>, all: bool)
    requires IsValidId(investorId) && Canon(investorId) in w.histories
    requires w.histories[Canon(investorId)].id != ""
    ensures var w1 := Removal(w, investorId, targets, newActive, all).1;
            var owner := Canon(investorId);
            owner in w1.histories
            && w1.histories[owner].chats == Without(w.histories[owner].chats, set t | t in targets)
            && (forall t :: t in targets ==> t !in w1.histories[owner].chats)
            && TtlOf(w1.json, HistoryKey(investorId)) == HistoryTtl
            && CachedLedger(ValueOf(w1.json, HistoryKey(investorId))) == Some(FromRec(w1.histories[owner]))
  {
    var owner := Canon(investorId);
    KeysDiffer(investorId);
    var w1 := Removal(w, investorId, targets, newActive, all).1;
    var rec := w.histories[owner].(chats := Without(w.histories[owner].chats, set t | t in targets));
    assert w1.histories[owner] == rec;
    assert w1.json[HistoryKey(investorId)] == Entry(Json(JObj(LedgerMirror(rec, investorId))), HistoryTtl);
    CachedLedgerAgrees(Json(JObj(LedgerMirror(rec, investorId))), rec, investorId);
  }

  /** After a removal none of the investor's target chats is stored, nor any
      of their messages, nor the prompts and AI responses those messages
      name; every other chat is kept as it was. */
  lemma RemovalCascades(w: World, investorId: string, targets: seq<string>, newActive: Option<Js>, all: bool)
    requires IsValidId(investorId)
    ensures var w1 := Removal(w, investorId, targets, newActive, all).1;
            var owner := Canon(investorId);
            (forall t :: t in targets && Owned(w.chats, t, owner) ==> t !in w1.chats)
            && (forall k :: k in w.chats && !(k in targets && Owned(w.chats, k, owner)) ==>
                  k in w1.chats && w1.chats[k] == w.chats[k])
            && (forall i, m :: (0 <= i < |targets| && Owned(w.chats, targets[i], owner) && m != ""
                                && m in w.chats[targets[i]].messages) ==>
                  m !in w1.messages
                  && (m in w.messages && w.messages[m].prompt != "" ==> w.messages[m].prompt !in w1.prompts)
                  && (m in w.messages && w.messages[m].aiResponse != "" ==> w.messages[m].aiResponse !in w1.ais))
  {
    var owner := Canon(investorId);
    var ids := MessageIdsOf(w.chats, targets, owner);
    forall i, m | 0 <= i < |targets| && Owned(w.chats, targets[i], owner) && m != ""
                  && m in w.chats[targets[i]].messages
      ensures m in ids
    {
      assert FromTargets(w.chats, targets, owner, m);
    }
  }

  /** A single deletion that leaves a truthy last ledger entry makes it the
      active chat, with no lifetime. */
  lemma RemovalRepoints(w: World, investorId: string, targets: seq<string>, newActive: Option<Js>, all: bool)
    requires IsValidId(investorId) && TruthyOpt(newActive)
    ensures var w1 := Removal(w, investorId, targets, newActive, all).1;
            RawActiveKey(investorId) in w1.json
            && w1.json[RawActiveKey(investorId)] == Entry(Json(JObj(map["chatId" := newActive.value])), NoExpiry)
            && ActiveChatId(ValueOf(w1.json, RawActiveKey(investorId))) == newActive
  {
  }

  /** A delete-all that succeeds leaves no active chat behind: the key is
      gone, or holds the empty text it held before. */
  lemma DeleteAllClearsActive(w: World, investorId: string, h: HistoryObj, chatId: Option<Js>)
    requires WithLedger(w, investorId, h, chatId, true).0.Ok?
    ensures var w1 := WithLedger(w, investorId, h, chatId, true).1;
            RawActiveKey(investorId) !in w1.json || TextFalsy(w1.json[RawActiveKey(investorId)].value)
  {
    KeysDiffer(investorId);
  }

  /** A deletion that stops before the cascade leaves the store as it was. */
  lemma StopKeepsStore(w: World, investorId: string, h: HistoryObj, chatId: Option<Js>, all: bool)
    requires PlanFor(w.json, investorId, h, chatId, all).Ok? && PlanFor(w.json, investorId, h, chatId, all).value.Stop?
    ensures var w1 := WithLedger(w, investorId, h, chatId, all).1;
            w1.chats == w.chats && w1.messages == w.messages && w1.prompts == w.prompts
            && w1.ais == w.ais && w1.histories == w.histories
    ensures WithLedger(w, investorId, h, chatId, all).0
            == Respond(200, (), PlanFor(w.json, investorId, h, chatId, all).value.message)
  {
  }

  /** Only a chat id the ledger holds is deleted; an object or array never is,
      as `includes` compares those by identity. */
  lemma SingleNeedsLedgerEntry(w: World, investorId: string, h: HistoryObj, chatId: Option<Js>)
    requires TruthyOpt(chatId) && !Includes(h.chats, chatId.value)
    ensures WithLedger(w, investorId, h, chatId, false)
            == (Respond(200, (), "ChatId not found in history"), w)
  {
  }

  /** With no History, cached or stored, nothing changes. */
  lemma NoHistoryNoChange(w: World, investorId: string, chatId: Option<Js>, all: bool)
    requires CachedLedger(ValueOf(w.json, HistoryKey(investorId))).None?
    requires IsValidId(investorId) && Canon(investorId) !in w.histories
    ensures Delete(w, investorId, chatId, all) == (Respond(200, (), "No history found"), w)
  {
  }
}
