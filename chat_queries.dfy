/** The Chat queries the chat controllers run with an owner filter, and the
    mirror they write when they restore a stored chat as the active one. */
module ChatQueries {
  import opened Wrappers
  import opened Json
  import opened Ids
  import opened Api
  import opened Records

  /** Lifetime the controllers give a restored mirror: 24 hours. */
  const RestoreTtl: int := 86400

  /** The chat `id` is stored and belongs to the investor `owner`. */
  predicate Owned(chats: map<string, ChatRec>, id: string, owner: string) {
    id in chats && chats[id].investorId == owner
  }

  /** `Chat.exists({ _id: id, investorId })`: both values are cast to ids, and
      a value that is not one makes the query throw. */
  function ChatExists(chats: map<string, ChatRec>, id: Js, investorId: string): (r: Outcome<bool>)
    ensures r.Throws? <==> Cast(id).None? || !IsValidId(investorId)
    ensures r.Throws? ==> r.error == CastError
    ensures r.Ok? ==> (r.value <==> Owned(chats, Cast(id).value, Canon(investorId)))
  {
    match (Cast(id), Cast(JStr(investorId)))
    case (Some(c), Some(owner)) => Ok(Owned(chats, c, owner))
    case _ => Throws(CastError)
  }

  /** `Chat.findOne({ _id: chatId, investorId })`, cast as `ChatExists`. */
  function FindOwned(chats: map<string, ChatRec>, chatId: string, investorId: string): (r: Outcome<Option<ChatDoc>>)
    ensures r.Throws? <==> !IsValidId(chatId) || !IsValidId(investorId)
    ensures r.Throws? ==> r.error == CastError
    ensures r.Ok? && r.value.Some? ==>
              r.value.value.id == Canon(chatId) && Owned(chats, Canon(chatId), Canon(investorId))
              && r.value.value.rec == chats[Canon(chatId)]
    ensures r.Ok? && r.value.None? ==> !Owned(chats, Canon(chatId), Canon(investorId))
  {
    match ChatExists(chats, JStr(chatId), investorId)
    case Throws(e) => Throws(e)
    case Ok(found) =>
      if found then Ok(Some(ChatDoc(Canon(chatId), chats[Canon(chatId)]))) else Ok(None)
  }

  /** The investor owns at least one chat. */
  predicate HasChats(chats: map<string, ChatRec>, owner: string) {
    exists k :: k in chats && Owned(chats, k, owner)
  }

  /** `id` is a newest chat of `owner` by creation time. */
  predicate IsLatest(chats: map<string, ChatRec>, owner: string, id: string) {
    Owned(chats, id, owner)
    && forall k :: k in chats && Owned(chats, k, owner) ==> chats[k].createdAt <= chats[id].createdAt
  }

  /** `Chat.findOne({ investorId }).sort({ createdAt: -1 })` for a cast owner:
      a newest chat of the owner, `None` when it owns none. Which of several
      chats created at the same time comes back is not determined. */
  method LatestChat(chats: map<string, ChatRec>, owner: string) returns (r: Option<string>)
    ensures r.Some? ==> IsLatest(chats, owner, r.value)
    ensures r.None? <==> !HasChats(chats, owner)
  {
    r := None;
    var todo := chats.Keys;
    while todo != {}
      invariant todo <= chats.Keys
      invariant r.Some? ==> Owned(chats, r.value, owner)
      invariant forall k :: Owned(chats, k, owner) && k !in todo ==>
                  r.Some? && chats[k].createdAt <= chats[r.value].createdAt
      decreases |todo|
    {
      var k :| k in todo;
      if chats[k].investorId == owner && (r.None? || chats[k].createdAt > chats[r.value].createdAt) {
        r := Some(k);
      }
      todo := todo - {k};
    }
  }

  /** Two newest chats of one owner were created at the same time, and a chat
      created later than every other becomes the only newest one. */
  lemma LatestUnique(chats: map<string, ChatRec>, owner: string, a: string, b: string, id: string, rec: ChatRec)
    requires IsLatest(chats, owner, a) && IsLatest(chats, owner, b)
    requires rec.investorId == owner && a != id && rec.createdAt > chats[a].createdAt
    ensures chats[a].createdAt == chats[b].createdAt
    ensures IsLatest(chats[id := rec], owner, id)
    ensures !IsLatest(chats[id := rec], owner, a)
  {
    var c := chats[id := rec];
    forall k | Owned(c, k, owner) ensures c[k].createdAt <= c[id].createdAt {
      if k != id {
        assert Owned(chats, k, owner);
      }
    }
    assert Owned(c, id, owner);
  }

  /** The mirror the chat controllers build from a stored chat: its id, the
      header's investor id as given, its title, its creation time and its
      message ids as strings. */
  function RestoredMirror(doc: ChatDoc, investorId: string): (m: Obj)
    ensures doc.id != "" ==> TruthyOpt(Field(m, "chatId")) && IsArray(Field(m, "messages"))
    ensures "chatId" in m && m["chatId"] == JStr(doc.id)
    ensures "messages" in m && m["messages"] == JArr(StrArr(doc.rec.messages))
    ensures "title" in m && m["title"] == JStr(doc.rec.title)
    ensures "investorId" in m && m["investorId"] == JStr(investorId)
  {
    map["chatId" := JStr(doc.id), "investorId" := JStr(investorId), "title" := JStr(doc.rec.title),
        "createdAt" := JNum(doc.rec.createdAt), "messages" := JArr(StrArr(doc.rec.messages))]
  }

  /** The ledger mirror the chat controllers write: the History id, the
      header's investor id and the chat ids as strings. */
  function LedgerMirror(rec: HistoryRec, investorId: string): (m: Obj)
    ensures "_id" in m && m["_id"] == JStr(rec.id)
    ensures "chats" in m && m["chats"] == JArr(StrArr(rec.chats))
  {
    map["_id" := JStr(rec.id), "investorId" := JStr(investorId), "chats" := JArr(StrArr(rec.chats))]
  }
}
