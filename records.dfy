/** The stored documents (the Mongoose models) and the cache entries. */
module Records {
  import opened Wrappers
  import opened Json

  /** A Chat document: owner, title, ordered message ids and creation time.
      Ids inside records are canonical (lower-case) id strings. */
  datatype ChatRec = ChatRec(investorId: string, title: string, messages: seq<string>, createdAt: int)

  /** A Chat document together with its id, as the controllers hold it. */
  datatype ChatDoc = ChatDoc(id: string, rec: ChatRec)

  /** A Message document links one prompt with one AI response. */
  datatype MessageRec = MessageRec(investorId: string, chatId: Option<string>, prompt: string,
                                   aiResponse: string, createdAt: int)

  /** A Prompt document. */
  datatype PromptRec = PromptRec(investorId: string, text: string)

  /** A GenAiResponse document: the generator's fields and the owner. */
  datatype AiRec = AiRec(fields: Obj, investorId: string)

  /** The History document of one investor: its own id and the chat ledger. */
  datatype HistoryRec = HistoryRec(id: string, chats: seq<string>)

  /** The Investor fields the modelled controllers read or write. The stored
      password stands for its hash. */
  datatype InvestorRec = InvestorRec(name: string, email: string, password: string,
                                     phone: Option<string>, companyName: Option<string>,
                                     verified: bool)

  /** A cache entry: its value and its time to live in seconds, -1 for none. */
  datatype Entry<V> = Entry(value: V, ttl: int)

  const NoExpiry: int := -1

  /** `EXPIRE key seconds`: no effect on a missing key, a non-positive time
      deletes the key. */
  function ExpireIn<V>(m: map<string, Entry<V>>, k: string, seconds: int): (r: map<string, Entry<V>>)
    ensures k !in m ==> r == m
    ensures k in m && seconds <= 0 ==> r.Keys == m.Keys - {k}
    ensures k in m && seconds > 0 ==> r.Keys == m.Keys && r[k] == Entry(m[k].value, seconds)
    ensures forall j :: j in r && j != k ==> j in m && r[j] == m[j]
  {
    if k !in m then m
    else if seconds <= 0 then m - {k}
    else m[k := Entry(m[k].value, seconds)]
  }

  function ValueOf<V>(m: map<string, Entry<V>>, k: string): (r: Option<V>)
    ensures r.Some? <==> k in m
    ensures r.Some? ==> r.value == m[k].value
  {
    if k in m then Some(m[k].value) else None
  }

  /** `TTL key`: -2 for a missing key, -1 for a key with no expiry. */
  function TtlOf<V>(m: map<string, Entry<V>>, k: string): (r: int)
    ensures k !in m ==> r == -2
    ensures k in m ==> r == m[k].ttl
  {
    if k in m then m[k].ttl else -2
  }

  /** Writing a value and then giving it a positive lifetime stores exactly
      that value with that lifetime; the other keys are untouched. */
  lemma SetThenExpire<V>(m: map<string, Entry<V>>, k: string, v: V, seconds: int)
    requires seconds > 0
    ensures ExpireIn(m[k := Entry(v, NoExpiry)], k, seconds) == m[k := Entry(v, seconds)]
    ensures TtlOf(ExpireIn(m[k := Entry(v, NoExpiry)], k, seconds), k) == seconds
    ensures ValueOf(ExpireIn(m[k := Entry(v, NoExpiry)], k, seconds), k) == Some(v)
  {
  }
}
