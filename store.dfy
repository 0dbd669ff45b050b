/** The document store and the key-value cache as mutable objects. */
module Store {
  import opened Wrappers
  import opened Json
  import opened Records

  /** The document store: one map per collection, keyed by canonical id.
      `histories` is keyed by the owning investor (there is at most one
      History per investor). */
  class Db {
    var chats: map<string, ChatRec>
    var messages: map<string, MessageRec>
    var prompts: map<string, PromptRec>
    var aiResponses: map<string, AiRec>
    var histories: map<string, HistoryRec>
    var investors: map<string, InvestorRec>

    constructor()
      ensures chats == map[] && messages == map[] && prompts == map[]
      ensures aiResponses == map[] && histories == map[] && investors == map[]
    {
      chats := map[];
      messages := map[];
      prompts := map[];
      aiResponses := map[];
      histories := map[];
      investors := map[];
    }

    /** Every id this store has handed out, in any collection. */
    function Ids(): set<string>
      reads this
    {
      chats.Keys + messages.Keys + prompts.Keys + aiResponses.Keys + investors.Keys
      + set k | k in histories :: histories[k].id
    }

    /** `Investor.findOne({ email })`. */
    method FindInvestorByEmail(email: string) returns (id: Option<string>)
      ensures id.Some? ==> id.value in investors && investors[id.value].email == email
      ensures id.None? <==> forall k :: k in investors ==> investors[k].email != email
    {
      if exists k :: k in investors && investors[k].email == email {
        var k :| k in investors && investors[k].email == email;
        id := Some(k);
      } else {
        id := None;
      }
    }
  }

  /** The cache. JSON-valued keys (chat and history mirrors, cached users)
      hold texts, string-valued keys (one-time codes and reset tokens) hold
      strings, and rate-limit keys hold counters. */
  class Cache {
    var json: map<string, Entry<Text>>
    var strings: map<string, Entry<string>>
    var counters: map<string, Entry<int>>

    constructor()
      ensures json == map[] && strings == map[] && counters == map[]
    {
      json := map[];
      strings := map[];
      counters := map[];
    }

    /** `GET key`: the stored value, `None` when the key is missing. */
    function GetJson(k: string): (r: Option<Text>)
      reads this
      ensures r.Some? <==> k in json
      ensures r.Some? ==> r.value == json[k].value
    {
      ValueOf(json, k)
    }

    /** `TTL key`: -2 when the key is missing, else its stored lifetime. */
    function TtlJson(k: string): (r: int)
      reads this
      ensures k !in json ==> r == -2
      ensures k in json ==> r == json[k].ttl
    {
      TtlOf(json, k)
    }

    /** `SET key value`: stores the value and clears any expiry. */
    method SetJson(k: string, t: Text)
      modifies this
      ensures json == old(json)[k := Entry(t, NoExpiry)]
      ensures strings == old(strings) && counters == old(counters)
    {
      json := json[k := Entry(t, NoExpiry)];
    }

    method ExpireJson(k: string, seconds: int)
      modifies this
      ensures json == ExpireIn(old(json), k, seconds)
      ensures strings == old(strings) && counters == old(counters)
    {
      json := ExpireIn(json, k, seconds);
    }

    method DelJson(k: string)
      modifies this
      ensures json == old(json) - {k}
      ensures strings == old(strings) && counters == old(counters)
    {
      json := json - {k};
    }

    /** `GET key`: the stored value, `None` when the key is missing. */
    function GetString(k: string): (r: Option<string>)
      reads this
      ensures r.Some? <==> k in strings
      ensures r.Some? ==> r.value == strings[k].value
    {
      ValueOf(strings, k)
    }

    /** `SET key value EX seconds`. */
    method SetStringEx(k: string, v: string, seconds: int)
      requires seconds > 0
      modifies this
      ensures strings == old(strings)[k := Entry(v, seconds)]
      ensures json == old(json) && counters == old(counters)
    {
      strings := strings[k := Entry(v, seconds)];
    }

    method DelString(k: string)
      modifies this
      ensures strings == old(strings) - {k}
      ensures json == old(json) && counters == old(counters)
    {
      strings := strings - {k};
    }

    /** `INCR key`: a missing key counts from 0 and gets no expiry; an
        existing key keeps its expiry. */
    method Incr(k: string) returns (count: int)
      modifies this
      ensures count == (if k in old(counters) then old(counters)[k].value else 0) + 1
      ensures counters == old(counters)[k := Entry(count, if k in old(counters) then old(counters)[k].ttl else NoExpiry)]
      ensures json == old(json) && strings == old(strings)
    {
      if k in counters {
        count := counters[k].value + 1;
        counters := counters[k := Entry(count, counters[k].ttl)];
      } else {
        count := 1;
        counters := counters[k := Entry(count, NoExpiry)];
      }
    }

    method ExpireCounter(k: string, seconds: int)
      modifies this
      ensures counters == ExpireIn(old(counters), k, seconds)
      ensures json == old(json) && strings == old(strings)
    {
      counters := ExpireIn(counters, k, seconds);
    }

    /** `TTL key`: -2 when the key is missing, else its stored lifetime. */
    function TtlCounter(k: string): (r: int)
      reads this
      ensures k !in counters ==> r == -2
      ensures k in counters ==> r == counters[k].ttl
    {
      TtlOf(counters, k)
    }
  }

  /** Between two states only the chats collection may have changed. */
  twostate predicate OnlyChatsChanged(db: Db)
    reads db
  {
    db.messages == old(db.messages) && db.prompts == old(db.prompts)
    && db.aiResponses == old(db.aiResponses) && db.histories == old(db.histories)
    && db.investors == old(db.investors)
  }

  /** Between two states only the JSON-valued cache keys may have changed. */
  twostate predicate OnlyJsonChanged(cache: Cache)
    reads cache
  {
    cache.strings == old(cache.strings) && cache.counters == old(cache.counters)
  }
}
