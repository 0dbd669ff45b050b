/** The client's copy of the chat history (store/slices/historySlice.ts). */
module HistorySlice {
  import opened Wrappers
  import opened Json
  import opened AuthSlice

  /** Line 42: the stored history is served without a request only when it
      was fetched and is present. */
  predicate Cached(fetched: bool, history: Option<Js>) {
    fetched && TruthyOpt(history)
  }

  /** The `fetchHistory` thunk for the current slice state: the guard, then
      `apiRequest("/api/history", "GET")` settling as `reply`. */
  function FetchHistory(fetched: bool, history: Option<Js>, reply: Reply): (a: Action)
    ensures Cached(fetched, history) ==> a == Fulfilled(history)
    ensures !Cached(fetched, history) ==>
              a == Unwrap(ApiRequest("/api/history", reply), Some("Failed to fetch history"))
  {
    if Cached(fetched, history) then Fulfilled(history)
    else Unwrap(ApiRequest("/api/history", reply), Some("Failed to fetch history"))
  }

  /** The request `fetchHistory` makes when it is not served from the state. */
  function HistoryRequest(base: Option<string>): (r: Request)
    ensures r.url == BaseText(base) + "/api/history" && r.verb == GET && r.body.None? && !r.includeCredentials
  {
    BuildRequest(base, "/api/history", GET, None, false)
  }

  /** A cached history does not depend on the network: any reply gives the
      same action. */
  lemma CachedIgnoresNetwork(fetched: bool, history: Option<Js>, r1: Reply, r2: Reply)
    requires Cached(fetched, history)
    ensures FetchHistory(fetched, history, r1) == FetchHistory(fetched, history, r2)
  {
  }

  /** The history state of the client. */
  class HistoryState {
    var history: Option<Js>
    var loading: bool
    var error: Option<string>
    var fetched: bool

    constructor()
      ensures history.None? && !loading && error.None? && !fetched
    {
      history := None;
      loading := false;
      error := None;
      fetched := false;
    }

    /** `handlePending`. */
    method Pending()
      modifies this
      ensures loading && error.None?
      ensures history == old(history) && fetched == old(fetched)
    {
      loading := true;
      error := None;
    }

    /** `handleRejected`. */
    method Rejected(payload: Option<string>)
      modifies this
      ensures !loading && error == payload
      ensures history == old(history) && fetched == old(fetched)
    {
      loading := false;
      error := payload;
    }

    /** `clearHistory`: the next fetch goes to the server again. */
    method ClearHistory()
      modifies this
      ensures history.None? && !fetched && !Cached(fetched, history)
      ensures loading == old(loading) && error == old(error)
    {
      history := None;
      fetched := false;
    }

    /** Fulfilled `fetchHistory`: the payload is stored and marked fetched. */
    method Fulfilled(payload: Option<Js>)
      modifies this
      ensures !loading && history == payload && fetched
      ensures error == old(error)
      ensures Cached(fetched, history) <==> TruthyOpt(payload)
    {
      loading := false;
      history := payload;
      fetched := true;
    }
  }

  /** Once a present history has been stored, the next fetch returns it
      whatever the server would say; a missing one is fetched again. */
  lemma FetchAfterFulfilled(payload: Option<Js>, reply: Reply)
    ensures TruthyOpt(payload) ==> FetchHistory(true, payload, reply) == Fulfilled(payload)
    ensures !TruthyOpt(payload) ==>
              FetchHistory(true, payload, reply) == Unwrap(ApiRequest("/api/history", reply), Some("Failed to fetch history"))
  {
  }

  /** A fetched history is served again, unchanged, by the fetch after it: a
      refetch of a served history is a fixed point. */
  lemma ServedTwice(fetched: bool, history: Option<Js>, reply: Reply, again: Reply)
    requires FetchHistory(fetched, history, reply).Fulfilled?
    requires TruthyOpt(FetchHistory(fetched, history, reply).payload)
    ensures var p := FetchHistory(fetched, history, reply).payload;
            FetchHistory(true, p, again) == Fulfilled(p)
  {
  }
}
