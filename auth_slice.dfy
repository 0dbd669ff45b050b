/** The client's request helper and the authentication state
    (store/slices/authSlice.ts). */
module AuthSlice {
  import opened Wrappers
  import opened Json

  datatype Method = GET | POST | PUT | PATCH | DELETE

  /** What `fetch` is called with: the URL, the method, the JSON value sent
      as the body (if any) and whether cookies are included. */
  datatype Request = Request(url: string, verb: Method, body: Option<Js>, includeCredentials: bool)

  /** What `fetch` gave back: a reply with its `ok` flag, status and parsed
      JSON, or a rejection with its message. */
  datatype Reply = Reply(ok: bool, status: int, result: Js) | NetworkFailure(message: string)

  /** How `apiRequest` settles: the parsed result, or the message of the
      error it throws. */
  datatype Settled = Resolved(result: Js) | Failed(message: string)

  /** How a thunk settles: the fulfilled payload (`None` for `undefined`), or
      the value passed to `rejectWithValue`. */
  datatype Action = Fulfilled(payload: Option<Js>) | Rejected(error: Option<string>)

  /** The message of the `TypeError` a property read on `null` or
      `undefined` throws in the browser. */
  const ReadFault: string := "Cannot read properties of undefined"

  predicate StartsWith(s: string, prefix: string) {
    |prefix| <= |s| && s[..|prefix|] == prefix
  }

  /** `${BASE_API_URL}` for the environment value `base`: an unset variable
      is spelled "undefined". */
  function BaseText(base: Option<string>): string {
    base.GetOr("undefined")
  }

  /** Line 60: the base URL goes in front of an endpoint only when the
      endpoint starts with "/api". */
  function RequestUrl(base: Option<string>, endpoint: string): (r: string)
    ensures StartsWith(endpoint, "/api") ==> r == BaseText(base) + endpoint
    ensures !StartsWith(endpoint, "/api") ==> r == endpoint
    ensures |r| >= |endpoint| && r[|r| - |endpoint|..] == endpoint
  {
    if StartsWith(endpoint, "/api") then BaseText(base) + endpoint else endpoint
  }

  /** Line 65: a body is sent only for a truthy value and a method other
      than GET, and it is that value. */
  function RequestBody(verb: Method, data: Option<Js>): (r: Option<Js>)
    ensures r.Some? <==> TruthyOpt(data) && verb != GET
    ensures r.Some? ==> r == data
  {
    if TruthyOpt(data) && verb != GET then data else None
  }

  /** `apiRequest(endpoint, verb, data, includeCredentials)` up to the call
      to `fetch`. */
  function BuildRequest(base: Option<string>, endpoint: string, verb: Method, data: Option<Js>,
                        includeCredentials: bool): (r: Request)
    ensures r.verb == verb && r.includeCredentials == includeCredentials
    ensures r.url == RequestUrl(base, endpoint) && r.body == RequestBody(verb, data)
  {
    Request(RequestUrl(base, endpoint), verb, RequestBody(verb, data), includeCredentials)
  }

  /** A GET never carries a body, whatever data is passed. */
  lemma GetHasNoBody(base: Option<string>, endpoint: string, data: Option<Js>, includeCredentials: bool)
    ensures BuildRequest(base, endpoint, GET, data, includeCredentials).body.None?
  {
  }

  /** A URL that is already absolute is requested as it is. */
  lemma AbsoluteUrlKept(base: Option<string>, endpoint: string)
    requires |endpoint| > 0 && endpoint[0] != '/'
    ensures RequestUrl(base, endpoint) == endpoint
  {
  }

  /** Lines 69-79 after `fetch`: a reply that is not `ok` throws with the
      result's message, or a message naming the endpoint and status. Reading
      `message` of a `null` result throws first. */
  function ApiRequest(endpoint: string, reply: Reply): (r: Settled)
    ensures reply.Reply? && reply.ok ==> r == Resolved(reply.result)
    ensures reply.Reply? && !reply.ok && reply.result.JNull? ==> r == Failed(ReadFault)
    ensures reply.Reply? && !reply.ok && !reply.result.JNull? ==>
              r.Failed?
              && (TruthyOpt(Get(reply.result, "message")) ==> r.message == JsString(Get(reply.result, "message").value))
              && (!TruthyOpt(Get(reply.result, "message")) ==>
                    r.message == "Request to " + endpoint + " failed with status " + JsString(JNum(reply.status)))
    ensures reply.NetworkFailure? ==> r == Failed(reply.message)
  {
    match reply
    case NetworkFailure(m) => Failed(m)
    case Reply(ok, status, result) =>
      if ok then Resolved(result)
      else if result.JNull? then Failed(ReadFault)
      else
        var m := Get(result, "message");
        if TruthyOpt(m) then Failed(JsString(m.value))
        else Failed("Request to " + endpoint + " failed with status " + JsString(JNum(status)))
  }

  /** The thunk body `return result.data` with its catch block
      `rejectWithValue(error.message || fallback)`. Reading `data` of a
      `null` result throws, and that error is caught too. */
  function Unwrap(s: Settled, fallback: Option<string>): (a: Action)
    ensures s.Resolved? && !s.result.JNull? ==> a == Fulfilled(Get(s.result, "data"))
    ensures s.Failed? && s.message != "" ==> a == Rejected(Some(s.message))
    ensures s.Failed? && s.message == "" ==> a == Rejected(fallback)
  {
    match s
    case Resolved(result) =>
      if result.JNull? then Rejected(Some(ReadFault))
      else Fulfilled(Get(result, "data"))
    case Failed(m) => Rejected(if m != "" then Some(m) else fallback)
  }

  /** `payload.verified || false` read as a flag. */
  predicate VerifiedFlag(payload: Js) {
    TruthyOpt(Get(payload, "verified"))
  }

  /** The authentication state. `None` stands for `null` (and for an
      `undefined` payload stored in its place). */
  class AuthState {
    var authenticator: Option<Js>
    var loading: bool
    var error: Option<string>
    var isVerified: bool

    constructor()
      ensures authenticator.None? && !loading && error.None? && !isVerified
    {
      authenticator := None;
      loading := false;
      error := None;
      isVerified := false;
    }

    /** `handlePending`, shared by every thunk. */
    method Pending()
      modifies this
      ensures loading && error.None?
      ensures authenticator == old(authenticator) && isVerified == old(isVerified)
    {
      loading := true;
      error := None;
    }

    /** `handleRejected`, shared by every thunk. */
    method Rejected(payload: Option<string>)
      modifies this
      ensures !loading && error == payload
      ensures authenticator == old(authenticator) && isVerified == old(isVerified)
    {
      loading := false;
      error := payload;
    }

    /** `logout`: the user is forgotten; `loading` is left as it is. */
    method Logout()
      modifies this
      ensures authenticator.None? && !isVerified && error.None?
      ensures loading == old(loading)
    {
      authenticator := None;
      isVerified := false;
      error := None;
    }

    /** Fulfilled login, token refresh and user fetch: the payload becomes the
        user and its `verified` flag the verification state. Reading
        `verified` of a missing or `null` payload throws, and the reducer's
        changes are then discarded. */
    method SessionFulfilled(payload: Option<Js>)
      modifies this
      ensures payload.None? || payload.value.JNull? ==>
                authenticator == old(authenticator) && loading == old(loading)
                && error == old(error) && isVerified == old(isVerified)
      ensures payload.Some? && !payload.value.JNull? ==>
                !loading && authenticator == payload && isVerified == VerifiedFlag(payload.value)
                && error == old(error)
    {
      if payload.None? || payload.value.JNull? {
        return;
      }
      loading := false;
      authenticator := payload;
      isVerified := VerifiedFlag(payload.value);
    }

    /** Fulfilled sign-up and profile update: the payload becomes the user and
        the verification state is kept. */
    method ProfileFulfilled(payload: Option<Js>)
      modifies this
      ensures !loading && authenticator == payload
      ensures isVerified == old(isVerified) && error == old(error)
    {
      loading := false;
      authenticator := payload;
    }

    /** Fulfilled OTP verification: the payload becomes the user and the
        account counts as verified. */
    method VerifyOtpFulfilled(payload: Option<Js>)
      modifies this
      ensures !loading && authenticator == payload && isVerified
      ensures error == old(error)
    {
      loading := false;
      authenticator := payload;
      isVerified := true;
    }

    /** Fulfilled forgot-password, reset-code and reset-password: only
        `loading` changes. */
    method MessageFulfilled()
      modifies this
      ensures !loading
      ensures authenticator == old(authenticator) && isVerified == old(isVerified) && error == old(error)
    {
      loading := false;
    }
  }

  /** Two different "/api" endpoints are requested under two different URLs:
      the base is the same prefix for both and the endpoint is kept whole. */
  lemma ApiUrlsApart(base: Option<string>, e1: string, e2: string)
    requires StartsWith(e1, "/api") && StartsWith(e2, "/api") && e1 != e2
    ensures RequestUrl(base, e1) != RequestUrl(base, e2)
  {
  }

  /** An "/api" endpoint and another endpoint can still meet: with the base
      unset, every "/api" endpoint `e` is sent to the same URL as the
      endpoint "undefined" + `e`. */
  lemma UnsetBaseMeetsRelative(e: string)
    requires StartsWith(e, "/api")
    ensures RequestUrl(None, e) == RequestUrl(None, "undefined" + e)
  {
    var other := "undefined" + e;
    assert !StartsWith(other, "/api") by {
      assert other[0] == 'u' && "/api"[0] == '/';
    }
  }

  /** The thunk argument of `loginUser` and the others only reaches the
      server as the body of a POST: a truthy argument is sent as it is. */
  lemma PostSendsData(base: Option<string>, endpoint: string, data: Js, includeCredentials: bool)
    requires Truthy(data)
    ensures BuildRequest(base, endpoint, POST, Some(data), includeCredentials).body == Some(data)
  {
  }

  /** A failed reply whose result is a value other than `null` without a
      message rejects with the text naming the endpoint, never with the
      thunk's own fallback. */
  lemma FailedReplyNamesEndpoint(endpoint: string, status: int, result: Js, fallback: Option<string>)
    requires !result.JNull? && !TruthyOpt(Get(result, "message"))
    ensures Unwrap(ApiRequest(endpoint, Reply(false, status, result)), fallback)
              == Rejected(Some("Request to " + endpoint + " failed with status " + JsString(JNum(status))))
  {
  }

  /** A failed reply with a `null` body never reaches the endpoint text:
      every thunk rejects with the fault of reading `message`. */
  lemma FailedNullReply(endpoint: string, status: int, fallback: Option<string>)
    ensures Unwrap(ApiRequest(endpoint, Reply(false, status, JNull)), fallback) == Rejected(Some(ReadFault))
  {
  }
}
