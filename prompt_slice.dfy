/** The client's state of the last prompt sent (store/slices/promptSlice.ts). */
module PromptSlice {
  import opened Wrappers
  import opened Json
  import opened AuthSlice
  import ChatSlice

  const EmptyPrompt: string := "Prompt cannot be empty."

  /** The request `sendPrompt` makes: a POST of `{ prompt }` with cookies. */
  function PromptRequest(base: Option<string>, prompt: string): (r: Request)
    ensures r.url == BaseText(base) + "/api/prompt" && r.verb == POST && r.includeCredentials
    ensures r.body == Some(JObj(map["prompt" := JStr(prompt)]))
  {
    BuildRequest(base, "/api/prompt", POST, Some(JObj(map["prompt" := JStr(prompt)])), true)
  }

  /** The `sendPrompt` thunk for the typed prompt, with the request settling
      as `reply`: a blank prompt is refused before any request, otherwise
      the whole response is the payload. */
  function SendPrompt(prompt: string, reply: Reply): (a: Action)
    ensures IsBlank(prompt) ==> a == Rejected(Some(EmptyPrompt))
    ensures !IsBlank(prompt) && reply.Reply? && reply.ok ==> a == Fulfilled(Some(reply.result))
    ensures !IsBlank(prompt) && reply.NetworkFailure? ==>
              a == Rejected(Some(if reply.message != "" then reply.message else "Failed to get AI response."))
    ensures a.Rejected? ==> a.error.Some? && a.error.value != ""
  {
    if Trim(prompt) == "" then Rejected(Some(EmptyPrompt))
    else
      match ApiRequest("/api/prompt", reply)
      case Resolved(result) => Fulfilled(Some(result))
      case Failed(m) => Rejected(Some(if m != "" then m else "Failed to get AI response."))
  }

  /** A blank prompt never depends on the network. */
  lemma BlankPromptIgnoresNetwork(prompt: string, r1: Reply, r2: Reply)
    requires IsBlank(prompt)
    ensures SendPrompt(prompt, r1) == SendPrompt(prompt, r2)
  {
  }

  /** `x ?? null` with `None` standing for both `undefined` and `null`. */
  function Nullish(o: Option<Js>): (r: Option<Js>)
    ensures r.None? <==> o.None? || o.value.JNull?
    ensures r.Some? ==> r == o
  {
    if o.Some? && o.value.JNull? then None else o
  }

  /** `data.aiResponse?.component ?? null`. */
  function ComponentOf(data: Js): Option<Js> {
    match Get(data, "aiResponse")
    case Some(a) => Nullish(Get(a, "component"))
    case None => None
  }

  /** Unlike the chat list's `|| null`, `?? null` keeps a falsy component:
      an empty-string component is shown by the prompt state and dropped by
      the chat preview. */
  lemma EmptyComponentKept(rest: Obj)
    ensures var data := JObj(map["aiResponse" := JObj(rest["component" := JStr("")])]);
            ComponentOf(data) == Some(JStr(""))
    ensures ChatSlice.PreviewOf([map["messages" := JArr([JObj(map["aiResponse" := JObj(rest["component" := JStr("")])])])]])
              == ChatSlice.Value(None)
  {
    var m := JObj(map["aiResponse" := JObj(rest["component" := JStr("")])]);
    assert [m][|[m]| - 1] == m;
  }

  /** The prompt state of the client. `None` stands for `null`. */
  class PromptState {
    var loading: bool
    var error: Option<string>
    var prompt: Option<Js>
    var aiResponse: Option<Js>
    var preview: Option<Js>
    var chat: Option<Js>
    var message: Option<Js>
    var redisChat: Option<Js>
    var history: Option<Js>

    /** Every field at its initial value. */
    predicate Initial()
      reads this
    {
      !loading && error.None? && prompt.None? && aiResponse.None? && preview.None?
      && chat.None? && message.None? && redisChat.None? && history.None?
    }

    constructor()
      ensures Initial()
    {
      loading := false;
      error := None;
      prompt := None;
      aiResponse := None;
      preview := None;
      chat := None;
      message := None;
      redisChat := None;
      history := None;
    }

    /** `clearPromptState`: back to the initial state. */
    method ClearPromptState()
      modifies this
      ensures Initial()
    {
      loading := false;
      error := None;
      prompt := None;
      aiResponse := None;
      preview := None;
      chat := None;
      message := None;
      redisChat := None;
      history := None;
    }

    /** Pending `sendPrompt`: the old preview is removed. */
    method Pending()
      modifies this
      ensures loading && error.None? && preview.None?
      ensures prompt == old(prompt) && aiResponse == old(aiResponse) && chat == old(chat)
      ensures message == old(message) && redisChat == old(redisChat) && history == old(history)
    {
      loading := true;
      error := None;
      preview := None;
    }

    /** Rejected `sendPrompt`: the payload, or a fixed text when there is
        none. */
    method Rejected(payload: Option<string>)
      modifies this
      ensures !loading && error == Some(payload.GetOr("Unknown error occurred"))
      ensures prompt == old(prompt) && aiResponse == old(aiResponse) && chat == old(chat) && preview == old(preview)
      ensures message == old(message) && redisChat == old(redisChat) && history == old(history)
    {
      loading := false;
      error := Some(payload.GetOr("Unknown error occurred"));
    }

    /** Fulfilled `sendPrompt`: every field is taken from the response's
        `data`. Reading a field of a missing `data` throws, and the reducer's
        changes are then discarded. */
    method Fulfilled(payload: Js)
      modifies this
      ensures Nullish(Get(payload, "data")).None? ==>
                loading == old(loading) && error == old(error) && prompt == old(prompt)
                && aiResponse == old(aiResponse) && preview == old(preview) && chat == old(chat)
                && message == old(message) && redisChat == old(redisChat) && history == old(history)
      ensures Nullish(Get(payload, "data")).Some? ==>
                var data := Get(payload, "data").value;
                !loading && error == old(error)
                && prompt == Nullish(Get(data, "prompt")) && aiResponse == Nullish(Get(data, "aiResponse"))
                && chat == Nullish(Get(data, "chat")) && message == Nullish(Get(data, "message"))
                && redisChat == Nullish(Get(data, "redisChat")) && history == Nullish(Get(data, "history"))
                && preview == ComponentOf(data)
    {
      var d := Nullish(Get(payload, "data"));
      if d.None? {
        return;
      }
      var data := d.value;
      loading := false;
      prompt := Nullish(Get(data, "prompt"));
      aiResponse := Nullish(Get(data, "aiResponse"));
      chat := Nullish(Get(data, "chat"));
      message := Nullish(Get(data, "message"));
      redisChat := Nullish(Get(data, "redisChat"));
      history := Nullish(Get(data, "history"));
      preview := ComponentOf(data);
    }
  }
}
