/** The prompt orchestrator (controllers/prompt/handlePrompt.controller.ts)
    with the record-creating services it calls (lib/services/prompt.service.ts,
    ai.service.ts, message.service.ts and pdf.service.ts). */
module HandlePrompt {
  import opened Wrappers
  import opened Json
  import opened Ids
  import opened Api
  import opened Records
  import opened Store
  import opened Requests
  import opened ChatService
  import opened HistoryService

  // ------------------------------------------------------------------
  // Inputs
  // ------------------------------------------------------------------

  /** `extractTextFromPdfBase64(b64)`: the trimmed text the PDF parser
      returns, or `""` when it finds none or fails (`None`). */
  function Extracted(parsed: Option<string>): (r: string)
    ensures parsed.None? ==> r == ""
    ensures parsed.Some? ==> r == Trim(parsed.value)
  {
    if parsed.None? then "" else Trim(parsed.value)
  }

  /** A string field holding more than white space. */
  predicate NonBlankString(v: Option<Js>) {
    v.Some? && v.value.JStr? && !IsBlank(v.value.s)
  }

  /** Lines 26-34: the prompt text, taken from a non-blank `prompt` string,
      else from the PDF in a non-blank `pdfBase64` string. `pdf` is what the
      parser makes of that PDF. */
  function PromptText(body: Js, pdf: Option<string>): (r: Outcome<string>)
    ensures NonBlankString(Get(body, "prompt")) ==> r == Ok(Trim(Get(body, "prompt").value.s))
    ensures !NonBlankString(Get(body, "prompt")) && NonBlankString(Get(body, "pdfBase64")) ==>
              r == (if Extracted(pdf) == "" then Fail(400, "Cannot extract text from PDF") else Ok(Extracted(pdf)))
    ensures !NonBlankString(Get(body, "prompt")) && !NonBlankString(Get(body, "pdfBase64")) ==>
              r == Fail(400, "Either prompt or pdfBase64 is required")
  {
    var prompt := Get(body, "prompt");
    if NonBlankString(prompt) then Ok(Trim(prompt.value.s))
    else if NonBlankString(Get(body, "pdfBase64")) then
      var text := Extracted(pdf);
      if text == "" then Fail(400, "Cannot extract text from PDF") else Ok(text)
    else Fail(400, "Either prompt or pdfBase64 is required")
  }

  /** Lines 18-34: the investor id and the prompt text. `body` is `None` when
      the request body is not JSON. */
  function Inputs(header: Option<string>, body: Option<Js>, pdf: Option<string>): (r: Outcome<(string, string)>)
    ensures InvestorHeader(header) == "" ==> r == Fail(400, "Missing investor id")
    ensures InvestorHeader(header) != "" && body.Some? && !Truthy(body.value) ==>
              r == Fail(400, "Request body is required")
    ensures r.Ok? ==> body.Some? && r.value.0 == InvestorHeader(header) && r.value.0 != ""
                      && PromptText(body.value, pdf) == Ok(r.value.1)
  {
    var investorId := InvestorHeader(header);
    if investorId == "" then Fail(400, "Missing investor id")
    else if body.None? then Throws(SyntaxError)
    else if !Truthy(body.value) then Fail(400, "Request body is required")
    else match PromptText(body.value, pdf)
      case Throws(e) => Throws(e)
      case Ok(text) => Ok((investorId, text))
  }

  // ------------------------------------------------------------------
  // The records the services create
  // ------------------------------------------------------------------

  /** What the generator returned: a text, or a value that is not a string. */
  datatype Generated = GenText(t: Text) | GenValue(v: Js)

  /** The object `processAiResponse` uses when the generator's text does not parse. */
  const ParseFallback: Obj := map["responseType" := JStr("investment"), "text" := JStr("AI parsing failed."),
                                  "component" := JStr(""), "investorURL" := JStr("")]

  /** lib/services/ai.service.ts lines 14-27: the generator's value, its text
      parsed, the fallback object where that parse fails. */
  function AiResult(g: Generated): (r: Js)
    ensures g.GenValue? ==> r == g.v
    ensures g.GenText? && g.t.Json? ==> r == g.t.v
    ensures g.GenText? && g.t.Garbage? ==> r == JObj(ParseFallback) && TruthyOpt(Get(r, "text"))
  {
    match g
    case GenValue(v) => v
    case GenText(Json(v)) => v
    case GenText(Garbage(_)) => JObj(ParseFallback)
  }

  /** lib/services/ai.service.ts lines 29-36: an answer without a truthy
      `text` throws; otherwise its fields are stored for `owner`. */
  function AiRecord(g: Generated, owner: string): (r: Outcome<AiRec>)
    ensures r.Ok? <==> TruthyOpt(Get(AiResult(g), "text"))
    ensures r.Throws? ==> r.error == ApiError(500, "AI response empty", None)
    ensures r.Ok? ==> r.value.investorId == owner
                      && forall k :: k in AiResult(g).fields && k != "investorID" ==>
                           k in r.value.fields && r.value.fields[k] == AiResult(g).fields[k]
  {
    var v := AiResult(g);
    if !TruthyOpt(Get(v, "text")) then Throws(ApiError(500, "AI response empty", None))
    else Ok(AiRec(v.fields - {"investorID"}, owner))
  }

  /** The error the store raises for a Message created without a chat id. */
  const MessageValidationError: Thrown :=
    Error("ValidationError", "Message validation failed: chatId: Path `chatId` is required.", None, None,
          Some([JStr("Path `chatId` is required.")]), None)

  /** `body.chatId`, `undefined` for a body that is not JSON. */
  function BodyChatId(body: Option<Js>): Option<Js> {
    if body.Some? then Get(body.value, "chatId") else None
  }

  /** Line 49: `body.chatId ?? chatDoc._id.toString()`; only a missing or
      `null` chat id of the body gives way to the resolved chat. */
  function ChatIdToUse(bodyChatId: Option<Js>, resolved: string): (r: Js)
    ensures bodyChatId.Some? && !bodyChatId.value.JNull? ==> r == bodyChatId.value
    ensures bodyChatId.None? || bodyChatId.value.JNull? ==> r == JStr(resolved)
  {
    if bodyChatId.Some? && !bodyChatId.value.JNull? then bodyChatId.value else JStr(resolved)
  }

  /** lib/services/message.service.ts lines 4-14: a falsy chat id is left out
      of the record, which the schema then rejects; any other one is cast. */
  function MessageRecord(owner: string, promptId: string, aiId: string, chatId: Js, now: int): (r: Outcome<MessageRec>)
    ensures !Truthy(chatId) ==> r == Throws(MessageValidationError)
    ensures Truthy(chatId) && Cast(chatId).None? ==> r == Throws(BsonError)
    ensures r.Ok? ==> r.value == MessageRec(owner, Cast(chatId), promptId, aiId, now) && Cast(chatId).Some?
  {
    if !Truthy(chatId) then Throws(MessageValidationError)
    else match Cast(chatId)
      case None => Throws(BsonError)
      case Some(c) => Ok(MessageRec(owner, Some(c), promptId, aiId, now))
  }

  // ------------------------------------------------------------------
  // The answer
  // ------------------------------------------------------------------

  datatype PromptDoc = PromptDoc(id: string, rec: PromptRec)
  datatype AiDoc = AiDoc(id: string, rec: AiRec)
  datatype MessageDoc = MessageDoc(id: string, rec: MessageRec)

  /** The data of a successful answer. */
  datatype Reply = Reply(prompt: PromptDoc, aiResponse: AiDoc, message: MessageDoc, chat: ChatDoc,
                         redisChat: Option<Obj>, history: HistoryObj)

  const Done: string := "Prompt processed and message attached successfully"

  /** Lines 85-91: an `ApiError` keeps its status, anything else is a 500;
      the message is the error's, or a default when it is empty. */
  function ErrorReply(e: Thrown): (r: ApiResponse<Option<Reply>>)
    ensures r.data.None?
    ensures r.statusCode == StatusOf<()>(Throws(e))
    ensures !e.ApiError? ==> r.statusCode == 500
    ensures r.message != ""
    ensures e.message != "" ==> r.message == e.message
  {
    ApiResponse(if e.ApiError? then e.statusCode else 500, None,
                if e.message != "" then e.message else "Internal server error")
  }

  // ------------------------------------------------------------------
  // The orchestration
  // ------------------------------------------------------------------

  /** Steps 3 and 4: the prompt stored, then the AI answer stored. A
      malformed investor id throws at the first cast, before anything is
      stored. */
  method SaveInputs(db: Db, investorId: string, text: string, g: Generated, freshPromptId: string, freshAiId: string)
    returns (r: Outcome<(PromptDoc, AiDoc)>)
    modifies db
    ensures db.chats == old(db.chats) && db.messages == old(db.messages)
    ensures db.histories == old(db.histories) && db.investors == old(db.investors)
    ensures !IsValidId(investorId) ==>
              r == Throws(BsonError) && db.prompts == old(db.prompts) && db.aiResponses == old(db.aiResponses)
    ensures IsValidId(investorId) ==>
              var owner := Canon(investorId);
              db.prompts == old(db.prompts)[freshPromptId := PromptRec(owner, text)]
              && (AiRecord(g, owner).Throws? ==>
                    r == Throws(AiRecord(g, owner).error) && db.aiResponses == old(db.aiResponses))
              && (AiRecord(g, owner).Ok? ==>
                    r == Ok((PromptDoc(freshPromptId, PromptRec(owner, text)), AiDoc(freshAiId, AiRecord(g, owner).value)))
                    && db.aiResponses == old(db.aiResponses)[freshAiId := AiRecord(g, owner).value])
  {
    if !IsValidId(investorId) {
      return Throws(BsonError);
    }
    var owner := Canon(investorId);
    db.prompts := db.prompts[freshPromptId := PromptRec(owner, text)];
    var ai := AiRecord(g, owner);
    if ai.Throws? {
      return Throws(ai.error);
    }
    db.aiResponses := db.aiResponses[freshAiId := ai.value];
    r := Ok((PromptDoc(freshPromptId, PromptRec(owner, text)), AiDoc(freshAiId, ai.value)));
  }

  /** Steps 5 to 7: the chat resolved, then the message created for the
      chat id to use. */
  method CreateForChat(db: Db, cache: Cache, investorId: string, bodyChatId: Option<Js>, prompt: PromptDoc, ai: AiDoc,
                       freshChatId: string, freshMessageId: string, now: int)
    returns (r: Outcome<(Resolved, MessageDoc)>)
    requires IsValidId(investorId)
    requires IsCanonical(freshChatId) && freshChatId !in db.chats
    modifies db, cache
    ensures OnlyJsonChanged(cache)
    ensures db.prompts == old(db.prompts) && db.aiResponses == old(db.aiResponses)
    ensures db.investors == old(db.investors) && db.histories == old(db.histories)
    ensures r.Throws? ==> db.messages == old(db.messages) && !r.error.ApiError?
    ensures r.Ok? ==>
              var chatId := r.value.0.chat.id;
              IsCanonical(chatId)
              && r.value.1 == MessageDoc(freshMessageId, MessageRec(Canon(investorId), Cast(ChatIdToUse(bodyChatId, chatId)),
                                                                    prompt.id, ai.id, now))
              && db.messages == old(db.messages)[freshMessageId := r.value.1.rec]
  {
    var res := ResolveChat(db, cache, investorId, bodyChatId, freshChatId, now);
    if res.Throws? {
      return Throws(res.error);
    }
    var chat := res.value.chat;
    assert IsCanonical(chat.id);
    var message := MessageRecord(Canon(investorId), prompt.id, ai.id, ChatIdToUse(bodyChatId, chat.id), now);
    if message.Throws? {
      return Throws(message.error);
    }
    db.messages := db.messages[freshMessageId := message.value];
    r := Ok((res.value, MessageDoc(freshMessageId, message.value)));
  }

  /** Step 8 as the later steps see it: only the chats and the JSON cache
      keys may change. */
  method AttachStep(db: Db, cache: Cache, res: Resolved, messageId: string, saveFails: bool)
    returns (mirror: Option<Obj>)
    modifies db, cache
    ensures OnlyChatsChanged(db) && OnlyJsonChanged(cache)
  {
    mirror := AttachMessageToChat(db, cache, res.chat, true, messageId, Some(res.mirror), res.key, saveFails);
  }

  /** Step 9 as the answer sees it: the ledger returned holds the chat, and
      the errors are the store's casts. */
  method HistoryStep(db: Db, cache: Cache, investorId: string, chatId: string, freshHistoryId: string)
    returns (r: Outcome<HistoryObj>)
    requires IsCanonical(chatId)
    modifies db, cache
    ensures OnlyJsonChanged(cache)
    ensures db.chats == old(db.chats) && db.messages == old(db.messages) && db.prompts == old(db.prompts)
    ensures db.aiResponses == old(db.aiResponses) && db.investors == old(db.investors)
    ensures r.Throws? ==> r.error == CastError || r.error == BsonError
    ensures r.Ok? ==> JStr(chatId) in r.value.chats
  {
    r := UpdateUserHistory(db, cache, investorId, Some(JStr(chatId)), freshHistoryId);
    if r.Ok? {
      CanonicalIsValid(chatId);
      LedgerAfterAddHas(r.value, chatId);
    }
  }

  /** Steps 8 and 9: the message attached to the resolved chat, then the
      ledger updated with that chat, which it then holds. */
  method AttachAndRecord(db: Db, cache: Cache, investorId: string, res: Resolved, messageId: string,
                         freshHistoryId: string, saveFails: bool)
    returns (r: Outcome<(Option<Obj>, HistoryObj)>)
    requires IsCanonical(res.chat.id)
    modifies db, cache
    ensures OnlyJsonChanged(cache)
    ensures db.prompts == old(db.prompts) && db.aiResponses == old(db.aiResponses)
    ensures db.investors == old(db.investors) && db.messages == old(db.messages)
    ensures r.Throws? ==> !r.error.ApiError?
    ensures r.Ok? ==> JStr(res.chat.id) in r.value.1.chats
  {
    var mirror := AttachStep(db, cache, res, messageId, saveFails);
    var history := HistoryStep(db, cache, investorId, res.chat.id, freshHistoryId);
    if history.Throws? {
      return Throws(history.error);
    }
    r := Ok((mirror, history.value));
  }

  /** Steps 5 to 10 for a valid investor id. */
  method Converse(db: Db, cache: Cache, investorId: string, bodyChatId: Option<Js>, prompt: PromptDoc, ai: AiDoc,
                  freshChatId: string, freshMessageId: string, freshHistoryId: string, now: int, saveFails: bool)
    returns (r: ApiResponse<Option<Reply>>)
    requires IsValidId(investorId)
    requires IsCanonical(freshChatId) && freshChatId !in db.chats
    modifies db, cache
    ensures OnlyJsonChanged(cache)
    ensures db.prompts == old(db.prompts) && db.aiResponses == old(db.aiResponses) && db.investors == old(db.investors)
    ensures r.statusCode != 200 ==> r.data.None?
    ensures r.statusCode == 200 ==>
              r.data.Some? && r.message == Done
              && var d := r.data.value;
              d.prompt == prompt && d.aiResponse == ai && d.message.id == freshMessageId
              && d.message.rec == MessageRec(Canon(investorId), Cast(ChatIdToUse(bodyChatId, d.chat.id)),
                                             prompt.id, ai.id, now)
              && db.messages == old(db.messages)[freshMessageId := d.message.rec]
              && JStr(d.chat.id) in d.history.chats
  {
    var created := CreateForChat(db, cache, investorId, bodyChatId, prompt, ai, freshChatId, freshMessageId, now);
    if created.Throws? {
      return ErrorReply(created.error);
    }
    var (res, message) := created.value;
    var recorded := AttachAndRecord(db, cache, investorId, res, freshMessageId, freshHistoryId, saveFails);
    if recorded.Throws? {
      return ErrorReply(recorded.error);
    }
    r := ApiResponse(200, Some(Reply(prompt, ai, message, res.chat, recorded.value.0, recorded.value.1)), Done);
  }

  /** Nothing in the store or under the JSON cache keys changed. */
  twostate predicate Untouched(db: Db, cache: Cache)
    reads db, cache
  {
    db.chats == old(db.chats) && db.messages == old(db.messages) && db.prompts == old(db.prompts)
    && db.aiResponses == old(db.aiResponses) && db.histories == old(db.histories)
    && cache.json == old(cache.json)
  }

  /** Steps 3 to 10 for the investor id and prompt text of a valid request:
      a malformed id throws at the first cast and changes nothing; otherwise
      the prompt is stored whatever follows, an empty answer stops there, and
      a successful answer carries the created records, a message whose chat
      is the chat id to use, and a ledger holding the resolved chat. */
  twostate predicate Processed(db: Db, cache: Cache, investorId: string, text: string, new bodyChatId: Option<Js>,
                               new g: Generated, freshPromptId: string, freshAiId: string, freshMessageId: string,
                               now: int, new r: ApiResponse<Option<Reply>>)
    reads db, cache
  {
    (!IsValidId(investorId) ==> r == ErrorReply(BsonError) && Untouched(db, cache))
    && (IsValidId(investorId) ==>
          var owner := Canon(investorId);
          db.prompts == old(db.prompts)[freshPromptId := PromptRec(owner, text)]
          && (AiRecord(g, owner).Throws? ==>
                r == ErrorReply(AiRecord(g, owner).error)
                && db.chats == old(db.chats) && db.messages == old(db.messages)
                && db.aiResponses == old(db.aiResponses) && db.histories == old(db.histories)
                && cache.json == old(cache.json))
          && (AiRecord(g, owner).Ok? ==>
                db.aiResponses == old(db.aiResponses)[freshAiId := AiRecord(g, owner).value]
                && (r.statusCode == 200 ==>
                      r.data.Some? && r.message == Done
                      && var d := r.data.value;
                      d.prompt == PromptDoc(freshPromptId, PromptRec(owner, text))
                      && d.aiResponse == AiDoc(freshAiId, AiRecord(g, owner).value)
                      && d.message == MessageDoc(freshMessageId,
                           MessageRec(owner, Cast(ChatIdToUse(bodyChatId, d.chat.id)), freshPromptId, freshAiId, now))
                      && db.messages == old(db.messages)[freshMessageId := d.message.rec]
                      && JStr(d.chat.id) in d.history.chats)))
    && (r.statusCode != 200 ==> r.data.None?)
  }

  /** The whole answer: a rejected request is answered with its error and
      changes nothing; an accepted one is processed. */
  twostate predicate Answered(db: Db, cache: Cache, new inputs: Outcome<(string, string)>, new bodyChatId: Option<Js>,
                              new g: Generated, freshPromptId: string, freshAiId: string, freshMessageId: string,
                              now: int, new r: ApiResponse<Option<Reply>>)
    reads db, cache
  {
    (inputs.Throws? ==> r == ErrorReply(inputs.error) && Untouched(db, cache))
    && (inputs.Ok? ==>
          Processed(db, cache, inputs.value.0, inputs.value.1, bodyChatId, g,
                    freshPromptId, freshAiId, freshMessageId, now, r))
  }

  method ProcessPrompt(db: Db, cache: Cache, investorId: string, text: string, bodyChatId: Option<Js>,
                       g: Generated, freshPromptId: string, freshAiId: string, freshChatId: string,
                       freshMessageId: string, freshHistoryId: string, now: int, saveFails: bool)
    returns (r: ApiResponse<Option<Reply>>)
    requires IsCanonical(freshChatId) && freshChatId !in db.chats
    modifies db, cache
    ensures OnlyJsonChanged(cache) && db.investors == old(db.investors)
    ensures Processed(db, cache, investorId, text, bodyChatId, g, freshPromptId, freshAiId, freshMessageId, now, r)
  {
    var saved := SaveInputs(db, investorId, text, g, freshPromptId, freshAiId);
    if saved.Throws? {
      return ErrorReply(saved.error);
    }
    r := Converse(db, cache, investorId, bodyChatId, saved.value.0, saved.value.1,
                  freshChatId, freshMessageId, freshHistoryId, now, saveFails);
  }

  /** `handleUserPrompt(req)`: `header` is the `x-temp-user-id` header,
      `body` the request body (`None` when it is not JSON), `pdf` what the
      PDF parser makes of `pdfBase64`, `g` what the generator returns; the
      fresh ids are those the store gives the created records, `now` their
      creation time, `saveFails` whether the chat save in attach fails.
      It always answers; nothing it throws escapes. A rejected request
      changes nothing. */
  method HandleUserPrompt(db: Db, cache: Cache, header: Option<string>, body: Option<Js>, pdf: Option<string>,
                          g: Generated, freshPromptId: string, freshAiId: string, freshChatId: string,
                          freshMessageId: string, freshHistoryId: string, now: int, saveFails: bool)
    returns (r: ApiResponse<Option<Reply>>)
    requires IsCanonical(freshChatId) && freshChatId !in db.chats
    modifies db, cache
    ensures OnlyJsonChanged(cache) && db.investors == old(db.investors)
    ensures Answered(db, cache, Inputs(header, body, pdf), BodyChatId(body), g, freshPromptId, freshAiId,
                     freshMessageId, now, r)
  {
    var inputs := Inputs(header, body, pdf);
    if inputs.Throws? {
      return ErrorReply(inputs.error);
    }
    r := ProcessPrompt(db, cache, inputs.value.0, inputs.value.1, BodyChatId(body), g,
                       freshPromptId, freshAiId, freshChatId, freshMessageId, freshHistoryId, now, saveFails);
  }

  // ------------------------------------------------------------------
  // Properties
  // ------------------------------------------------------------------

  /** The ledger the history service returns holds the chat it was given,
      whether it was added or was there already. */
  lemma LedgerAfterAddHas(h: HistoryObj, chatId: string)
    requires IsValidId(chatId)
    ensures JStr(chatId) in LedgerAfterAdd(h, Some(JStr(chatId))).chats
  {
  }

  /** A body chat id that names another chat than the one resolved still
      becomes the message's chat: the two can disagree. */
  lemma MessageChatMayDiffer(requested: string, resolved: string, owner: string, promptId: string, aiId: string, now: int)
    requires IsCanonical(requested) && IsCanonical(resolved) && requested != resolved
    ensures MessageRecord(owner, promptId, aiId, ChatIdToUse(Some(JStr(requested)), resolved), now).Ok?
    ensures MessageRecord(owner, promptId, aiId, ChatIdToUse(Some(JStr(requested)), resolved), now).value.chatId
            == Some(requested) != Some(resolved)
  {
    CanonicalIsValid(requested);
  }

  /** The prompt text is never empty and has no white space at either end. */
  lemma PromptTextTrimmed(body: Js, pdf: Option<string>)
    requires PromptText(body, pdf).Ok?
    ensures var t := PromptText(body, pdf).value;
            t != "" && !IsWs(t[0]) && !IsWs(t[|t| - 1])
  {
    var prompt := Get(body, "prompt");
    if NonBlankString(prompt) {
      assert PromptText(body, pdf).value == Trim(prompt.value.s);
    } else {
      assert pdf.Some? && PromptText(body, pdf).value == Trim(pdf.value);
    }
  }

  /** A prompt string wins over the PDF, whatever the PDF holds. */
  lemma PromptBeatsPdf(text: string, b64: string, pdf: Option<string>)
    requires !IsBlank(text)
    ensures PromptText(JObj(map["prompt" := JStr(text), "pdfBase64" := JStr(b64)]), pdf) == Ok(Trim(text))
  {
    var fields := map["prompt" := JStr(text), "pdfBase64" := JStr(b64)];
    assert "prompt" in fields && fields["prompt"] == JStr(text);
    assert Get(JObj(fields), "prompt") == Some(JStr(text));
  }
}
