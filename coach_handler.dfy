/**
 * `AIMessageHandler` (route `/ai_coach/:convId`): one chat turn.  The user's
 * message is appended first; then `getAiResponse` checks the turn budget and
 * the provider credentials, assembles the prompt and asks the provider; a
 * returned reply is appended and counted.  The provider, the problem lookup
 * and the clock are inputs.
 */
module CoachHandler {
  import opened Wrappers
  import opened AIConvModel
  import opened AISettings
  import JsText
  import JsonString

  const MAX_NOTICE: string := "Max conversation reached"
  const CREDENTIALS_NOTICE: string := "AI credentials not found"
  const PROBLEM_NOT_FOUND: string := "Problem not found"
  /** What the runtime throws when `convHist.count` is read off a missing conversation. */
  const NULL_CONV_ERROR: string := "Cannot read properties of null (reading 'count')"
  const FAILED_PREFIX: string := "Failed to get AI response: "
  const API_ERROR_PREFIX: string := "OpenAI API Error: "
  const UNKNOWN_ERROR: string := "Unknown error"
  const TEMPERATURE: real := 0.7
  const MAX_TOKENS: nat := 1000

  /** A `{role, content}` entry of the prompt. */
  datatype PromptMessage = PromptMessage(role: Role, content: string)

  /** What is sent to the provider: endpoint, Authorization header and the JSON body's fields. */
  datatype Request = Request(
    url: string,
    authorization: string,
    model: string,
    messages: seq<PromptMessage>,
    temperature: real,
    maxTokens: nat)

  /**
   * The provider's answer: a completion, a non-ok response with an optional
   * `error.message`, or any other error thrown inside the `try` (a failed
   * fetch, an error body that is not JSON, an ok response without `choices`),
   * carried as its message.
   */
  datatype ProviderOutcome = Completion(content: string) | ApiError(message: Option<string>) | OtherError(cause: string)

  /** The message object `getAiResponse` returns (the budget notice carries no timestamp). */
  datatype Reply = Reply(role: Role, content: string, timestamp: Option<int>)

  /** `getAiResponse` either returns a reply or throws an error with a message. */
  datatype Answer = Answered(reply: Reply) | Thrown(error: string)

  /** The answer together with the request handed to the provider, None when it was not called. */
  datatype Outcome = Outcome(answer: Answer, sent: Option<Request>)

  /** The request body of a turn (`content`). */
  datatype PostBody = PostBody(message: string, domainId: string, code: string, codeLang: string)

  /** The response body: `{success: true, content}` or `{success: false, error}`. */
  datatype Body = Succeeded(content: Reply) | Failed(error: string)

  /** A missing `zh` description is rendered by the template literal as "undefined". */
  function Describe(description: Option<string>): string {
    description.GetOr("undefined")
  }

  /** The fixed pieces of the system message's instruction text. */
  const PREAMBLE: string := "You are an expert assistant that helps with code analysis and debugging. Be precise and concise. Here's the problem description:"
  const CODE_LEAD: string := "User's code or input:"
  const LANG_LEAD: string := "User's current selected code language is: "
  const CLOSING: string := ", so please use the selected code language to provide assistance. 你的回答语言和用户使用的语言相同"

  /** The instruction text of the system message, before it is JSON-quoted. */
  function SystemText(description: string, code: string, codeLang: string): string {
    PREAMBLE + description + CODE_LEAD + code + LANG_LEAD + codeLang + CLOSING
  }

  /** The system message: its content is `JSON.stringify` of the instruction text. */
  function SystemMessage(description: string, code: string, codeLang: string): (m: PromptMessage)
    ensures m.role == System
    ensures JsonString.Unquote(m.content) == Some(SystemText(description, code, codeLang))
  {
    JsonString.QuoteRoundTrip(SystemText(description, code, codeLang));
    PromptMessage(System, JsonString.Quote(SystemText(description, code, codeLang)))
  }

  /** A stored message as a prompt entry: the role kept, the content trimmed, the timestamp dropped. */
  function Entry(m: Message): (e: PromptMessage)
    ensures e.role == m.role && e.content == JsText.Trim(m.content)
  {
    PromptMessage(m.role, JsText.Trim(m.content))
  }

  /** `messages.map(({role, content}) => ({role, content: content.trim()}))`: one entry per message, in order. */
  function Project(history: seq<Message>): (r: seq<PromptMessage>)
    ensures |r| == |history|
    ensures forall i :: 0 <= i < |r| ==> r[i] == Entry(history[i])
  {
    seq(|history|, i requires 0 <= i < |history| => Entry(history[i]))
  }

  /** `[systemMessage, ...messages.map(...)]`. */
  function BuildPrompt(system: PromptMessage, history: seq<Message>): (r: seq<PromptMessage>)
    ensures |r| == |history| + 1 && r[0] == system
    ensures forall i :: 1 <= i < |r| ==> r[i] == Entry(history[i - 1])
  {
    var entries := Project(history);
    var r := [system] + entries;
    assert forall i :: 1 <= i < |r| ==> r[i] == entries[i - 1];
    r
  }

  /** The request `getAiResponse` sends for a conversation. */
  function MakeRequest(creds: Settings, system: PromptMessage, history: seq<Message>): (r: Request)
    ensures r.url == creds.url && r.authorization == "Bearer " + creds.key && r.model == creds.model
    ensures r.temperature == 0.7 && r.maxTokens == 1000
    ensures r.messages == BuildPrompt(system, history)
  {
    Request(creds.url, "Bearer " + creds.key, creds.model, BuildPrompt(system, history), TEMPERATURE, MAX_TOKENS)
  }

  /** The provider's answer turned into a reply or a thrown error, as the inner try/catch does. */
  function ProviderAnswer(o: ProviderOutcome, now: int): (a: Answer)
    ensures a.Answered? <==> o.Completion?
    ensures a.Answered? ==> a.reply == Reply(Assistant, o.content, Some(now))
    ensures o.ApiError? && (o.message == None || o.message == Some("")) ==>
              a == Thrown(FAILED_PREFIX + (API_ERROR_PREFIX + UNKNOWN_ERROR))
    ensures o.ApiError? && o.message.Some? && o.message.value != "" ==>
              a == Thrown(FAILED_PREFIX + (API_ERROR_PREFIX + o.message.value))
    ensures o.OtherError? ==> a == Thrown(FAILED_PREFIX + o.cause)
  {
    match o
    case Completion(text) => Answered(Reply(Assistant, text, Some(now)))
    case ApiError(message) =>
      var detail := if message.Some? && message.value != "" then message.value else UNKNOWN_ERROR;
      Thrown(FAILED_PREFIX + (API_ERROR_PREFIX + detail))
    case OtherError(cause) => Thrown(FAILED_PREFIX + cause)
  }

  /** `convHist.count >= aiSet.count`. */
  predicate BudgetExhausted(conv: ConvDoc, aiSet: Settings) {
    conv.count >= aiSet.count
  }

  /** `!key || !url || !model`. */
  predicate CredentialsMissing(creds: Settings) {
    creds.key == "" || creds.url == "" || creds.model == ""
  }

  /**
   * The decision of `getAiResponse`, given the conversation it reads, the
   * domain's settings, the "system" credentials, the problem descriptions by
   * pid, the code buffer, the language, the provider and the clock.
   */
  function Respond(conv: Option<ConvDoc>, aiSet: Settings, creds: Settings,
                   problems: map<string, Option<string>>, code: string, codeLang: string,
                   provider: Request -> ProviderOutcome, now: int): (r: Outcome)
    ensures r.sent.Some? <==>
              conv.Some? && !BudgetExhausted(conv.value, aiSet) && !CredentialsMissing(creds)
              && conv.value.problemId in problems
    ensures r.sent.Some? ==> r.answer == ProviderAnswer(provider(r.sent.value), now)
    ensures r.sent.None? && r.answer.Answered? ==>
              r.answer.reply.role == Assistant && r.answer.reply.content in {MAX_NOTICE, CREDENTIALS_NOTICE}
  {
    if conv.None? then Outcome(Thrown(NULL_CONV_ERROR), None)
    else if BudgetExhausted(conv.value, aiSet) then Outcome(Answered(Reply(Assistant, MAX_NOTICE, None)), None)
    else if CredentialsMissing(creds) then Outcome(Answered(Reply(Assistant, CREDENTIALS_NOTICE, Some(now))), None)
    else if conv.value.problemId !in problems then Outcome(Thrown(PROBLEM_NOT_FOUND), None)
    else
      var system := SystemMessage(Describe(problems[conv.value.problemId]), code, codeLang);
      var request := MakeRequest(creds, system, conv.value.messages);
      Outcome(ProviderAnswer(provider(request), now), Some(request))
  }

  /**
   * The request sent is built from the "system" credentials, the system
   * message for the problem, the code and the language, and the transcript.
   */
  lemma RespondSends(conv: Option<ConvDoc>, aiSet: Settings, creds: Settings,
                     problems: map<string, Option<string>>, code: string, codeLang: string,
                     provider: Request -> ProviderOutcome, now: int)
    ensures var r := Respond(conv, aiSet, creds, problems, code, codeLang, provider, now);
            r.sent.Some? ==>
              && conv.Some? && conv.value.problemId in problems
              && r.sent.value == MakeRequest(creds, SystemMessage(Describe(problems[conv.value.problemId]), code,
                                                                  codeLang), conv.value.messages)
  {
  }

  /** Whether `getAiResponse` gets as far as reading the "system" credentials. */
  predicate ReadsCredentials(docs: map<ConvId, ConvDoc>, records: map<string, Settings>, convId: ConvId, domainId: string) {
    convId in docs && !BudgetExhausted(docs[convId], SettingsOf(records, domainId))
  }

  /** `getAiResponse` on the stored state: the domain's settings are read first, then the conversation by id. */
  function Consult(docs: map<ConvId, ConvDoc>, records: map<string, Settings>, convId: ConvId, domainId: string,
                   code: string, codeLang: string, problems: map<string, Option<string>>,
                   provider: Request -> ProviderOutcome, now: int): Outcome
  {
    Respond(if convId in docs then Some(docs[convId]) else None,
            SettingsOf(records, domainId), SettingsOf(AfterGet(records, domainId), SYSTEM_DOMAIN),
            problems, code, codeLang, provider, now)
  }

  /** The settings collection after `getAiResponse`: each `getAISettings` it makes may insert defaults. */
  function RecordsAfterConsult(docs: map<ConvId, ConvDoc>, records: map<string, Settings>, convId: ConvId,
                               domainId: string): map<string, Settings>
  {
    var afterDomain := AfterGet(records, domainId);
    if ReadsCredentials(docs, records, convId, domainId) then AfterGet(afterDomain, SYSTEM_DOMAIN) else afterDomain
  }

  /** The collection after the answer is applied: a reply is appended and counted, an error changes nothing. */
  function Commit(docs: map<ConvId, ConvDoc>, convId: ConvId, answer: Answer, now: int): map<ConvId, ConvDoc> {
    match answer
    case Answered(reply) => Incremented(Pushed(docs, convId, Message(reply.role, reply.content, now)), convId)
    case Thrown(_) => docs
  }

  /** The response body for an answer. */
  function BodyOf(answer: Answer): Body {
    match answer
    case Answered(reply) => Succeeded(reply)
    case Thrown(error) => Failed(error)
  }

  /** `sendMessage`: append a message to the conversation through `AIConvModel.edit`. */
  method SendMessage(convs: ConvTable, convId: ConvId, role: Role, content: string, now: int)
    requires convs.Valid()
    modifies convs
    ensures convs.Valid() && convs.nextId == old(convs.nextId)
    ensures convs.docs == Pushed(old(convs.docs), convId, Message(role, content, now))
    ensures Seeded(old(convs.docs)) ==> Seeded(convs.docs)
    ensures UniqueOwners(old(convs.docs)) ==> UniqueOwners(convs.docs)
  {
    var _ := convs.Edit(convId, role, content, now);
  }

  /** `getAiResponse`; the conversation id of the body is taken to be the route's. */
  method GetAiResponse(convs: ConvTable, settings: SettingsTable, convId: ConvId, domainId: string,
                       code: string, codeLang: string, problems: map<string, Option<string>>,
                       provider: Request -> ProviderOutcome, now: int) returns (out: Outcome)
    modifies settings
    ensures out == Consult(convs.docs, old(settings.records), convId, domainId, code, codeLang, problems, provider, now)
    ensures settings.records == RecordsAfterConsult(convs.docs, old(settings.records), convId, domainId)
  {
    var aiSet := settings.GetAISettings(domainId);
    if convId !in convs.docs {
      return Outcome(Thrown(NULL_CONV_ERROR), None);
    }
    var convHist := convs.docs[convId];
    if convHist.count >= aiSet.count {
      return Outcome(Answered(Reply(Assistant, MAX_NOTICE, None)), None);
    }
    var creds := settings.GetAISettings(SYSTEM_DOMAIN);
    if creds.key == "" || creds.url == "" || creds.model == "" {
      return Outcome(Answered(Reply(Assistant, CREDENTIALS_NOTICE, Some(now))), None);
    }
    if convHist.problemId !in problems {
      return Outcome(Thrown(PROBLEM_NOT_FOUND), None);
    }
    var system := SystemMessage(Describe(problems[convHist.problemId]), code, codeLang);
    var request := MakeRequest(creds, system, convHist.messages);
    var response := provider(request);
    out := Outcome(ProviderAnswer(response, now), Some(request));
  }

  /**
   * `AIMessageHandler.post`: append the user's message, get the answer, and
   * on a reply append it and count the turn; any thrown error becomes the
   * failure body.  Since `getAiResponse` returns a reply or throws, the
   * branch for a missing reply is never taken and is not modelled.
   */
  method Post(convs: ConvTable, settings: SettingsTable, convId: ConvId, body: PostBody,
              problems: map<string, Option<string>>, provider: Request -> ProviderOutcome, now: int)
    returns (response: Body)
    requires convs.Valid()
    modifies convs, settings
    ensures convs.Valid() && convs.nextId == old(convs.nextId)
    ensures var withUser := Pushed(old(convs.docs), convId, Message(User, body.message, now));
            var out := Consult(withUser, old(settings.records), convId, body.domainId, body.code, body.codeLang,
                               problems, provider, now);
            && settings.records == RecordsAfterConsult(withUser, old(settings.records), convId, body.domainId)
            && convs.docs == Commit(withUser, convId, out.answer, now)
            && response == BodyOf(out.answer)
    ensures Seeded(old(convs.docs)) ==> Seeded(convs.docs)
    ensures UniqueOwners(old(convs.docs)) ==> UniqueOwners(convs.docs)
  {
    SendMessage(convs, convId, User, body.message, now);
    var out := GetAiResponse(convs, settings, convId, body.domainId, body.code, body.codeLang, problems, provider, now);
    match out.answer {
      case Answered(reply) =>
        SendMessage(convs, convId, reply.role, reply.content, now);
        var _ := convs.Inc(convId);
        response := Succeeded(reply);
      case Thrown(error) =>
        response := Failed(error);
    }
  }

  // ---------------------------------------------------------------------------------------------
  // Properties of a turn

  /** The collection after a whole turn, as `Post` leaves it. */
  function TurnDocs(docs: map<ConvId, ConvDoc>, records: map<string, Settings>, convId: ConvId, body: PostBody,
                    problems: map<string, Option<string>>, provider: Request -> ProviderOutcome, now: int)
    : map<ConvId, ConvDoc>
  {
    var withUser := Pushed(docs, convId, Message(User, body.message, now));
    Commit(withUser, convId,
           Consult(withUser, records, convId, body.domainId, body.code, body.codeLang, problems, provider, now).answer,
           now)
  }

  /** A turn only appends and counts, so it keeps every transcript seeded. */
  lemma TurnKeepsSeeded(docs: map<ConvId, ConvDoc>, records: map<string, Settings>, convId: ConvId, body: PostBody,
                        problems: map<string, Option<string>>, provider: Request -> ProviderOutcome, now: int)
    requires Seeded(docs)
    ensures Seeded(TurnDocs(docs, records, convId, body, problems, provider, now))
  {
    var withUser := Pushed(docs, convId, Message(User, body.message, now));
    PushedKeepsSeeded(docs, convId, Message(User, body.message, now));
    var out := Consult(withUser, records, convId, body.domainId, body.code, body.codeLang, problems, provider, now);
    if out.answer.Answered? {
      var m := Message(out.answer.reply.role, out.answer.reply.content, now);
      PushedKeepsSeeded(withUser, convId, m);
      IncrementedKeepsSeeded(Pushed(withUser, convId, m), convId);
    }
  }

  /** A turn changes no document's owner and adds no document, so each triple still owns at most one conversation. */
  lemma TurnKeepsUniqueOwners(docs: map<ConvId, ConvDoc>, records: map<string, Settings>, convId: ConvId,
                              body: PostBody, problems: map<string, Option<string>>,
                              provider: Request -> ProviderOutcome, now: int)
    requires UniqueOwners(docs)
    ensures UniqueOwners(TurnDocs(docs, records, convId, body, problems, provider, now))
  {
  }

  /**
   * Whatever the answer, the user's message stays right after the earlier
   * transcript, the turn is counted exactly when a reply came back, and no
   * other conversation changes.
   */
  lemma UserMessageKept(docs: map<ConvId, ConvDoc>, records: map<string, Settings>, convId: ConvId, body: PostBody,
                        problems: map<string, Option<string>>, provider: Request -> ProviderOutcome, now: int)
    requires convId in docs
    ensures var after := TurnDocs(docs, records, convId, body, problems, provider, now);
            var withUser := Pushed(docs, convId, Message(User, body.message, now));
            var out := Consult(withUser, records, convId, body.domainId, body.code, body.codeLang, problems, provider, now);
            && convId in after
            && |after[convId].messages| == |docs[convId].messages| + (if out.answer.Answered? then 2 else 1)
            && after[convId].messages[..|docs[convId].messages| + 1]
               == docs[convId].messages + [Message(User, body.message, now)]
            && after[convId].count == docs[convId].count + (if out.answer.Answered? then 1 else 0)
            && after[convId].OwnerOf() == docs[convId].OwnerOf()
            && (forall k :: k != convId ==> (k in after <==> k in docs) && (k in docs ==> after[k] == docs[k]))
  {
    var withUser := Pushed(docs, convId, Message(User, body.message, now));
    var n := |docs[convId].messages|;
    var out := Consult(withUser, records, convId, body.domainId, body.code, body.codeLang, problems, provider, now);
    if out.answer.Answered? {
      var m := Message(out.answer.reply.role, out.answer.reply.content, now);
      assert (docs[convId].messages + [Message(User, body.message, now)] + [m])[..n + 1]
          == docs[convId].messages + [Message(User, body.message, now)];
    }
  }

  /**
   * At or over the budget the notice is the reply: no credentials are read,
   * the provider is not called, and the notice is appended and counted like
   * a real reply, so the counter ends above the budget.
   */
  lemma BudgetNoticeIsCounted(docs: map<ConvId, ConvDoc>, records: map<string, Settings>, convId: ConvId,
                              body: PostBody, problems: map<string, Option<string>>,
                              provider: Request -> ProviderOutcome, now: int)
    requires convId in docs && docs[convId].count >= SettingsOf(records, body.domainId).count
    ensures var withUser := Pushed(docs, convId, Message(User, body.message, now));
            var out := Consult(withUser, records, convId, body.domainId, body.code, body.codeLang, problems, provider, now);
            var after := TurnDocs(docs, records, convId, body, problems, provider, now);
            && out == Outcome(Answered(Reply(Assistant, MAX_NOTICE, None)), None)
            && RecordsAfterConsult(withUser, records, convId, body.domainId) == AfterGet(records, body.domainId)
            && after[convId].count == docs[convId].count + 1 > SettingsOf(records, body.domainId).count
            && after[convId].messages == docs[convId].messages
                 + [Message(User, body.message, now), Message(Assistant, MAX_NOTICE, now)]
  {
  }

  /** Under budget but with any credential empty, the credentials notice is the reply and the provider is not called. */
  lemma CredentialsNotice(conv: ConvDoc, aiSet: Settings, creds: Settings, problems: map<string, Option<string>>,
                          code: string, codeLang: string, provider: Request -> ProviderOutcome, now: int)
    requires !BudgetExhausted(conv, aiSet) && CredentialsMissing(creds)
    ensures Respond(Some(conv), aiSet, creds, problems, code, codeLang, provider, now)
            == Outcome(Answered(Reply(Assistant, CREDENTIALS_NOTICE, Some(now))), None)
  {
  }

  /** A missing problem makes the turn fail with "Problem not found"; nothing is sent and nothing is committed. */
  lemma ProblemMissing(docs: map<ConvId, ConvDoc>, records: map<string, Settings>, convId: ConvId, body: PostBody,
                       problems: map<string, Option<string>>, provider: Request -> ProviderOutcome, now: int)
    requires convId in docs && !BudgetExhausted(docs[convId], SettingsOf(records, body.domainId))
    requires !CredentialsMissing(SettingsOf(AfterGet(records, body.domainId), SYSTEM_DOMAIN))
    requires docs[convId].problemId !in problems
    ensures var withUser := Pushed(docs, convId, Message(User, body.message, now));
            var out := Consult(withUser, records, convId, body.domainId, body.code, body.codeLang, problems, provider, now);
            && out == Outcome(Thrown(PROBLEM_NOT_FOUND), None)
            && BodyOf(out.answer) == Failed(PROBLEM_NOT_FOUND)
            && TurnDocs(docs, records, convId, body, problems, provider, now) == withUser
  {
  }

  /**
   * When the provider is asked, the prompt is the system message followed by
   * the stored transcript, the user's new message last, in order, trimmed.
   */
  lemma PromptCarriesTranscript(docs: map<ConvId, ConvDoc>, records: map<string, Settings>, convId: ConvId,
                                body: PostBody, problems: map<string, Option<string>>,
                                provider: Request -> ProviderOutcome, now: int)
    requires convId in docs
    ensures var withUser := Pushed(docs, convId, Message(User, body.message, now));
            var out := Consult(withUser, records, convId, body.domainId, body.code, body.codeLang, problems, provider, now);
            var n := |docs[convId].messages|;
            var creds := SettingsOf(AfterGet(records, body.domainId), SYSTEM_DOMAIN);
            out.sent.Some? ==>
              && out.sent.value.url == creds.url
              && out.sent.value.authorization == "Bearer " + creds.key
              && out.sent.value.model == creds.model
              && out.sent.value.temperature == 0.7 && out.sent.value.maxTokens == 1000
              && |out.sent.value.messages| == n + 2
              && docs[convId].problemId in problems
              && out.sent.value.messages[0]
                 == SystemMessage(Describe(problems[docs[convId].problemId]), body.code, body.codeLang)
              && (forall i :: 0 <= i < n ==>
                    out.sent.value.messages[i + 1] == PromptMessage(docs[convId].messages[i].role,
                                                                    JsText.Trim(docs[convId].messages[i].content)))
              && out.sent.value.messages[n + 1] == PromptMessage(User, JsText.Trim(body.message))
  {
    var withUser := Pushed(docs, convId, Message(User, body.message, now));
    var out := Consult(withUser, records, convId, body.domainId, body.code, body.codeLang, problems, provider, now);
    var conv := withUser[convId];
    assert conv.problemId == docs[convId].problemId;
    assert conv.messages == docs[convId].messages + [Message(User, body.message, now)];
    RespondSends(Some(conv), SettingsOf(records, body.domainId), SettingsOf(AfterGet(records, body.domainId), SYSTEM_DOMAIN),
                 problems, body.code, body.codeLang, provider, now);
    if out.sent.Some? {
      var creds := SettingsOf(AfterGet(records, body.domainId), SYSTEM_DOMAIN);
      var system := SystemMessage(Describe(problems[conv.problemId]), body.code, body.codeLang);
      assert out.sent.value == MakeRequest(creds, system, conv.messages);
      assert out.sent.value.messages == BuildPrompt(system, conv.messages);
    }
  }

  /**
   * A non-ok provider response fails the turn with the provider's message
   * (or "Unknown error"), and the user's message is not rolled back.
   */
  lemma ProviderErrorKeepsUserMessage(docs: map<ConvId, ConvDoc>, records: map<string, Settings>, convId: ConvId,
                                      body: PostBody, problems: map<string, Option<string>>,
                                      provider: Request -> ProviderOutcome, now: int)
    requires convId in docs
    ensures var withUser := Pushed(docs, convId, Message(User, body.message, now));
            var out := Consult(withUser, records, convId, body.domainId, body.code, body.codeLang, problems, provider, now);
            out.sent.Some? && provider(out.sent.value).ApiError? ==>
              var message := provider(out.sent.value).message;
              && BodyOf(out.answer) == Failed(FAILED_PREFIX + (API_ERROR_PREFIX
                   + (if message.Some? && message.value != "" then message.value else UNKNOWN_ERROR)))
              && TurnDocs(docs, records, convId, body, problems, provider, now) == withUser
  {
    var withUser := Pushed(docs, convId, Message(User, body.message, now));
    var out := Consult(withUser, records, convId, body.domainId, body.code, body.codeLang, problems, provider, now);
    if out.sent.Some? && provider(out.sent.value).ApiError? {
      assert out.answer == ProviderAnswer(provider(out.sent.value), now);
      assert out.answer.Thrown?;
    }
  }
}
