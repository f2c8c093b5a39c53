# ai-coach, modelled in Dafny

ai-coach is a HydroOJ plugin that adds an AI tutor to the problem page. Each
(user, problem, domain) triple owns one chat transcript in the `ai_conv`
collection. One settings record per domain lives in `ai_coach_settings`: the
feature flag `useAI`, the turn budget `count` and, on the record of the
domain `"system"`, the provider's key, URL and model.

The model covers four parts of the plugin:

- **The two stores.** Each is a class holding a map. `AIConvModel.ConvTable`
  keys documents by id, and ids are handed out in increasing order.
  `AISettings.SettingsTable` keys records by domain id. Its methods change
  the map exactly as the MongoDB calls do, and spec functions of the old
  state state the change.
- **A chat turn** (`CoachHandler`). The pure decision of `getAiResponse` is
  `Respond`, which covers:
  - the budget check and the credentials check;
  - the prompt assembly, with `String.prototype.trim` modelled in `JsText`
    and `JSON.stringify` of a string modelled in `JsonString`;
  - how the provider's outcome becomes a reply or a thrown error.
  
  `Post` composes that decision with the store writes: the user's message,
  then the reply and the counter.
- **The problem-page hook** (`CoachPlugin`): `getConversation` fetches,
  creates or repairs the transcript, and a bounded retry loop calls it.
- **The settings page** (`AISettingsHandler`): it defaults and validates the
  form fields, then stores them.

The model takes the following as parameters:

- The provider: a function from the request sent to a `ProviderOutcome`.
- The problem collection: a map from pid to the optional `zh` description.
- The clock: one value `now` per request, used for every `Date.now()`.

Files:

- `wrappers.dfy`: `Option` and `Result`.
- `js_text.dfy`: `trim`.
- `json_string.dfy`: the JSON string quoting and its inverse.
- `ai_conv_model.dfy`
- `ai_settings.dfy`
- `coach_handler.dfy`
- `coach_plugin.dfy`
- `ai_settings_handler.dfy`

The model follows what the code does, also where a reader might expect otherwise:

- The "Max conversation reached" and "AI credentials not found" notices are
  ordinary replies. They are appended to the transcript and counted, so a
  conversation's counter can go past the budget (`coachHandler.ts:30-32`).
- `add` returns the insert result, not the document. For a new conversation,
  `getConversation` therefore yields `Inserted(id, maxCount)`.
- The repair on page load pops exactly one message. A transcript that ends in
  two user messages still ends in a user message afterwards.
- `getConversation` never yields a falsy value, so the retry loop never
  retries: one page load makes exactly one call.
- `getConversation` has a branch for an empty transcript, where reading the
  last message's role throws. No reachable state takes it: every transcript
  starts with the greeting, `edit` only appends, and the repair only drops a
  trailing user message (`AIConvModel.Seeded`, `CoachPlugin.SeededConversation`).

## Model

| member | source | states |
|---|---|---|
| AIConvModel.Fresh | ai-coach/model/AIConvModel.ts:37-48 | the inserted document has the given owner, docType 80, count 0 and exactly one message, the assistant greeting stamped now |
| AIConvModel.ConvTable.Add | ai-coach/model/AIConvModel.ts:32-52 | inserts exactly the fresh document under a new id, which it returns, and keeps every other document; seeded transcripts stay seeded |
| AIConvModel.FirstMatch | ai-coach/model/AIConvModel.ts:62 | findOne by owner: the result belongs to the owner and no earlier document does; None exactly when no document belongs to the owner |
| AIConvModel.PopLast | ai-coach/model/AIConvModel.ts:64-72 | drops exactly the last message; every earlier message and every other field is unchanged |
| AIConvModel.ConvTable.Remove | ai-coach/model/AIConvModel.ts:54-86 | pops the last message of the owner's first document and returns the updated document; returns None and changes nothing when there is no match or the transcript is empty |
| AIConvModel.RemoveKeepsPrefix | ai-coach/model/AIConvModel.ts:62-77 | the popped transcript plus the removed message is the original; count, id and owner are kept |
| AIConvModel.ConvTable.Get | ai-coach/model/AIConvModel.ts:94-96 | changes nothing; returns the stored document of the owner that comes first in natural order, or None exactly when the owner has none |
| AIConvModel.Appended | ai-coach/model/AIConvModel.ts:98-107 | the new transcript is the old one with the message at the end; every other field is unchanged |
| AIConvModel.ConvTable.Edit | ai-coach/model/AIConvModel.ts:98-112 | pushes {role, content, now} onto document did only, and returns the updated document or None; seeded transcripts stay seeded |
| AIConvModel.PopUndoesAppend | ai-coach/model/AIConvModel.ts:66-107 | popping after a push gives the document back |
| AIConvModel.Bumped | ai-coach/model/AIConvModel.ts:114-121 | count goes up by exactly one and nothing else changes |
| AIConvModel.ConvTable.Inc | ai-coach/model/AIConvModel.ts:114-122 | increments the counter of document did only, and returns the updated document or None; seeded transcripts stay seeded |
| AIConvModel.Newest | ai-coach/model/AIConvModel.ts:125-128 | exactly the stored documents of the domain that the filter accepts, in strictly descending id order |
| AIConvModel.ConvTable.GetMulti | ai-coach/model/AIConvModel.ts:124-129 | changes nothing; returns every document of the domain (the query's own domain when it names one) that the query accepts, and only those, newest first |
| AISettings.SettingsTable.GetAISettings | ai-coach/public/getAISettings.ts:18-44 | returns the domain's five fields, or the defaults {true, 10, "", "", ""}; inserts the default record only on a miss |
| AISettings.SettingsTable.SetAICredential | ai-coach/public/getAISettings.ts:46-60 | upserts exactly the five values for the domain |
| AISettings.GetCreatesDefaults | ai-coach/public/getAISettings.ts:19-34 | on a miss the defaults are returned, and the store gains exactly that one record |
| AISettings.GetExistingWritesNothing | ai-coach/public/getAISettings.ts:19-43 | on a hit the stored fields are returned and nothing is written |
| AISettings.GetIdempotent | ai-coach/public/getAISettings.ts:19-35 | a second read inserts nothing and returns the same settings |
| AISettings.SetThenGet | ai-coach/public/getAISettings.ts:37-59 | after a set, a read returns exactly the values set and writes nothing |
| AISettings.SetIsolated | ai-coach/public/getAISettings.ts:46-59 | a set leaves every other domain's settings and presence as they were |
| AISettingsHandler.Validate | ai-coach/handler/AISettingsHandler.ts:21-31 | accepts exactly when key, URL and model are all present and non-empty (a string of spaces is accepted, as `!key` is false for it); otherwise fails with the message for the first missing or empty field in the order key, URL, model; useAI defaults to false; a missing or zero count becomes 10, any other count is kept |
| AISettingsHandler.Post | ai-coach/handler/AISettingsHandler.ts:21-40 | a rejected request returns its message and stores nothing; an accepted one stores exactly the validated five values for the domain |
| AISettingsHandler.Get | ai-coach/handler/AISettingsHandler.ts:9-13 | the page's credentials are the domain's settings, with the default record created on first read |
| AISettingsHandler.StoredCountNonZero | ai-coach/handler/AISettingsHandler.ts:26-28 | no accepted request stores a zero count |
| AISettingsHandler.ValidateFixedPoint | ai-coach/handler/AISettingsHandler.ts:23-31 | submitting the stored values again validates to the same settings |
| AISettingsHandler.PostThenGet | ai-coach/handler/AISettingsHandler.ts:33-35 | after an accepted post, get shows exactly the validated values and writes nothing |
| JsText.TrimStart | ai-coach/handler/coachHandler.ts:86 | the result is a suffix of the input, what is cut is all whitespace, and the result does not start with whitespace |
| JsText.TrimEnd | ai-coach/handler/coachHandler.ts:86 | the result is a prefix of the input, what is cut is all whitespace, and the result does not end with whitespace |
| JsText.Trim | ai-coach/handler/coachHandler.ts:86 | the result has no whitespace at either end |
| JsText.TrimCutsEdges | ai-coach/handler/coachHandler.ts:86 | trim removes only leading and trailing whitespace: the input is whitespace + result + whitespace |
| JsText.TrimCharacterization | ai-coach/handler/coachHandler.ts:86 | any infix with no edge whitespace that leaves only whitespace around it is the trim |
| JsText.TrimIdempotent | ai-coach/handler/coachHandler.ts:86 | trimming twice is trimming once |
| JsText.TrimKeepsClean | ai-coach/handler/coachHandler.ts:86 | a string without edge whitespace is its own trim |
| JsonString.Escape | ai-coach/handler/coachHandler.ts:77-79 | the escaped body has no control character, and every quote in it is escaped |
| JsonString.Quote | ai-coach/handler/coachHandler.ts:77-79 | JSON.stringify of a string: starts and ends with a quote and carries no control character |
| JsonString.UnescapeEscape | ai-coach/handler/coachHandler.ts:77-79 | decoding the escaped body gives the original string |
| JsonString.QuoteRoundTrip | ai-coach/handler/coachHandler.ts:77-79 | parsing the stringified text gives the original string back |
| CoachHandler.SystemMessage | ai-coach/handler/coachHandler.ts:77-79 | a system-role entry whose content decodes to the instruction text, the description, the code and the language |
| CoachHandler.Entry | ai-coach/handler/coachHandler.ts:84-87 | a prompt entry keeps the stored message's role and carries its trimmed content |
| CoachHandler.Project | ai-coach/handler/coachHandler.ts:84-87 | one entry per stored message, in order, each the trimmed entry of that message |
| CoachHandler.BuildPrompt | ai-coach/handler/coachHandler.ts:83-88 | the system message first, then the entries of the stored messages in order |
| CoachHandler.MakeRequest | ai-coach/handler/coachHandler.ts:90-106 | the request goes to the credentials' URL with "Bearer " and the key, names their model, carries the prompt, temperature 0.7 and 1000 max tokens |
| CoachHandler.ProviderAnswer | ai-coach/handler/coachHandler.ts:110-125 | a completion becomes an assistant reply stamped now; a non-ok response throws "Failed to get AI response: OpenAI API Error: " with the provider's message or "Unknown error"; any other error inside the `try` (a failed fetch, an error body that is not JSON, an ok response without `choices`) throws the prefix and its message |
| CoachHandler.Respond | ai-coach/handler/coachHandler.ts:54-126 | the provider is called exactly when the conversation exists, the budget is not reached, all three credentials are set and the problem exists; then the answer is the provider's, turned by ProviderAnswer; otherwise any reply is one of the two assistant notices |
| CoachHandler.RespondSends | ai-coach/handler/coachHandler.ts:70-111 | a request sent is built from the "system" credentials, the system message for the conversation's problem, the code and the language, and the transcript |
| CoachHandler.SendMessage | ai-coach/handler/coachHandler.ts:49-51 | appends the message to that conversation only; seeded transcripts stay seeded and each triple still owns at most one conversation |
| CoachHandler.GetAiResponse | ai-coach/handler/coachHandler.ts:54-126 | changes no conversation; returns the decision of Respond on the stored state; settings gain defaults for the domain and, once it gets that far, for "system" |
| CoachHandler.Post | ai-coach/handler/coachHandler.ts:14-47 | the user message is appended first; a reply is then appended and counted, a thrown error changes nothing more; the body is the reply or the error; seeded transcripts stay seeded and each triple still owns at most one conversation |
| CoachHandler.TurnKeepsSeeded | ai-coach/handler/coachHandler.ts:17-32 | a whole turn keeps every transcript non-empty and starting with an assistant message |
| CoachHandler.TurnKeepsUniqueOwners | ai-coach/handler/coachHandler.ts:17-32 | a whole turn adds no conversation and changes no owner, so each triple still owns at most one conversation |
| CoachHandler.UserMessageKept | ai-coach/handler/coachHandler.ts:17-35 | on every path the user's message stays right after the earlier transcript; the counter rises by one exactly when a reply came back; other conversations are unchanged |
| CoachHandler.BudgetNoticeIsCounted | ai-coach/handler/coachHandler.ts:56-64 | at or over the budget the reply is the notice, no credentials are read, no provider call is made, and the notice is appended and counted, so the counter ends above the budget |
| CoachHandler.CredentialsNotice | ai-coach/handler/coachHandler.ts:65-69 | with any credential empty, the reply is "AI credentials not found" and no provider call is made |
| CoachHandler.ProblemMissing | ai-coach/handler/coachHandler.ts:70-72 | a missing problem fails the turn with "Problem not found"; only the user message is committed |
| CoachHandler.PromptCarriesTranscript | ai-coach/handler/coachHandler.ts:77-105 | a request sent goes to the "system" URL with "Bearer " and the key, names the "system" model, temperature 0.7 and 1000 max tokens; its prompt is the system message built from the problem's description, the code and the language, then every stored message in order, trimmed, then the user's new message |
| CoachHandler.ProviderErrorKeepsUserMessage | ai-coach/handler/coachHandler.ts:110-125 | a non-ok provider response fails the turn with the provider's message or "Unknown error", and the user's message is not rolled back |
| CoachPlugin.GetConversation | ai-coach/index.ts:10-37 | the view, the conversation collection and the next id are ViewAfter, DocsAfter and NextAfter of the old state; the domain's settings are read with get-or-create; one conversation per triple and seeded transcripts are preserved |
| CoachPlugin.NoAIChangesNothing | ai-coach/index.ts:15-19 | with useAI false the view is NoAI and no conversation is created or changed |
| CoachPlugin.FoundIsTheOwners | ai-coach/index.ts:23 | when each triple owns at most one conversation, the lookup finds exactly that one |
| CoachPlugin.MissingConversationAdded | ai-coach/index.ts:23-25 | a triple without a conversation gets exactly one new seeded conversation under the next id, every other one is kept, and the view is its id with the domain's count as maxCount |
| CoachPlugin.RepairPopsLastUser | ai-coach/index.ts:26-29 | a conversation whose last message is the user's loses exactly that message, the rest is kept, and the view is the repaired document with maxCount |
| CoachPlugin.RepairPopsOnlyOne | ai-coach/index.ts:26-27 | for every conversation ending in two user messages, the stored conversation after the repair still ends in a user message |
| CoachPlugin.OtherLastUnchanged | ai-coach/index.ts:26-29 | a conversation whose last message is not the user's is shown as stored, with maxCount, and the store is unchanged |
| CoachPlugin.ConversationKeepsUniqueOwners | ai-coach/index.ts:22-29 | ids stay in order and each triple still owns at most one conversation |
| CoachPlugin.SeededConversation | ai-coach/index.ts:22-29 | on seeded transcripts the result stays seeded and the view is never the error for an empty transcript |
| CoachPlugin.Retry | ai-coach/index.ts:117-125 | at most 1 + 3 attempts; stops at the first defined value, every earlier attempt was undefined, and an undefined result means the retries ran out |
| CoachPlugin.PageLoad | ai-coach/index.ts:104-130 | one call to getConversation; the page gets exactly its view ViewAfter of the old state, and the stores change exactly as getConversation changes them |
| AIConvModel.FreshKeepsSeeded | ai-coach/model/AIConvModel.ts:37-50 | inserting a fresh conversation keeps every transcript seeded |
| AIConvModel.PushedKeepsSeeded | ai-coach/model/AIConvModel.ts:105-109 | a push onto any document keeps every transcript seeded |
| AIConvModel.IncrementedKeepsSeeded | ai-coach/model/AIConvModel.ts:115-119 | counting a turn keeps every transcript seeded |
| AIConvModel.PopUserKeepsSeeded | ai-coach/index.ts:26-27 | dropping a trailing user message from a seeded transcript leaves it seeded |

## Left out

- The compiled `dist/*.js` files, the browser UI (`plugin.page.tsx`), and the host plumbing: routes, UI injection, i18n, decorators, the `prepare`/`checkPriv` authorisation and the prototype patch itself. None of these holds logic of the core.
- The provider `fetch` and the JSON wire format of the request body. The provider is a function from the request to its outcome. The request is kept as its fields, not as the serialised text.
- `JSON.parse(problem.content).zh`. It is a map from pid to an optional description. A missing `zh` renders as "undefined" (`Describe`). A `content` that is not valid JSON makes `JSON.parse` throw a SyntaxError (`coachHandler.ts:73`), which `post` would report as its error body; the model has no such problem record, so that path is not modelled.
- UTF-16. JavaScript strings are sequences of UTF-16 code units, while a Dafny `string` is a sequence of Unicode scalar values, so a lone surrogate cannot be represented. `trim` keeps lone surrogates and `JSON.stringify` writes them as `\udxxx` escapes; neither case is in the model.
- Store faults. MongoDB errors, the `catch` in `remove` that turns them into null, and the "Failed to save API settings" wrapper in the settings `post` are not modelled, because the stores cannot fail in the model.
- Concurrency. Requests run one after another, so the budget race between concurrent turns is outside the model.
- Clocks and sleeping. A request sees one clock value `now`. The one-second wait in the retry loop adds nothing but an attempt.
- `initializeCollection` and its index management. The unique index on `domainId` is what makes the settings store a map: at most one record per domain.
- `AIConvModel.check`. It reads a field off an un-awaited promise and nothing calls it.
- The `|| {...}` fallbacks in `getAiResponse` (`coachHandler.ts:56, 65`). `getAISettings` always returns an object, so they are never used.
- The `else` branch of `post` that calls `remove(convId)`. `getAiResponse` either returns a message or throws, so that branch is never taken.
- The routing of conversation ids. `getAiResponse` receives `content.convId`, while the writes in `post` use the route's `convId`. The model takes the two to be the same id.
- The order of documents. ObjectIds are natural numbers handed out in increasing order, and `sort({_id: -1})` is descending id order. MongoDB does not promise any order for `findOne` without a sort; the model assumes it returns the matching document with the lowest id, which is an assumption of the model, not a guarantee of the store.
- Non-string request fields. The turn's body fields (`message`, `domainId`, `code`, `codeLang`) and every stored message's content are strings in the model. `post` stores `content.message` unchecked (`coachHandler.ts:21`), so the source can hold a non-string content, which the prompt assembly passes through untrimmed (the non-string branch of `coachHandler.ts:86`); and a body without `code` or `codeLang` puts the text "undefined" into the system prompt (`coachHandler.ts:27-28, 78-79`). Neither case is modelled.
- Number conversion. `count` and `maxCount` are integers. NaN, and JavaScript number coercion of `count`, are not modelled.
- Response page fields. The `isLoadingConversation` flag is not modelled. It ends as false on every path.
- The page handler's outer `catch`, which would set `aiConvHist` to null. `getConversation` catches its own errors, so no error reaches it in the model.
- CoachPlugin.PageLoad does not run the `while` loop of `index.ts:121-125` around the store. `getConversation` always yields an object, so the loop's guard is false on entry and the body is dead code. A loop there would be unreachable, so the model makes the single call. The loop's own control logic is `CoachPlugin.Retry`, which runs over the sequence of values that successive fetches would yield.
- Error texts that come from the runtime are fixed strings in the model: "Cannot read properties of undefined (reading 'role')", "Cannot read properties of null (reading 'count')" and "Cannot set properties of null (setting 'maxCount')". They are the V8 wording of the TypeError.
