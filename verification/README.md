# drx-chatbot server core in Dafny

This project models the server side of the drx-chatbot Arabic chat assistant. The assistant talks to two LLM services: DeepSeek (model `deepseek-reasoner`) and OpenAI (model `gpt-5`). The model covers four parts:

- **The provider layer** (`AiProviders`). Each client turns one chat-completion exchange into an `AIResponse`. On top of the clients sits the `DrXAI` orchestrator. It calls the preferred provider and falls back once to the other one. It also lists the available providers, runs the connection tests and builds the health map.
- **The chat endpoint** (`ChatRoute`, `POST /api/ai/chat`). It validates the message and builds the system prompt from the two feature flags. The message list holds the system prompt, the last six turns of history, then the user message. The endpoint calls the selected provider, falling back once to the other provider. It then builds the answer: content, token count and a model label ending in " - Fallback" when the fallback answered. Finally it splits the label into the usage record's `provider` and `model` fields. `GET /api/ai/chat` reports which keys are configured.
- **The health endpoint** (`HealthRoute`, `GET /api/ai/health`). It lists each provider's models as a live probe and checks the two configuration variables.
- **The echo endpoint** (`EchoRoute`, `POST /api/chat`). It formats the last message together with the model and the two feature tags.

How the outside world is modelled:

- **Network.** The network is a parameter `net: HttpRequest -> HttpOutcome`. Every handler run returns the requests it sent, in order, so call counts and call order are stated in contracts.
- **Environment.** `process.env` is a `map<string, string>`. A variable counts as set when it is present and non-empty, which is JavaScript truthiness. A variable read inside a template literal renders as the word `undefined` when it is absent (`Environment.Interpolated`).
- **Shared helpers** (`JsText`). These are the JavaScript string operations the handlers rely on:
  - `trim` with the ECMAScript whitespace set;
  - `split` on a non-empty separator;
  - `slice(0, -1)`;
  - `||` on optional strings;
  - the rendering of a number inside a template literal;
  - the message of the `TypeError` thrown when a property is read from `undefined` or `null`.

Behaviour of the code that is easy to miss:

- **Missing preferred key.** `generateResponse` does not switch to the other provider when the preferred provider has no key. It fails at once with "no valid API keys" and makes no call.
- **No key check before the route's fallback.** The chat route calls the fallback provider without checking its key. A missing key is sent as `Bearer undefined`.
- **Orchestrator token count.** The orchestrator's clients report `usage.total_tokens ?? 0`, not an estimate from the text length. The chat route uses `total_tokens || floor(length / 4)`, so a reported 0 is replaced by the estimate.
- **Sequential tests.** `testProviders` tests DeepSeek first, then OpenAI, one after the other.
- **Missing history.** A chat body without `history`, or with `history: null`, passes validation. It then fails with status 500 when the history is sliced, before any provider is called.
- **Null settings.** The `settings = {}` default replaces only a missing object. `settings: null` makes the system prompt throw, so the request fails with status 500 before any call.
- **Null response body.** A 2xx provider reply whose JSON is `null` makes a client call fail, because reading `choices` throws inside its `try`. In the chat route the same read happens outside the fallback's `try`, so the request fails with status 500 and the other provider is not tried.

## Model

| member | source | states |
|---|---|---|
| JsText.TrimEmptyIffAllWhitespace | app/api/ai/chat/route.ts:132 | `s.trim()` is empty exactly when every character of `s` is ECMAScript whitespace or a line terminator |
| JsText.SplitAround | app/api/ai/chat/route.ts:206-207 | splitting `a + sep + b` on a two-character separator gives exactly `[a, b]` when no occurrence of the separator can start inside `a` or `b` |
| JsText.NatToStringRoundTrip | lib/ai-providers.ts:64 | the decimal rendering of a status code in an error message reads back as the same number |
| Environment.Interpolated | app/api/ai/health/route.ts:9 | a key read inside a template literal is the variable's value, "" included, or the word "undefined" when the variable is absent |
| AiProviders.RequestShaping | lib/ai-providers.ts:42-130 | each client posts to its own endpoint, with its own fixed model and `Bearer <key>`, and sends the prompt as the only user message with no streaming. The `provider`/`model` options never reach the wire. DeepSeek sends no temperature and forwards `max_tokens` as given. OpenAI sends the caller's temperature, or 0.7 when none is given, and the caller's token limit, or 2000 when none is given |
| AiProviders.GenerateText | lib/ai-providers.ts:38-160 | a client call succeeds exactly when the service returns a 2xx status whose body decodes to any JSON value other than `null`. A body that is not an object (an array, a number, a string, a boolean) has no `choices` and stands as `RawBody(None, None, None)`, so it succeeds with the placeholder. A success carries non-empty text, no error, and the client's own provider name, model and token count. A failure carries an error message, no text, model "unknown" and no token count. A non-2xx status gives the error "<Service> API error: <status> - <body text>", and a `null` body the error of reading `choices` from `null`. A rejected fetch gives the thrown error's message, or "خطأ غير معروف" when the thrown value is not an `Error`. A 2xx body that does not parse gives the parser's error message |
| AiProviders.AnswerPrecedence | lib/ai-providers.ts:67-146 | DeepSeek answers with the non-empty content, else the non-empty reasoning trace, else the placeholder. OpenAI answers with the non-empty content, else the placeholder |
| AiProviders.TokensReported | lib/ai-providers.ts:72-146 | a successful call reports `usage.total_tokens` whenever it is present (0 included), and 0 when it is absent |
| AiProviders.GenerateResponse | lib/ai-providers.ts:173-208 | at most two client calls. None exactly when the preferred provider has no key, and then the fixed "no valid API keys" failure. The preferred client goes first with the caller's options. A second call happens exactly when the first failed and the other key is set; it goes to the other client with only `provider` changed. The result is the last call's result |
| AiProviders.DefaultOptionsNeedDeepSeekKey | lib/ai-providers.ts:175-199 | with the default options, a missing DeepSeek key means no call and the "no valid API keys" failure, even when an OpenAI key is set; otherwise DeepSeek is called first |
| AiProviders.FallbackOutcome | lib/ai-providers.ts:180-200 | a successful first call is the answer and nothing else is called. A failed first call is replaced by the fallback's result when the other key is set and is returned as is otherwise. The two calls never go to the same provider |
| AiProviders.AvailableProviders | lib/ai-providers.ts:210-219 | a provider is listed exactly when its key is set; nothing else is listed, and "openai" comes before "deepseek" |
| AiProviders.TestProviders | lib/ai-providers.ts:225-249 | the test map has an entry exactly for each provider whose key is set, holding whether its connection test with the fixed prompt succeeded. One call per entry; DeepSeek is tested before OpenAI |
| AiProviders.HealthFromTests | lib/ai-providers.ts:256-266 | the health map has the tested providers plus "database" and "cache". A provider is "online" exactly when its test passed. "database"/"cache" are "online" exactly when `DATABASE_URL`/`KV_REST_API_URL` is set. Every value is "online" or "offline" |
| AiProviders.SystemHealth | lib/ai-providers.ts:256-266 | the system health map is the health map of the connection tests, with the same keys and the same online/offline rule |
| AiProviders.ProviderHealth | lib/ai-providers.ts:251-266 | a provider appears in the system health map exactly when its key is set. It is "online" exactly when its connection test succeeded. No keys other than the two providers, "database" and "cache" appear |
| ChatRoute.ValidMessageIffNotBlank | app/api/ai/chat/route.ts:131-137 | a chat message is accepted exactly when it is present and not made only of whitespace |
| ChatRoute.SystemPrompt | app/api/ai/chat/route.ts:92-124 | every system prompt starts with the fixed base text |
| ChatRoute.SystemPromptFlagsRoundTrip | app/api/ai/chat/route.ts:115-121 | the flags can be read back from the prompt. The prompt is the base text followed by nothing else, the thinking line, the search line, or both in that order. The thinking line is present exactly when `enableThinking` is set and the search line exactly when `enableSearch` is set |
| ChatRoute.MissingSettingsDefaults | app/api/ai/chat/route.ts:129 | a body without `settings` is sent to OpenAI first, with the base prompt and no optional line |
| ChatRoute.RecentHistory | app/api/ai/chat/route.ts:146 | `history.slice(-6)` is the final `min(6, |history|)` turns of the history |
| ChatRoute.MessageList | app/api/ai/chat/route.ts:140-154 | the outbound list is the system prompt, then the last `min(6, |history|)` history turns in order, then the user message, so its length is `2 + min(6, |history|)` |
| ChatRoute.RouteRequestShaping | app/api/ai/chat/route.ts:32-89 | each route request goes to its provider's endpoint with its fixed model and `Bearer` plus the interpolated key, "Bearer undefined" when the key is absent. It sends the message list unchanged with no streaming and the settings' `maxTokens`. DeepSeek sends no temperature; OpenAI sends the settings' temperature |
| ChatRoute.Primary | app/api/ai/chat/route.ts:162-168 | DeepSeek is called first exactly when `settings.model` is "deepseek"; any other or missing value selects OpenAI |
| ChatRoute.LabelShape | app/api/ai/chat/route.ts:164-179 | a model label ends in " - Fallback" exactly when the fallback call answered |
| ChatRoute.Content | app/api/ai/chat/route.ts:199-200 | the answer is never empty: the non-empty content, else the non-empty reasoning trace, else the fixed apology |
| ChatRoute.Tokens | app/api/ai/chat/route.ts:209-224 | a reported non-zero `total_tokens` is the token count. A missing or zero count is replaced by `floor(|content| / 4)` |
| ChatRoute.UsageFieldsOfLabel | app/api/ai/chat/route.ts:206-207 | for every label, the logged provider is the display name. The logged model is the display model for a primary answer and the display model followed by ") - Fallbac" for a fallback answer |
| ChatRoute.FallbackModelFieldGarbled | app/api/ai/chat/route.ts:207 | for a fallback answer the logged model field is never the model's name |
| ChatRoute.IntendedUsageFieldsOfLabel | app/api/ai/chat/route.ts:206-207 | taking the model as the text up to the first ")" logs the provider and the model by name for every label, fallback or not |
| ChatRoute.Answer | app/api/ai/chat/route.ts:199-230 | an answered reply carries the extracted content, the label, and the token count of `Tokens`. A usage record is written exactly when logging is enabled and the label splits. It records the label's two pieces as provider and model, success, no error, the reply's token count, the message length and the settings |
| ChatRoute.Respond | app/api/ai/chat/route.ts:199-244 | a decoded object body is answered; a `null` body fails the request with the processing error and the message of reading `choices` from `null`, and logs nothing |
| ChatRoute.Dispatch | app/api/ai/chat/route.ts:158-230 | one or two provider calls, the primary first. The other provider is called exactly when the primary's call threw, without checking its key. The reply is an answer exactly when the last call delivered an object body. If both calls threw, the reply is the fixed 500 apology; a `null` body gives the 500 processing error. Neither writes a usage record. The answer's label names the provider called last and has " - Fallback" exactly when two calls were made. The token count follows `Tokens`. The usage record carries the label's two pieces, the reply's token count, the message length and the settings |
| ChatRoute.Post | app/api/ai/chat/route.ts:126-245 | a missing or blank message gets 400 with the fixed error and no call. With a valid message, `null` settings or a missing or `null` history gets 500 with the processing error and the engine's message, and no call. Otherwise the providers are called as in `Dispatch` on the system prompt and message list, with `{}` for missing settings |
| ChatRoute.PageRequestFails | app/chat/page.tsx:76-81 | the body the chat page sends (a message and `config`, no `history`) always gets the 500 processing error, and no provider is called |
| ChatRoute.AnswerUsage | app/api/ai/chat/route.ts:202-213 | a usage record for an answer is written exactly when the environment is not in the production build phase. It records success, no error and the same token count as the reply. The provider is the answering provider's display name, which is the label's text before " (". The model is that provider's display model, followed by ") - Fallbac" when the fallback answered |
| ChatRoute.Status | app/api/ai/chat/route.ts:248-257 | the chat status endpoint always reports "healthy" with the given timestamp, and flags each provider exactly when its key is set |
| ChatRoute.StatusAgreesWithAvailableProviders | app/api/ai/chat/route.ts:252-256 | the status endpoint flags a provider exactly when the orchestrator lists it as available |
| HealthRoute.ProbeStatus | app/api/ai/health/route.ts:5-32 | a probe is "online" exactly when a response with a 2xx status arrives; a non-2xx status or a rejected fetch is "offline" |
| HealthRoute.ConfigStatus | app/api/ai/health/route.ts:34-56 | the database and cache checks are "online" exactly when their variable is set |
| HealthRoute.ProbeRequestShaping | app/api/ai/health/route.ts:5-32 | each probe lists its own provider's models (`https://api.openai.com/v1/models`, `https://api.deepseek.com/v1/models`) with `Bearer` plus the interpolated key, "Bearer undefined" when the key is absent |
| HealthRoute.Get | app/api/ai/health/route.ts:58-73 | status 200. Both providers are probed, OpenAI first, whether or not their keys are set. The report has exactly the fields openai, deepseek, database, cache and timestamp, each status given by its check |
| HealthRoute.FailureReply | app/api/ai/health/route.ts:74-88 | the failure report has status 500, every status "offline", the given timestamp and the fixed error "Health check failed" |
| EchoRoute.LastMessage | app/api/chat/route.ts:13-17 | the echoed message is the last element's content, or "" when there are no messages, the body has no array, or the last element has no content |
| EchoRoute.EchoText | app/api/chat/route.ts:18-19 | the echoed text starts with the model caption and ends with the received caption followed by the last message |
| EchoRoute.WebTagIffFlag | app/api/chat/route.ts:18-19 | "+ Web" appears in the echoed text exactly when `web` is truthy |
| EchoRoute.R1TagIffFlag | app/api/chat/route.ts:18-19 | "+ R1" appears in the echoed text exactly when `r1` is truthy |

## Left out

- HTTP transport, `NextResponse` and JSON encoding and decoding are abstracted. A request is a datatype of the JSON fields sent; a response is a status, its text and its decoded fields.
- `processing_time` and `processingTime` are left out because they come from the wall clock. Timestamps are parameters.
- Temperatures are `real` numbers passed through unchanged. Floating-point behaviour is not modelled.
- `Promise.all` in the health endpoint runs its four checks concurrently. The model evaluates them in source order because they do not interact.
- Console logging is left out; it has no effect on any reply.
- `DrXDatabase.logUsage` (lib/database.ts) is not part of this model. The route ignores its outcome, so the model only states the record handed to it.
- A body field holding a non-string JSON value (a number where text is expected) is not modelled. Only present strings, absent fields and, for `settings`, `history` and the provider's response body, `null` are.
- A chat request body that is JSON `null` or does not parse is not modelled; both end in the 500 processing error. Any other non-object body destructures to missing fields and is `ChatRequest(None, Missing, Missing)`, which gets the 400.
- String lengths count characters, not UTF-16 code units. `Math.floor(content.length / 4)` differs for text outside the Basic Multilingual Plane.
- The missing-history error message uses the wording of the V8 `TypeError` for reading `slice` of `undefined`.
- The user interface, the client store, lib/models.ts and next.config.mjs are not part of this model.
- EchoRoute.WebTagIffFlag: proved only when neither the model nor the last message contains '+', because user text could otherwise spell out "+ Web" itself.
- EchoRoute.R1TagIffFlag: proved only when neither the model nor the last message contains '+', for the same reason.
- ChatRoute.Dispatch: keeps the usage fields as written, not the intended ones in `IntendedUsageFields`, so that the logged record matches what the route sends.

## Findings

| source | as written | input that shows it | evidently intended | confidence | as-written member | corrected member |
|---|---|---|---|---|---|---|
| app/api/ai/chat/route.ts:207 | the logged model is `actualModel.split(" (")[1].slice(0, -1)`. This drops only the last character, which is ")" only for a primary label | the primary provider fails and the fallback answers, so the label is "OpenAI (GPT‑5) - Fallback" and the logged model is "GPT‑5) - Fallbac" | the logged model is the model's name, "GPT‑5", whichever call answered | high; not executed | ChatRoute.FallbackModelFieldGarbled | ChatRoute.IntendedUsageFieldsOfLabel |
