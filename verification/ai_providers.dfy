/**
 * The provider layer of lib/ai-providers.ts: one client per LLM service,
 * each turning one HTTP exchange into an `AIResponse`, and the `DrXAI`
 * orchestrator that picks the preferred client, falls back at most once to
 * the other one, and reports availability and health.
 */
module AiProviders {
  import opened Wrappers
  import opened JsText
  import opened Http
  import opened Environment

  /** `AIProviderConfig`: the per-request options. */
  datatype Options = Options(provider: Provider, model: Option<string>, temperature: Option<real>, maxTokens: Option<int>)

  /** The options `generateResponse` uses when it is given none: DeepSeek preferred, nothing else set. */
  const DefaultOptions := Options(DeepSeek, None, None, None)

  /** `AIResponse.metadata` without the wall-clock `processing_time`. */
  datatype Metadata = Metadata(provider: string, model: string, tokensUsed: Option<int>)

  /** `AIResponse`: the outcome of a client call or of the orchestrator. */
  datatype AIResponse = AIResponse(success: bool, response: Option<string>, error: Option<string>, metadata: Option<Metadata>)

  /** One client call: which client, with which options, the request it sent and what it returned. */
  datatype Attempt = Attempt(provider: Provider, options: Options, request: HttpRequest, result: AIResponse)

  /** What `generateResponse` returns, together with the client calls it made, in order. */
  datatype Run = Run(result: AIResponse, attempts: seq<Attempt>)

  /** What `testProviders` returns, together with the client calls it made, in order. */
  datatype Probe = Probe(tests: map<string, bool>, attempts: seq<Attempt>)

  const NoAnswerPlaceholder := "لم يتم إنتاج رد"
  const NoValidKeysError := "لا توجد مفاتيح API صالحة متاحة"
  const ConnectionTestPrompt := "اختبار الاتصال"
  const UnknownModel := "unknown"
  const OpenAIDefaultTemperature: real := 0.7
  const OpenAIDefaultMaxTokens := 2000
  const DatabaseFacet := "database"
  const CacheFacet := "cache"

  /** The fixed model each client requests and reports. */
  function ModelId(p: Provider): string {
    match p
    case DeepSeek => "deepseek-reasoner"
    case OpenAI => "gpt-5"
  }

  /** Each client's chat-completions endpoint. */
  function Endpoint(p: Provider): string {
    match p
    case DeepSeek => "https://api.deepseek.com/chat/completions"
    case OpenAI => "https://api.openai.com/v1/chat/completions"
  }

  /** The service name that opens a client's error messages. */
  function ErrorPrefix(p: Provider): string {
    match p
    case DeepSeek => "DeepSeek"
    case OpenAI => "OpenAI"
  }

  /** The key a client is constructed with: `process.env.<KEY> || ""`. */
  function ClientKey(env: Env, p: Provider): string {
    OrElse(Get(env, KeyVar(p)), "")
  }

  /**
   * The request `generateText` sends: the prompt as the single user
   * message, no streaming.  DeepSeek forwards `max_tokens` as given and no
   * temperature; OpenAI defaults the temperature to 0.7 and `max_tokens` to 2000.
   */
  function ClientRequest(p: Provider, apiKey: string, prompt: string, options: Options): HttpRequest {
    match p
    case DeepSeek =>
      ChatCompletion(Endpoint(p), "Bearer " + apiKey, ModelId(p), [ChatMessage(User, prompt)],
                     None, options.maxTokens, false)
    case OpenAI =>
      ChatCompletion(Endpoint(p), "Bearer " + apiKey, ModelId(p), [ChatMessage(User, prompt)],
                     Some(options.temperature.GetOr(OpenAIDefaultTemperature)),
                     Some(options.maxTokens.GetOr(OpenAIDefaultMaxTokens)), false)
  }

  /**
   * Request shaping: every request goes to the client's own endpoint with
   * its own model and key and carries the prompt as its only message.  The
   * `provider` and `model` options never reach the wire; DeepSeek never
   * sends a temperature, OpenAI sends the caller's temperature or 0.7 and
   * the caller's token limit or 2000.
   */
  lemma RequestShaping(p: Provider, apiKey: string, prompt: string, options: Options, q: Provider, m: Option<string>)
    ensures var req := ClientRequest(p, apiKey, prompt, options);
      && req.ChatCompletion?
      && req.url == Endpoint(p) && req.model == ModelId(p) && req.authorization == "Bearer " + apiKey
      && req.messages == [ChatMessage(User, prompt)] && !req.stream
      && req == ClientRequest(p, apiKey, prompt, options.(provider := q, model := m))
      && (p == DeepSeek ==> req.temperature.None? && req.maxTokens == options.maxTokens)
      && (p == OpenAI ==> req.temperature.Some? && req.maxTokens.Some?)
      && (p == OpenAI && options.maxTokens.None? ==> req.maxTokens == Some(OpenAIDefaultMaxTokens))
      && (p == OpenAI && options.maxTokens.Some? ==> req.maxTokens == options.maxTokens)
      && (p == OpenAI && options.temperature.None? ==> req.temperature == Some(OpenAIDefaultTemperature))
      && (p == OpenAI && options.temperature.Some? ==> req.temperature == options.temperature)
  {
  }

  /**
   * The answer text a client extracts from a decoded body.  DeepSeek takes
   * the final answer, else the reasoning trace; OpenAI only the content.
   * Empty or missing text becomes the placeholder.
   */
  function AnswerText(p: Provider, body: RawBody): string {
    match p
    case DeepSeek =>
      var text := OrElse(body.content, OrElse(body.reasoningContent, ""));
      if text != "" then text else NoAnswerPlaceholder
    case OpenAI =>
      OrElse(body.content, NoAnswerPlaceholder)
  }

  /** The message of the error a client catches when the call did not deliver a body. */
  function FailureMessage(p: Provider, outcome: HttpOutcome): string
    requires !outcome.Delivered()
  {
    match outcome
    case Rejected(ErrorObject(message)) => message
    case Rejected(NonError) => UnknownError
    case Reply(status, text, json) =>
      if !outcome.IsOk() then ErrorPrefix(p) + " API error: " + NatToString(status) + " - " + text
      else if json.NullBody? then ReadPropertyError("null", "choices")
      else json.message
  }

  /**
   * `generateText` of either client: one request, one response.  It
   * succeeds exactly when the service delivers a 2xx body that decodes to
   * a JSON value other than `null` (a `null` body throws on reading
   * `choices`); a
   * success always carries non-empty text, no error and the client's own
   * name, model and a token count; a failure carries an error message, no
   * text, the model "unknown" and no token count.
   */
  function GenerateText(p: Provider, apiKey: string, prompt: string, options: Options, net: Network): (a: Attempt)
    ensures a.provider == p && a.options == options && a.request == ClientRequest(p, apiKey, prompt, options)
    ensures a.result.success <==> net(a.request).Delivered()
    ensures a.result.success ==>
      && a.result.response.Some? && a.result.response.value != "" && a.result.error.None?
      && a.result.metadata.Some? && a.result.metadata.value.provider == p.Name()
      && a.result.metadata.value.model == ModelId(p) && a.result.metadata.value.tokensUsed.Some?
    ensures !a.result.success ==>
      && a.result.response.None? && a.result.error.Some?
      && a.result.metadata == Some(Metadata(p.Name(), UnknownModel, None))
    ensures var out := net(a.request);
      out.Reply? && !out.IsOk() ==>
        a.result.error == Some(ErrorPrefix(p) + " API error: " + NatToString(out.status) + " - " + out.text)
    ensures var out := net(a.request);
      out.IsOk() && out.json.NullBody? ==> a.result.error == Some(ReadPropertyError("null", "choices"))
    ensures var out := net(a.request);
      out.IsOk() && out.json.Unparsable? ==> a.result.error == Some(out.json.message)
    ensures var out := net(a.request);
      out.Rejected? && out.thrown.ErrorObject? ==> a.result.error == Some(out.thrown.message)
    ensures net(a.request) == Rejected(NonError) ==> a.result.error == Some(UnknownError)
  {
    var request := ClientRequest(p, apiKey, prompt, options);
    var outcome := net(request);
    var result :=
      if outcome.Delivered() then
        var body := outcome.json.body;
        AIResponse(true, Some(AnswerText(p, body)), None,
                   Some(Metadata(p.Name(), ModelId(p), Some(body.totalTokens.GetOr(0)))))
      else
        AIResponse(false, None, Some(FailureMessage(p, outcome)), Some(Metadata(p.Name(), UnknownModel, None)));
    Attempt(p, options, request, result)
  }

  /**
   * Answer precedence of a successful call: DeepSeek returns the non-empty
   * content, else the non-empty reasoning trace, else the placeholder;
   * OpenAI returns the non-empty content, else the placeholder.
   */
  lemma AnswerPrecedence(p: Provider, apiKey: string, prompt: string, options: Options, net: Network)
    requires net(ClientRequest(p, apiKey, prompt, options)).Delivered()
    ensures var body := net(ClientRequest(p, apiKey, prompt, options)).json.body;
      var r := GenerateText(p, apiKey, prompt, options, net).result.response.value;
      && (Truthy(body.content) ==> r == body.content.value)
      && (!Truthy(body.content) && p == DeepSeek && Truthy(body.reasoningContent) ==> r == body.reasoningContent.value)
      && (!Truthy(body.content) && (p == OpenAI || !Truthy(body.reasoningContent)) ==> r == NoAnswerPlaceholder)
  {
  }

  /**
   * Token count of a successful call: the reported `usage.total_tokens`
   * whenever it is present, zero included, and 0 when it is absent.
   */
  lemma TokensReported(p: Provider, apiKey: string, prompt: string, options: Options, net: Network)
    requires net(ClientRequest(p, apiKey, prompt, options)).Delivered()
    ensures var body := net(ClientRequest(p, apiKey, prompt, options)).json.body;
      var t := GenerateText(p, apiKey, prompt, options, net).result.metadata.value.tokensUsed.value;
      && (body.totalTokens.Some? ==> t == body.totalTokens.value)
      && (body.totalTokens.None? ==> t == 0)
  {
  }

  /** The orchestrator's answer when the preferred provider has no key. */
  const NoKeysResponse := AIResponse(false, None, Some(NoValidKeysError), None)

  /** One call of `provider`'s client with the key it was constructed with. */
  function Call(env: Env, p: Provider, prompt: string, options: Options, net: Network): Attempt {
    GenerateText(p, ClientKey(env, p), prompt, options, net)
  }

  /**
   * `DrXAI.generateResponse`.  Without a key for the preferred provider it
   * calls nothing and fails with the fixed "no valid API keys" error, even
   * when the other provider has a key.  Otherwise the preferred client is
   * called first; the other client is called once more exactly when that
   * first call failed and the other key is configured, with the same
   * options except for `provider`.  The answer is the last call's result,
   * unchanged, success or failure.
   */
  function GenerateResponse(prompt: string, options: Options, env: Env, net: Network): (run: Run)
    ensures |run.attempts| <= 2
    ensures run.attempts == [] <==> !HasKey(env, options.provider)
    ensures run.attempts == [] ==> run.result == NoKeysResponse
    ensures forall i :: 0 <= i < |run.attempts| ==>
      run.attempts[i] == Call(env, run.attempts[i].provider, prompt, run.attempts[i].options, net)
    ensures |run.attempts| >= 1 ==>
      && run.attempts[0].provider == options.provider && run.attempts[0].options == options
      && run.result == run.attempts[|run.attempts| - 1].result
    ensures |run.attempts| == 2 <==>
      |run.attempts| >= 1 && !run.attempts[0].result.success && HasKey(env, options.provider.Other())
    ensures |run.attempts| == 2 ==>
      && run.attempts[1].provider == options.provider.Other()
      && run.attempts[1].options == options.(provider := options.provider.Other())
  {
    var p := options.provider;
    if !HasKey(env, p) then
      Run(NoKeysResponse, [])
    else
      var first := Call(env, p, prompt, options, net);
      if !first.result.success && HasKey(env, p.Other()) then
        var second := Call(env, p.Other(), prompt, options.(provider := p.Other()), net);
        Run(second.result, [first, second])
      else
        Run(first.result, [first])
  }

  /**
   * Call counting: a successful first call is the answer and nothing else
   * is called; after a failed first call the fallback is the answer, and
   * the providers called are never the same one twice.
   */
  lemma FallbackOutcome(prompt: string, options: Options, env: Env, net: Network)
    requires HasKey(env, options.provider)
    ensures var run := GenerateResponse(prompt, options, env, net);
      var first := Call(env, options.provider, prompt, options, net);
      && (first.result.success ==> run.attempts == [first] && run.result == first.result)
      && (!first.result.success && HasKey(env, options.provider.Other()) ==>
            run.result == Call(env, options.provider.Other(), prompt, options.(provider := options.provider.Other()), net).result)
      && (!first.result.success && !HasKey(env, options.provider.Other()) ==> run.result == first.result)
      && (|run.attempts| == 2 ==> run.attempts[0].provider != run.attempts[1].provider)
  {
  }

  /**
   * With the default options only DeepSeek can answer: without a DeepSeek
   * key nothing is called and the "no valid API keys" failure is returned,
   * even when an OpenAI key is configured.
   */
  lemma DefaultOptionsNeedDeepSeekKey(prompt: string, env: Env, net: Network)
    ensures var run := GenerateResponse(prompt, DefaultOptions, env, net);
      && (!HasKey(env, DeepSeek) ==> run.attempts == [] && run.result == NoKeysResponse && !run.result.success)
      && (HasKey(env, DeepSeek) ==> run.attempts[0].provider == DeepSeek)
  {
  }

  /** `getAvailableProviders`: the configured providers, OpenAI listed before DeepSeek. */
  function AvailableProviders(env: Env): (names: seq<string>)
    ensures forall p: Provider :: p.Name() in names <==> HasKey(env, p)
    ensures forall n :: n in names ==> n == "openai" || n == "deepseek"
    ensures forall i, j :: 0 <= i < j < |names| ==> names[i] == "openai" && names[j] == "deepseek"
  {
    (if HasKey(env, OpenAI) then [OpenAI.Name()] else [])
    + (if HasKey(env, DeepSeek) then [DeepSeek.Name()] else [])
  }

  /** The connection test of one provider: the fixed test prompt with only `provider` set. */
  function TestCall(env: Env, p: Provider, net: Network): Attempt {
    Call(env, p, ConnectionTestPrompt, Options(p, None, None, None), net)
  }

  /**
   * `testProviders`: DeepSeek is tested, then OpenAI, each only when its key
   * is configured; the map has an entry exactly for the tested providers,
   * holding whether that test call succeeded.
   */
  function TestProviders(env: Env, net: Network): (probe: Probe)
    ensures forall p: Provider :: p.Name() in probe.tests <==> HasKey(env, p)
    ensures forall k :: k in probe.tests ==> k == "deepseek" || k == "openai"
    ensures forall p: Provider :: HasKey(env, p) ==> probe.tests[p.Name()] == TestCall(env, p, net).result.success
    ensures |probe.attempts| == |probe.tests|
    ensures forall i :: 0 <= i < |probe.attempts| ==>
      HasKey(env, probe.attempts[i].provider) && probe.attempts[i] == TestCall(env, probe.attempts[i].provider, net)
    ensures |probe.attempts| == 2 ==> probe.attempts[0].provider == DeepSeek && probe.attempts[1].provider == OpenAI
  {
    var ds := if HasKey(env, DeepSeek) then [TestCall(env, DeepSeek, net)] else [];
    var oa := if HasKey(env, OpenAI) then [TestCall(env, OpenAI, net)] else [];
    var afterDeepSeek: map<string, bool> := if HasKey(env, DeepSeek) then map[DeepSeek.Name() := ds[0].result.success] else map[];
    var tests := if HasKey(env, OpenAI) then afterDeepSeek[OpenAI.Name() := oa[0].result.success] else afterDeepSeek;
    Probe(tests, ds + oa)
  }

  /** The two configuration facets never collide with a provider name, and the two statuses differ. */
  lemma FacetsAreNotProviders()
    ensures forall p: Provider :: p.Name() != DatabaseFacet && p.Name() != CacheFacet
    ensures DatabaseFacet != CacheFacet
    ensures Online != Offline
  {
    assert Online[1] == 'n' && Offline[1] == 'f';
    assert DatabaseFacet[1] == 'a' && CacheFacet[0] == 'c';
    assert DeepSeek.Name()[0] == 'd' && DeepSeek.Name()[1] == 'e';
    assert OpenAI.Name()[0] == 'o';
  }

  function Status(up: bool): string {
    if up then Online else Offline
  }

  /**
   * The health map built from a test map: one status per test, "online"
   * exactly when the test passed, plus "database" and "cache", "online"
   * exactly when `DATABASE_URL` / `KV_REST_API_URL` is set.
   */
  function HealthFromTests(tests: map<string, bool>, env: Env): (health: map<string, string>)
    requires forall k :: k in tests ==> k == "deepseek" || k == "openai"
    ensures health.Keys == tests.Keys + {DatabaseFacet, CacheFacet}
    ensures forall k :: k in tests ==> (health[k] == Online <==> tests[k])
    ensures health[DatabaseFacet] == Online <==> IsSet(env, DatabaseUrlVar)
    ensures health[CacheFacet] == Online <==> IsSet(env, CacheUrlVar)
    ensures forall k :: k in health ==> health[k] == Online || health[k] == Offline
  {
    FacetsAreNotProviders();
    assert DatabaseFacet !in tests && CacheFacet !in tests by {
      assert DatabaseFacet != DeepSeek.Name() && DatabaseFacet != OpenAI.Name();
      assert CacheFacet != DeepSeek.Name() && CacheFacet != OpenAI.Name();
    }
    var health := map k | k in tests :: Status(tests[k]);
    health[DatabaseFacet := Status(IsSet(env, DatabaseUrlVar))][CacheFacet := Status(IsSet(env, CacheUrlVar))]
  }

  /**
   * `getSystemHealth`: the health map of the connection tests, "database"
   * and "cache" included.  It has no entry for an untested provider.
   */
  function SystemHealth(env: Env, net: Network): (health: map<string, string>)
    ensures health.Keys == TestProviders(env, net).tests.Keys + {DatabaseFacet, CacheFacet}
    ensures forall k :: k in TestProviders(env, net).tests ==> (health[k] == Online <==> TestProviders(env, net).tests[k])
    ensures health[DatabaseFacet] == Online <==> IsSet(env, DatabaseUrlVar)
    ensures health[CacheFacet] == Online <==> IsSet(env, CacheUrlVar)
    ensures forall k :: k in health ==> health[k] == Online || health[k] == Offline
  {
    HealthFromTests(TestProviders(env, net).tests, env)
  }

  /**
   * The health map per provider: a provider has an entry exactly when its
   * key is configured, and that entry is "online" exactly when its
   * connection test succeeded.  The only other entries are "database" and
   * "cache".
   */
  lemma ProviderHealth(env: Env, net: Network)
    ensures var health := SystemHealth(env, net);
      && (forall p: Provider :: p.Name() in health <==> HasKey(env, p))
      && (forall p: Provider :: HasKey(env, p) ==> (health[p.Name()] == Online <==> TestCall(env, p, net).result.success))
      && (forall k :: k in health ==> k in {"deepseek", "openai", DatabaseFacet, CacheFacet})
  {
    var health := SystemHealth(env, net);
    var tests := TestProviders(env, net).tests;
    FacetsAreNotProviders();
    forall p: Provider
      ensures p.Name() in health <==> HasKey(env, p)
    {
      assert p.Name() in health <==> p.Name() in tests;
    }
  }
}
