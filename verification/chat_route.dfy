/**
 * The chat request handler of app/api/ai/chat/route.ts: validation of the
 * message, the system prompt built from the feature flags, the outbound
 * message list, one call of the selected provider and at most one call of
 * the other one, the answer's content, token count and model label, and
 * the usage record handed to the usage sink.
 */
module ChatRoute {
  import opened Wrappers
  import opened JsText
  import opened Http
  import opened Environment
  import AiProviders

  /** The `settings` object of the request body, its missing fields absent. */
  datatype Settings = Settings(model: Option<string>, temperature: Option<real>, maxTokens: Option<int>,
                               enableThinking: bool, enableSearch: bool)

  /** `settings = {}`: the default when the body has no settings. */
  const NoSettings := Settings(None, None, None, false, false)

  /** A field of the request body: missing (`undefined`), the JSON literal `null`, or a value. */
  datatype Field<T> = Missing | Null | Present(value: T)

  /** The request body: `message`, `settings` and `history`. */
  datatype ChatRequest = ChatRequest(message: Option<string>, settings: Field<Settings>, history: Field<seq<ChatMessage>>)

  /** `const { settings = {} } = body`: the default replaces only a missing object, not `null`. */
  function SettingsOf(field: Field<Settings>): Settings
    requires !field.Null?
  {
    if field.Present? then field.value else NoSettings
  }

  /** How a `null` or missing field is named in the engine's error messages. */
  function Nullish<T>(field: Field<T>): string {
    if field.Null? then "null" else "undefined"
  }

  /** The JSON answer of `POST`, by kind. */
  datatype ChatReply =
    | Invalid(error: string)
    | Failed(error: string, details: string)
    | Answered(content: string, model: string, tokens: int)
  {
    /** The HTTP status the reply is sent with. */
    function StatusCode(): int {
      match this
      case Invalid(_) => 400
      case Failed(_, _) => 500
      case Answered(_, _, _) => 200
    }
  }

  /** The record given to `DrXDatabase.logUsage`, without the wall-clock processing time. */
  datatype UsageRecord = UsageRecord(provider: string, model: string, tokensUsed: int, success: bool,
                                     errorMessage: Option<string>, messageLength: nat, settings: Settings)

  /**
   * One run of `POST`: the reply, the provider requests sent, in order,
   * and the usage record handed to the sink, if any.
   */
  datatype ChatRun = ChatRun(reply: ChatReply, calls: seq<HttpRequest>, usage: Option<UsageRecord>)

  const MessageRequired := "الرسالة مطلوبة ويجب أن تكون نص"
  const TemporaryProblem := "عذراً، أواجه مشكلة تقنية مؤقتة. يرجى المحاولة مرة أخرى."
  const ProcessingError := "حدث خطأ في معالجة طلبك. يرجى المحاولة مرة أخرى."
  const NoContentApology := "عذراً، لم أتمكن من إنتاج رد مناسب."
  const HistoryWindow := 6

  // ---------------------------------------------------------------------
  // validation

  /** `message?.trim()` is truthy: the message is present and not whitespace only. */
  predicate ValidMessage(message: Option<string>) {
    message.Some? && Trim(message.value) != ""
  }

  /** A message is rejected exactly when it is missing or consists of whitespace only. */
  lemma ValidMessageIffNotBlank(message: Option<string>)
    ensures ValidMessage(message) <==> message.Some? && !AllWhitespace(message.value)
  {
    if message.Some? {
      TrimEmptyIffAllWhitespace(message.value);
    }
  }

  // ---------------------------------------------------------------------
  // system prompt

  const BasePrompt :=
    "أنت drx3، مساعد ذكي متخصص في الذكاء الاصطناعي والبرمجة والتكنولوجيا.\n"
    + "\n"
    + "خصائصك:\n"
    + "- خبير في Python، JavaScript، الذكاء الاصطناعي، والتعلم الآلي\n"
    + "- تجيب باللغة العربية بشكل أساسي مع دعم الإنجليزية عند الحاجة\n"
    + "- تقدم إجابات منظمة ومفصلة ومفيدة\n"
    + "- تستخدم التنسيق المناسب (عناوين، قوائم، كود)\n"
    + "- تشرح المفاهيم بطريقة واضحة ومنطقية\n"
    + "\n"
    + "إرشادات التنسيق:\n"
    + "- استخدم العناوين (# ## ###) لتنظيم المحتوى\n"
    + "- استخدم القوائم المرقمة والنقطية عند الحاجة\n"
    + "- ضع الكود في صناديق مع تحديد اللغة\n"
    + "- استخدم النص الغامق للنقاط المهمة\n"
    + "- نظم الإجابة بشكل هرمي وواضح\n"
    + "\n"
    + "إرشادات المحتوى:\n"
    + "- كن دقيقاً ومفيداً\n"
    + "- قدم أمثلة عملية عند الحاجة\n"
    + "- اشرح الخطوات بوضوح\n"
    + "- اربط المفاهيم ببعضها البعض"

  /** The start of each optional line: a new list item. */
  const LineStart := "\n- "
  const ThinkingLine := LineStart + "فكر" + " خطوة بخطوة قبل الإجابة وأظهر عملية التفكير"
  const SearchLine := LineStart + "ابحث" + " في معرفتك بعمق للحصول على أفضل إجابة شاملة"

  /** `createSystemPrompt`: the base text, then the thinking line, then the search line, each when enabled. */
  function SystemPrompt(settings: Settings): (prompt: string)
    ensures |BasePrompt| <= |prompt| && prompt[..|BasePrompt|] == BasePrompt
  {
    BasePrompt
    + (if settings.enableThinking then ThinkingLine else "")
    + (if settings.enableSearch then SearchLine else "")
  }

  /**
   * Reads the two flags back from a prompt: the base text followed by
   * nothing, the thinking line, the search line, or both in that order.
   * Any other text is not a system prompt.
   */
  function PromptFlags(prompt: string): Option<(bool, bool)> {
    if |prompt| < |BasePrompt| || prompt[..|BasePrompt|] != BasePrompt then None
    else
      var extra := prompt[|BasePrompt|..];
      if extra == "" then Some((false, false))
      else if extra == ThinkingLine then Some((true, false))
      else if extra == SearchLine then Some((false, true))
      else if extra == ThinkingLine + SearchLine then Some((true, true))
      else None
  }

  /**
   * The prompt determines the flags: the thinking line is appended iff
   * `enableThinking`, the search line iff `enableSearch`, and when both
   * are present thinking comes first.
   */
  lemma SystemPromptFlagsRoundTrip(settings: Settings)
    ensures PromptFlags(SystemPrompt(settings)) == Some((settings.enableThinking, settings.enableSearch))
  {
  }

  /**
   * A body without `settings` (the chat page sends its options under
   * another name) is answered by OpenAI first, with the base prompt alone.
   */
  lemma MissingSettingsDefaults()
    ensures SettingsOf(Missing) == NoSettings
    ensures Primary(SettingsOf(Missing)) == OpenAI
    ensures SystemPrompt(SettingsOf(Missing)) == BasePrompt
  {
  }

  // ---------------------------------------------------------------------
  // message list

  /** `history.slice(-6)`: the last six turns, or all of them when there are fewer. */
  function RecentHistory(history: seq<ChatMessage>): (recent: seq<ChatMessage>)
    ensures |recent| == if |history| < HistoryWindow then |history| else HistoryWindow
    ensures recent == history[|history| - |recent|..]
  {
    if |history| <= HistoryWindow then history else history[|history| - HistoryWindow..]
  }

  /**
   * The outbound message list: the system prompt, the most recent
   * `min(6, |history|)` turns in their original order, then the user message.
   */
  function MessageList(prompt: string, history: seq<ChatMessage>, message: string): (messages: seq<ChatMessage>)
    ensures |messages| == 2 + (if |history| < HistoryWindow then |history| else HistoryWindow)
    ensures messages[0] == ChatMessage(System, prompt)
    ensures messages[|messages| - 1] == ChatMessage(User, message)
    ensures messages[1..|messages| - 1] == history[|history| - (|messages| - 2)..]
  {
    var recent := RecentHistory(history);
    var messages := [ChatMessage(System, prompt)] + recent + [ChatMessage(User, message)];
    assert messages[1..|messages| - 1] == recent;
    messages
  }

  // ---------------------------------------------------------------------
  // provider calls

  /** The provider called first: DeepSeek exactly when `settings.model` is "deepseek". */
  function Primary(settings: Settings): (p: Provider)
    ensures p == DeepSeek <==> settings.model == Some("deepseek")
  {
    if settings.model == Some("deepseek") then DeepSeek else OpenAI
  }

  /**
   * The request `callDeepSeekAPI` / `callOpenAIAPI` sends.  The key is
   * read from the environment whether set or not, so a missing key is sent
   * as "Bearer undefined".  DeepSeek gets no temperature.
   */
  function ApiRequest(p: Provider, env: Env, messages: seq<ChatMessage>, settings: Settings): HttpRequest {
    match p
    case DeepSeek =>
      ChatCompletion("https://api.deepseek.com/chat/completions", "Bearer " + Interpolated(env, DeepSeekKeyVar),
                     "deepseek-reasoner", messages, None, settings.maxTokens, false)
    case OpenAI =>
      ChatCompletion("https://api.openai.com/v1/chat/completions", "Bearer " + Interpolated(env, OpenAIKeyVar),
                     "gpt-5", messages, settings.temperature, settings.maxTokens, false)
  }

  /**
   * The route's requests: each provider's own endpoint and model, the key
   * as interpolated from the environment (so "Bearer undefined" when it is
   * absent), the message list unchanged and no streaming.  DeepSeek gets no
   * temperature; OpenAI gets the settings' temperature; both get the
   * settings' token limit, absent when the settings have none.
   */
  lemma RouteRequestShaping(p: Provider, env: Env, messages: seq<ChatMessage>, settings: Settings)
    ensures var req := ApiRequest(p, env, messages, settings);
      && req.ChatCompletion?
      && req.authorization == "Bearer " + Interpolated(env, KeyVar(p))
      && (KeyVar(p) !in env ==> req.authorization == "Bearer undefined")
      && req.messages == messages && !req.stream && req.maxTokens == settings.maxTokens
      && (p == DeepSeek ==>
            req.url == "https://api.deepseek.com/chat/completions" && req.model == "deepseek-reasoner"
            && req.temperature.None?)
      && (p == OpenAI ==>
            req.url == "https://api.openai.com/v1/chat/completions" && req.model == "gpt-5"
            && req.temperature == settings.temperature)
  {
  }

  /** The provider's name as it appears in its label. */
  function DisplayName(p: Provider): string {
    match p
    case DeepSeek => "DeepSeek"
    case OpenAI => "OpenAI"
  }

  /** The model's name as it appears in its label. */
  function DisplayModel(p: Provider): string {
    match p
    case DeepSeek => "Reasoner"
    case OpenAI => "GPT\U{2011}5"
  }

  const FallbackSuffix := " - Fallback"

  /**
   * The label of the model that answered, as returned in `model`:
   * "DeepSeek (Reasoner)" or "OpenAI (GPT\U{2011}5)", with " - Fallback"
   * appended when the fallback call produced the answer.
   */
  function Label(p: Provider, fallback: bool): string {
    DisplayName(p) + " (" + DisplayModel(p) + ")" + (if fallback then FallbackSuffix else "")
  }

  /**
   * Every label is "<provider> (<model>)", followed by " - Fallback"
   * exactly when the fallback answered; a plain label never ends that way.
   */
  lemma LabelShape(p: Provider, fallback: bool)
    ensures var l := Label(p, fallback);
      fallback <==> |l| >= |FallbackSuffix| && l[|l| - |FallbackSuffix|..] == FallbackSuffix
  {
    var plain := Label(p, false);
    var l := Label(p, fallback);
    assert plain[|plain| - 1] == ')';
    assert FallbackSuffix[|FallbackSuffix| - 1] == 'k';
    if fallback {
      assert l == plain + FallbackSuffix;
      assert l[|l| - |FallbackSuffix|..] == FallbackSuffix;
    } else if |l| >= |FallbackSuffix| {
      assert l[|l| - |FallbackSuffix|..][|FallbackSuffix| - 1] == ')';
    }
  }

  // ---------------------------------------------------------------------
  // answer shaping

  /** The answer: the non-empty content, else the non-empty reasoning trace, else the fixed apology. */
  function Content(body: RawBody): (content: string)
    ensures content != ""
    ensures Truthy(body.content) ==> content == body.content.value
    ensures !Truthy(body.content) && Truthy(body.reasoningContent) ==> content == body.reasoningContent.value
    ensures !Truthy(body.content) && !Truthy(body.reasoningContent) ==> content == NoContentApology
  {
    OrElse(body.content, OrElse(body.reasoningContent, NoContentApology))
  }

  /**
   * `usage?.total_tokens || Math.floor(content.length / 4)`: a reported
   * non-zero count wins; a missing or zero count is replaced by a quarter
   * of the content length, rounded down.
   */
  function Tokens(body: RawBody, content: string): (tokens: int)
    ensures body.totalTokens.Some? && body.totalTokens.value != 0 ==> tokens == body.totalTokens.value
    ensures body.totalTokens.None? || body.totalTokens.value == 0 ==>
      0 <= tokens && 4 * tokens <= |content| < 4 * tokens + 4
  {
    if body.totalTokens.Some? && body.totalTokens.value != 0 then body.totalTokens.value else |content| / 4
  }

  /** Usage is logged unless this is the production build phase. */
  predicate LoggingEnabled(env: Env) {
    Get(env, NodeEnvVar) != Some("production") || Get(env, NextPhaseVar) != Some("phase-production-build")
  }

  /**
   * The `provider` and `model` fields of the usage record:
   * `tag.split(" (")[0]` and `tag.split(" (")[1].slice(0, -1)`.  When
   * there is no second piece, reading it throws inside the logging `try`
   * and nothing is logged.
   */
  function UsageFields(tag: string): Option<(string, string)> {
    var pieces := Split(tag, " (");
    if |pieces| < 2 then None else Some((pieces[0], DropLast(pieces[1])))
  }

  /**
   * The usage fields of every label: the provider is the label's display
   * name; the model is the display model, or, for a fallback tag, the
   * display model followed by ") - Fallbac" (the last character dropped
   * from ") - Fallback").
   */
  lemma UsageFieldsOfLabel(p: Provider, fallback: bool)
    ensures UsageFields(Label(p, fallback)) ==
      Some((DisplayName(p), if fallback then DisplayModel(p) + ") - Fallbac" else DisplayModel(p)))
  {
    var tail := DisplayModel(p) + ")" + (if fallback then FallbackSuffix else "");
    LabelPieces(p, fallback);
    assert DropLast(tail) == if fallback then DisplayModel(p) + ") - Fallbac" else DisplayModel(p) by {
      if fallback {
        assert tail == DisplayModel(p) + ") - Fallbac" + "k";
      } else {
        assert tail == DisplayModel(p) + ")";
      }
    }
  }

  /** Splitting a label on " (" gives the display name and everything after it. */
  lemma LabelPieces(p: Provider, fallback: bool)
    ensures Split(Label(p, fallback), " (") == [DisplayName(p), DisplayModel(p) + ")" + (if fallback then FallbackSuffix else "")]
  {
    var tail := DisplayModel(p) + ")" + (if fallback then FallbackSuffix else "");
    var name := DisplayName(p);
    assert Label(p, fallback) == name + " (" + tail;
    assert ' ' !in name by {
      assert name == "DeepSeek" || name == "OpenAI";
    }
    assert '(' !in tail by {
      assert DisplayModel(p) == "Reasoner" || DisplayModel(p) == "GPT\U{2011}5";
      assert '(' !in ")" && '(' !in FallbackSuffix;
    }
    SplitAround(name, " (", tail);
  }

  /**
   * A fallback answer is logged with a model field that is not the model's
   * name: the label "OpenAI (GPT\U{2011}5) - Fallback" gives the model
   * "GPT\U{2011}5) - Fallbac".
   */
  lemma FallbackModelFieldGarbled(p: Provider)
    ensures UsageFields(Label(p, true)).Some?
    ensures UsageFields(Label(p, true)).value.1 != DisplayModel(p)
  {
    UsageFieldsOfLabel(p, true);
    var m := DisplayModel(p);
    assert |m + ") - Fallbac"| > |m|;
  }

  /**
   * The usage fields the logging evidently means: the text before " (" and
   * the text between " (" and the next ")".
   */
  function IntendedUsageFields(tag: string): Option<(string, string)> {
    var pieces := Split(tag, " (");
    if |pieces| < 2 then None
    else match IndexOf(pieces[1], ")", 0)
      case None => Some((pieces[0], pieces[1]))
      case Some(i) => Some((pieces[0], pieces[1][..i]))
  }

  /** With the intended reading, every label, fallback or not, logs its provider and its model by name. */
  lemma IntendedUsageFieldsOfLabel(p: Provider, fallback: bool)
    ensures IntendedUsageFields(Label(p, fallback)) == Some((DisplayName(p), DisplayModel(p)))
  {
    LabelPieces(p, fallback);
    var m := DisplayModel(p);
    var tail := m + ")" + (if fallback then FallbackSuffix else "");
    assert ')' !in m by {
      assert m == "Reasoner" || m == "GPT\U{2011}5";
    }
    forall j | 0 <= j < |m|
      ensures !OccursAt(tail, ")", j)
    {
      assert tail[j] == m[j];
      OccursAtChar(tail, ")", j);
    }
    assert OccursAt(tail, ")", |m|) by {
      OccursAtChar(tail, ")", |m|);
    }
    assert IndexOf(tail, ")", 0) == Some(|m|);
    assert tail[..|m|] == m;
  }

  /** The reply and usage record once `body` answered, labelled `tag`. */
  function Answer(message: string, settings: Settings, env: Env, body: RawBody, tag: string, calls: seq<HttpRequest>): (run: ChatRun)
    ensures run.calls == calls
    ensures run.reply.Answered? && run.reply.model == tag && run.reply.content == Content(body)
    ensures run.reply.tokens == Tokens(body, Content(body))
    ensures run.usage.Some? <==> LoggingEnabled(env) && UsageFields(tag).Some?
    ensures run.usage.Some? ==>
      && run.usage.value.success && run.usage.value.errorMessage.None?
      && run.usage.value.tokensUsed == run.reply.tokens
      && run.usage.value.provider == UsageFields(tag).value.0
      && run.usage.value.model == UsageFields(tag).value.1
      && run.usage.value.messageLength == |message| && run.usage.value.settings == settings
  {
    var content := Content(body);
    var tokens := Tokens(body, content);
    var usage :=
      if !LoggingEnabled(env) then None
      else match UsageFields(tag)
        case None => None
        case Some((provider, model)) =>
          Some(UsageRecord(provider, model, tokens, true, None, |message|, settings));
    ChatRun(Answered(content, tag, tokens), calls, usage)
  }

  /**
   * The reply once a provider call returned a decoded body: an answer for
   * an object body; for `null`, reading `choices` throws outside the
   * fallback's `try` and the request fails with the processing error.
   */
  function Respond(message: string, settings: Settings, env: Env, json: JsonBody, tag: string, calls: seq<HttpRequest>): (run: ChatRun)
    requires !json.Unparsable?
    ensures run.calls == calls
    ensures json.NullBody? ==> run == ChatRun(Failed(ProcessingError, ReadPropertyError("null", "choices")), calls, None)
    ensures json.Parsed? ==> run == Answer(message, settings, env, json.body, tag, calls)
  {
    if json.NullBody? then ChatRun(Failed(ProcessingError, ReadPropertyError("null", "choices")), calls, None)
    else Answer(message, settings, env, json.body, tag, calls)
  }

  /**
   * The provider calls of `POST`: the primary first; the other one exactly
   * once when the primary's call threw, without looking at its key; the
   * fixed 500 apology when both threw.  Never a third call.  A call that
   * returns JSON `null` is not retried and fails the request.
   */
  function Dispatch(message: string, settings: Settings, env: Env, net: Network, messages: seq<ChatMessage>): (run: ChatRun)
    ensures 1 <= |run.calls| <= 2
    ensures run.calls[0] == ApiRequest(Primary(settings), env, messages, settings)
    ensures |run.calls| == 2 <==> !net(run.calls[0]).Decoded()
    ensures |run.calls| == 2 ==> run.calls[1] == ApiRequest(Primary(settings).Other(), env, messages, settings)
    ensures run.reply.Answered? <==> net(run.calls[|run.calls| - 1]).Delivered()
    ensures !net(run.calls[|run.calls| - 1]).Decoded() ==>
      run.reply == Failed(TemporaryProblem, UnknownError) && run.reply.StatusCode() == 500 && run.usage.None?
    ensures net(run.calls[|run.calls| - 1]).Decoded() && net(run.calls[|run.calls| - 1]).json.NullBody? ==>
      run.reply == Failed(ProcessingError, ReadPropertyError("null", "choices")) && run.reply.StatusCode() == 500
      && run.usage.None?
    ensures run.reply.Answered? ==>
      var body := net(run.calls[|run.calls| - 1]).json.body;
      && run.reply.content == Content(body)
      && run.reply.tokens == Tokens(body, run.reply.content)
      && run.reply.model == Label(if |run.calls| == 1 then Primary(settings) else Primary(settings).Other(),
                                  |run.calls| == 2)
    ensures run.reply.Answered? ==> (run.usage.Some? <==> LoggingEnabled(env) && UsageFields(run.reply.model).Some?)
    ensures run.usage.Some? ==>
      && run.reply.Answered? && run.usage.value.success && run.usage.value.errorMessage.None?
      && run.usage.value.tokensUsed == run.reply.tokens
      && run.usage.value.provider == UsageFields(run.reply.model).value.0
      && run.usage.value.model == UsageFields(run.reply.model).value.1
      && run.usage.value.messageLength == |message| && run.usage.value.settings == settings
  {
    var p := Primary(settings);
    var first := ApiRequest(p, env, messages, settings);
    if net(first).Decoded() then
      Respond(message, settings, env, net(first).json, Label(p, false), [first])
    else
      var second := ApiRequest(p.Other(), env, messages, settings);
      if net(second).Decoded() then
        Respond(message, settings, env, net(second).json, Label(p.Other(), true), [first, second])
      else
        ChatRun(Failed(TemporaryProblem, UnknownError), [first, second], None)
  }

  /**
   * `POST /api/ai/chat`.  A missing or blank message is rejected with 400
   * before anything is called.  A `null` settings object makes the system
   * prompt throw, and a missing or `null` history throws when it is
   * sliced; both fail with 500 before any call.  Otherwise the providers
   * are called as `Dispatch` describes.
   */
  function Post(request: ChatRequest, env: Env, net: Network): (run: ChatRun)
    ensures run.reply.Invalid? <==> !ValidMessage(request.message)
    ensures !ValidMessage(request.message) ==>
      run.reply == Invalid(MessageRequired) && run.reply.StatusCode() == 400 && run.calls == [] && run.usage.None?
    ensures ValidMessage(request.message) && request.settings.Null? ==>
      run.reply == Failed(ProcessingError, ReadPropertyError("null", "enableThinking"))
      && run.reply.StatusCode() == 500 && run.calls == [] && run.usage.None?
    ensures ValidMessage(request.message) && !request.settings.Null? && !request.history.Present? ==>
      run.reply == Failed(ProcessingError, ReadPropertyError(Nullish(request.history), "slice"))
      && run.reply.StatusCode() == 500 && run.calls == [] && run.usage.None?
    ensures ValidMessage(request.message) && !request.settings.Null? && request.history.Present? ==>
      var settings := SettingsOf(request.settings);
      run == Dispatch(request.message.value, settings, env, net,
                      MessageList(SystemPrompt(settings), request.history.value, request.message.value))
  {
    if !ValidMessage(request.message) then
      ChatRun(Invalid(MessageRequired), [], None)
    else if request.settings.Null? then
      ChatRun(Failed(ProcessingError, ReadPropertyError("null", "enableThinking")), [], None)
    else if !request.history.Present? then
      ChatRun(Failed(ProcessingError, ReadPropertyError(Nullish(request.history), "slice")), [], None)
    else
      var settings := SettingsOf(request.settings);
      Dispatch(request.message.value, settings, env, net,
               MessageList(SystemPrompt(settings), request.history.value, request.message.value))
  }

  /**
   * The body the chat page sends, a message and its options under another
   * name with no history, is never answered: every non-blank message gets
   * the 500 processing error and no provider is called.
   */
  lemma PageRequestFails(message: string, env: Env, net: Network)
    requires ValidMessage(Some(message))
    ensures var run := Post(ChatRequest(Some(message), Missing, Missing), env, net);
      run.reply == Failed(ProcessingError, ReadPropertyError("undefined", "slice")) && run.calls == []
  {
  }

  /** The provider whose answer `run` returns: the primary after one call, the other one after two. */
  function Answerer(settings: Settings, run: ChatRun): Provider {
    if |run.calls| == 1 then Primary(settings) else Primary(settings).Other()
  }

  /**
   * An answer is never empty; its label names the provider that produced
   * it and says " - Fallback" exactly when two calls were made.  The usage
   * record, written unless this is the production build, carries the same
   * token count as the reply, success, no error, and as provider the
   * answering provider's name, which is the label's text before " (".
   */
  lemma AnswerUsage(message: string, settings: Settings, env: Env, net: Network, messages: seq<ChatMessage>)
    ensures var run := Dispatch(message, settings, env, net, messages);
      run.reply.Answered? ==>
        && run.reply.content != ""
        && run.reply.model == Label(Answerer(settings, run), |run.calls| == 2)
        && (run.usage.Some? <==> LoggingEnabled(env))
        && (run.usage.Some? ==>
              && run.usage.value.success && run.usage.value.errorMessage.None?
              && run.usage.value.tokensUsed == run.reply.tokens
              && run.usage.value.provider == DisplayName(Answerer(settings, run))
              && run.usage.value.provider == Split(run.reply.model, " (")[0]
              && run.usage.value.model == (if |run.calls| == 2 then DisplayModel(Answerer(settings, run)) + ") - Fallbac"
                                           else DisplayModel(Answerer(settings, run))))
  {
    var run := Dispatch(message, settings, env, net, messages);
    if run.reply.Answered? {
      var p := Answerer(settings, run);
      UsageFieldsOfLabel(p, |run.calls| == 2);
    }
  }

  // ---------------------------------------------------------------------
  // status endpoint

  /** The JSON answer of `GET /api/ai/chat`: a fixed status, the time, and which keys are configured. */
  datatype ServiceStatus = ServiceStatus(status: string, timestamp: string, deepseek: bool, openai: bool)

  const Healthy := "healthy"

  /**
   * `GET /api/ai/chat`: always "healthy", whatever the providers' state;
   * each provider's flag says only whether its key is configured.
   */
  function Status(env: Env, timestamp: string): (s: ServiceStatus)
    ensures s.status == Healthy && s.timestamp == timestamp
    ensures forall p: Provider :: (match p case DeepSeek => s.deepseek case OpenAI => s.openai) <==> HasKey(env, p)
  {
    ServiceStatus(Healthy, timestamp, HasKey(env, DeepSeek), HasKey(env, OpenAI))
  }

  /**
   * The status endpoint and the orchestrator's `getAvailableProviders`
   * agree: a provider is flagged exactly when it is listed as available.
   */
  lemma StatusAgreesWithAvailableProviders(env: Env, timestamp: string)
    ensures var s := Status(env, timestamp);
      && (s.deepseek <==> DeepSeek.Name() in AiProviders.AvailableProviders(env))
      && (s.openai <==> OpenAI.Name() in AiProviders.AvailableProviders(env))
  {
  }
}
