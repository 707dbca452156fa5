/**
 * The health endpoint of app/api/ai/health/route.ts: two live probes of
 * the providers' model lists and two configuration checks, combined into
 * one report.
 */
module HealthRoute {
  import opened Wrappers
  import opened JsText
  import opened Http
  import opened Environment

  const HealthCheckFailed := "Health check failed"

  /** The report's fields, as `GET` writes them. */
  const OpenAIField := "openai"
  const DeepSeekField := "deepseek"
  const DatabaseField := "database"
  const CacheField := "cache"
  const TimestampField := "timestamp"
  const ErrorField := "error"

  /** A health reply: its HTTP status, its JSON fields and the probe requests sent. */
  datatype HealthReply = HealthReply(status: int, body: map<string, string>, probes: seq<HttpRequest>)

  /**
   * The probe `checkOpenAIHealth` / `checkDeepSeekHealth` sends: a listing
   * of the provider's models, with the key read from the environment even
   * when it is not set.
   */
  function ProbeRequest(p: Provider, env: Env): HttpRequest {
    match p
    case OpenAI => ListModels("https://api.openai.com/v1/models", "Bearer " + Interpolated(env, OpenAIKeyVar))
    case DeepSeek => ListModels("https://api.deepseek.com/v1/models", "Bearer " + Interpolated(env, DeepSeekKeyVar))
  }

  /**
   * Each probe lists its own provider's models with the key as
   * interpolated from the environment, "Bearer undefined" when it is absent.
   */
  lemma ProbeRequestShaping(p: Provider, env: Env)
    ensures var req := ProbeRequest(p, env);
      && req.ListModels?
      && req.authorization == "Bearer " + Interpolated(env, KeyVar(p))
      && (KeyVar(p) !in env ==> req.authorization == "Bearer undefined")
      && (p == OpenAI ==> req.url == "https://api.openai.com/v1/models")
      && (p == DeepSeek ==> req.url == "https://api.deepseek.com/v1/models")
  {
  }

  /** A probe is "online" exactly when the response is ok; a non-ok status or a thrown error is "offline". */
  function ProbeStatus(outcome: HttpOutcome): (status: string)
    ensures status == Online || status == Offline
    ensures status == Online <==> outcome.Reply? && 200 <= outcome.status <= 299
  {
    assert Online[1] != Offline[1];
    if outcome.IsOk() then Online else Offline
  }

  /**
   * `checkDatabaseHealth` / `checkCacheHealth`: "online" exactly when the
   * variable is set, without any connection attempt.
   */
  function ConfigStatus(env: Env, name: string): (status: string)
    ensures status == Online || status == Offline
    ensures status == Online <==> IsSet(env, name)
  {
    assert Online[1] != Offline[1];
    if IsSet(env, name) then Online else Offline
  }

  /**
   * `GET /api/ai/health`: both providers are probed whether or not their
   * keys are set; the report has exactly the fields openai, deepseek,
   * database, cache and timestamp, and status 200.
   */
  function Get(env: Env, net: Network, timestamp: string): (reply: HealthReply)
    ensures reply.status == 200
    ensures reply.body.Keys == {OpenAIField, DeepSeekField, DatabaseField, CacheField, TimestampField}
    ensures reply.probes == [ProbeRequest(OpenAI, env), ProbeRequest(DeepSeek, env)]
    ensures reply.body[OpenAIField] == Online <==> net(ProbeRequest(OpenAI, env)).IsOk()
    ensures reply.body[DeepSeekField] == Online <==> net(ProbeRequest(DeepSeek, env)).IsOk()
    ensures reply.body[DatabaseField] == Online <==> IsSet(env, DatabaseUrlVar)
    ensures reply.body[CacheField] == Online <==> IsSet(env, CacheUrlVar)
    ensures reply.body[TimestampField] == timestamp
    ensures forall k :: k in reply.body && k != TimestampField ==> reply.body[k] == Online || reply.body[k] == Offline
  {
    FieldsDistinct();
    var openai := ProbeStatus(net(ProbeRequest(OpenAI, env)));
    var deepseek := ProbeStatus(net(ProbeRequest(DeepSeek, env)));
    var body := map[OpenAIField := openai, DeepSeekField := deepseek,
                    DatabaseField := ConfigStatus(env, DatabaseUrlVar), CacheField := ConfigStatus(env, CacheUrlVar),
                    TimestampField := timestamp];
    HealthReply(200, body, [ProbeRequest(OpenAI, env), ProbeRequest(DeepSeek, env)])
  }

  /**
   * The reply of the `catch` in `GET`: every status "offline", the
   * timestamp and a fixed error, with status 500.  No check in `GET` can
   * throw, so this is reached only by a failure outside the model.
   */
  function FailureReply(timestamp: string): (reply: HealthReply)
    ensures reply.status == 500
    ensures reply.body.Keys == {OpenAIField, DeepSeekField, DatabaseField, CacheField, TimestampField, ErrorField}
    ensures forall k :: k in reply.body && k != TimestampField && k != ErrorField ==> reply.body[k] == Offline
    ensures reply.body[ErrorField] == HealthCheckFailed
    ensures reply.body[TimestampField] == timestamp
  {
    FieldsDistinct();
    var body := map[OpenAIField := Offline, DeepSeekField := Offline, DatabaseField := Offline, CacheField := Offline,
                    TimestampField := timestamp, ErrorField := HealthCheckFailed];
    HealthReply(500, body, [])
  }

  /** The report's field names are pairwise different. */
  lemma FieldsDistinct()
    ensures OpenAIField != DeepSeekField && OpenAIField != DatabaseField && OpenAIField != CacheField
    ensures DeepSeekField != DatabaseField && DeepSeekField != CacheField && DatabaseField != CacheField
    ensures TimestampField !in {OpenAIField, DeepSeekField, DatabaseField, CacheField}
    ensures ErrorField !in {OpenAIField, DeepSeekField, DatabaseField, CacheField, TimestampField}
  {
    assert OpenAIField[0] == 'o' && DeepSeekField[0] == 'd' && DatabaseField[0] == 'd' && CacheField[0] == 'c';
    assert DeepSeekField[1] == 'e' && DatabaseField[1] == 'a';
    assert TimestampField[0] == 't' && ErrorField[0] == 'e';
  }
}
