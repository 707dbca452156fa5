/** `process.env`: the configuration the handlers read. */
module Environment {
  import opened Wrappers
  import opened JsText
  import opened Http

  type Env = map<string, string>

  const DeepSeekKeyVar := "DEEPSEEK_API_KEY"
  const OpenAIKeyVar := "OPENAI_API_KEY"
  const DatabaseUrlVar := "DATABASE_URL"
  const CacheUrlVar := "KV_REST_API_URL"
  const NodeEnvVar := "NODE_ENV"
  const NextPhaseVar := "NEXT_PHASE"

  /** `process.env[name]`: absent variables read as `undefined`. */
  function Get(env: Env, name: string): Option<string> {
    if name in env then Some(env[name]) else None
  }

  /** The variable is set to a non-empty value (JavaScript truthiness). */
  predicate IsSet(env: Env, name: string) {
    Truthy(Get(env, name))
  }

  /** The variable holding a provider's API key. */
  function KeyVar(p: Provider): string {
    match p
    case DeepSeek => DeepSeekKeyVar
    case OpenAI => OpenAIKeyVar
  }

  /** A provider's API key is configured. */
  predicate HasKey(env: Env, p: Provider) {
    IsSet(env, KeyVar(p))
  }

  /** `${process.env[name]}` in a template literal: `undefined` renders as the word itself. */
  function Interpolated(env: Env, name: string): (r: string)
    ensures name in env ==> r == env[name]
    ensures name !in env ==> r == "undefined"
  {
    Get(env, name).GetOr("undefined")
  }
}
