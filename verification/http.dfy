/**
 * The outside world as the handlers see it: the two chat-completion
 * services, the requests sent to them and what can come back.  A network
 * is a function from request to outcome, so every run of a handler is
 * determined by its inputs and the calls it makes can be listed.
 */
module Http {
  import opened Wrappers

  /** The two LLM services the system can call. */
  datatype Provider = DeepSeek | OpenAI {

    /** The other provider: the fallback target. */
    function Other(): (q: Provider)
      ensures q != this
    {
      match this
      case DeepSeek => OpenAI
      case OpenAI => DeepSeek
    }

    /** The identifier used in options, metadata and health maps. */
    function Name(): (n: string)
      ensures n == "deepseek" || n == "openai"
    {
      match this
      case DeepSeek => "deepseek"
      case OpenAI => "openai"
    }
  }

  datatype Role = System | User | Assistant

  datatype ChatMessage = ChatMessage(role: Role, content: string)

  /**
   * The JSON-relevant parts of an outbound request.  An absent optional
   * field is one `JSON.stringify` leaves out because its value is `undefined`.
   */
  datatype HttpRequest =
    | ChatCompletion(url: string, authorization: string, model: string, messages: seq<ChatMessage>,
                     temperature: Option<real>, maxTokens: Option<int>, stream: bool)
    | ListModels(url: string, authorization: string)

  /**
   * A decoded response body other than `null`, reduced to what is read
   * from it: `choices[0].message.content`,
   * `choices[0].message.reasoning_content` and `usage.total_tokens`, each
   * absent when any step of the path is missing.  A body that is not an
   * object (an array, a number, a string, a boolean) has none of them and
   * is `RawBody(None, None, None)`.
   */
  datatype RawBody = RawBody(content: Option<string>, reasoningContent: Option<string>, totalTokens: Option<int>)

  /**
   * What `response.json()` gives: a JSON value other than `null`, the
   * literal `null`, or the message of the error it throws.
   */
  datatype JsonBody = Parsed(body: RawBody) | NullBody | Unparsable(message: string)

  /** A value thrown by `fetch`: an `Error` with a message, or anything else. */
  datatype Thrown = ErrorObject(message: string) | NonError

  /**
   * The outcome of one `fetch`: it rejects, or a response arrives with a
   * status, the body read as text and the body read as JSON.
   */
  datatype HttpOutcome =
    | Rejected(thrown: Thrown)
    | Reply(status: nat, text: string, json: JsonBody)
  {
    /** `response.ok`: a 2xx status. */
    predicate IsOk() {
      Reply? && 200 <= status <= 299
    }

    /** `response.json()` of an ok response returns instead of throwing: the body is JSON, `null` included. */
    predicate Decoded() {
      IsOk() && !json.Unparsable?
    }

    /** The call produced a usable body: an ok status whose body decodes to a JSON value other than `null`. */
    predicate Delivered() {
      IsOk() && json.Parsed?
    }
  }

  type Network = HttpRequest -> HttpOutcome

  /** The two status words of the health reports. */
  const Online := "online"
  const Offline := "offline"

  /** The message used when a caught value is not an `Error`. */
  const UnknownError := "خطأ غير معروف"
}
