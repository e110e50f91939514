/**
 The HTTP response the handler writes: a status, the fixed security and CORS
 headers, and a JSON body; plus, for the model's observers, the one request
 made to the completion service, if any.
 */
module Http {
  import opened Wrappers
  import opened Upstream

  /** ISO-8601 time of the response; the clock is not modelled. */
  type Timestamp = string

  /** The JSON body of a response. */
  datatype Body =
    | Empty                                         // `res.status(200).end()`
    | Failure(error: Error)                         // `{success: false, error}`
    | Plan(carePlan: Content, timestamp: Timestamp) // `{success: true, carePlan, timestamp}`
  {
    /** The `success` field of the JSON body. */
    predicate Success() {
      Plan?
    }
  }

  /** The error messages the handler sends. None is taken from the request,
      the configuration or the upstream reply. */
  datatype Error =
    | MethodNotAllowed
    | ConditionsRequired
    | KeyNotConfigured
    | RateLimited
    | InvalidKey
    | Unavailable
    | GenerationFailed
  {
    /** The `error` string of the JSON body. */
    function Message(): string {
      match this
      case MethodNotAllowed => "Method not allowed"
      case ConditionsRequired => "Patient conditions are required"
      case KeyNotConfigured => "OpenAI API key not configured"
      case RateLimited => "API rate limit exceeded. Please try again later."
      case InvalidKey => "Invalid API key configuration."
      case Unavailable => "OpenAI service temporarily unavailable."
      case GenerationFailed => "Failed to generate care plan. Please try again."
    }
  }

  /** Distinct errors are sent with distinct texts, so a client can tell
      every error apart by its message, and a property stated on `Error`
      is a property of the text sent. */
  lemma MessagesDistinct(e: Error, e': Error)
    requires e != e'
    ensures e.Message() != e'.Message()
  {
  }

  /** The request sent to the completion service: the one user message. */
  datatype UpstreamRequest = UpstreamRequest(content: string)

  datatype Response = Response(
    status: int,
    headers: seq<(string, string)>,
    body: Body,
    sent: Option<UpstreamRequest>)
  {
    predicate Success() {
      body.Success()
    }

    predicate CalledUpstream() {
      sent.Some?
    }
  }

  /** The six headers set before anything else, on every request. */
  const SecurityHeaders: seq<(string, string)> := [
    ("Access-Control-Allow-Origin", "*"),
    ("Access-Control-Allow-Methods", "POST, OPTIONS"),
    ("Access-Control-Allow-Headers", "Content-Type"),
    ("X-Content-Type-Options", "nosniff"),
    ("X-Frame-Options", "DENY"),
    ("X-XSS-Protection", "1; mode=block")
  ]

  /** How a stage of the handler ends: it returns a response, or it throws
      and the outer `catch` answers. */
  datatype Exit =
    | Return(status: int, body: Body)
    | Throw
}
