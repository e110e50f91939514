/**
 The care-plan request handler (`handler` in index.js) as a total function
 from the request, the process configuration, the completion service's
 outcome and the clock to the one response written.
 */
module Handler {
  import opened Wrappers
  import opened Strings
  import opened Upstream
  import opened Http

  /** The value of `req.body.conditions`, as JavaScript sees it. */
  datatype Conditions =
    | Falsy          // undefined, null, false, 0 or NaN
    | Str(s: string) // a string, possibly empty
    | NonString      // any other truthy value; it has no `trim` method

  /** `req.body`. */
  datatype RequestBody =
    | Undefined                       // undefined or null: destructuring it throws
    | Fields(conditions: Conditions)  // any other value; `conditions` is its property

  datatype Request = Request(httpMethod: string, body: RequestBody)

  /** The process environment, read-only. */
  datatype Env = Env(apiKey: Option<string>) {
    /** `process.env.OPENAI_API_KEY` is truthy: set and not empty. */
    predicate KeyConfigured() {
      apiKey.Some? && apiKey.value != ""
    }
  }

  /** The fixed instruction template. Its text is business content with no
      behaviour of its own, so the model leaves it uninterpreted. */
  const CarePlanPrompt: string

  /** The user message: the template followed directly by the sanitised
      conditions. */
  function Prompt(sanitized: string): (r: string)
    ensures |r| == |CarePlanPrompt| + |sanitized|
    ensures r[..|CarePlanPrompt|] == CarePlanPrompt
    ensures r[|CarePlanPrompt|..] == sanitized
  {
    CarePlanPrompt + sanitized
  }

  /** Where the part of the handler before the `fetch` leaves the request. */
  datatype Step =
    | Stop(exit: Exit)
    | Fetch(call: UpstreamRequest)

  /** Destructuring, validation, the key check, sanitising and composing the
      prompt, in the source's order. */
  function Prepare(body: RequestBody, env: Env): (step: Step)
    ensures step.Fetch? <==> body.Fields? && body.conditions.Str? && !AllWhitespace(body.conditions.s) && env.KeyConfigured()
    ensures step.Stop? && step.exit.Return? ==> step.exit.status in {400, 500}
    ensures step.Stop? && step.exit.Return? ==> step.exit.body.Failure?
  {
    match body
    case Undefined => Stop(Throw)
    case Fields(conditions) =>
      match conditions
      case Falsy => Stop(Return(400, Failure(ConditionsRequired)))
      case NonString => Stop(Throw)
      case Str(s) =>
        TrimEmptyIff(s);
        if s == "" || |Trim(s)| == 0 then Stop(Return(400, Failure(ConditionsRequired)))
        else if !env.KeyConfigured() then Stop(Return(500, Failure(KeyNotConfigured)))
        else Fetch(UpstreamRequest(Prompt(Sanitize(s))))
  }

  /** The reply carries a usable `choices[0].message.content`: reading it
      does not throw, and neither does reading its `length`. */
  predicate HasCarePlan(body: ReplyBody) {
    && body.Parsed? && body.completion.Choices?
    && |body.completion.items| > 0
    && body.completion.items[0].WithMessage?
    && !body.completion.items[0].content.Missing?
  }

  /** How the handler continues once `fetch` has settled. */
  function AfterFetch(outcome: Outcome, now: Timestamp): (exit: Exit)
    ensures exit.Return? && exit.body.Success() ==> exit.status == 200 && exit.body.timestamp == now
    ensures exit.Return? && !exit.body.Success() ==> exit.body.Failure?
    ensures exit.Return? ==> exit.status in {200, 429, 500}
    ensures exit.Return? ==> (exit.status == 200 <==> exit.body.Success())
    ensures exit.Return? ==> !exit.body.Empty?
    ensures exit.Return? ==> outcome.Replied? && outcome.body.Parsed?
  {
    match outcome
    case FetchFailed => Throw
    case Replied(status, body) =>
      if !IsOk(status) then
        if body.Unparseable? then Throw
        else if status == 429 then Return(429, Failure(RateLimited))
        else if status == 401 then Return(500, Failure(InvalidKey))
        else Return(500, Failure(Unavailable))
      else
        // `choices[0].message.content`, then its `length`
        if HasCarePlan(body) then Return(200, Plan(body.completion.items[0].content, now))
        else Throw
  }

  /** The whole handler. */
  function Handle(req: Request, env: Env, outcome: Outcome, now: Timestamp): (r: Response)
    ensures r.headers == SecurityHeaders
    ensures r.status in {200, 400, 405, 429, 500}
    ensures r.Success() <==> r.status == 200 && req.httpMethod == "POST"
    ensures r.body.Empty? <==> req.httpMethod == "OPTIONS"
    ensures r.CalledUpstream() ==> req.httpMethod == "POST" && env.KeyConfigured()
  {
    if req.httpMethod == "OPTIONS" then
      Response(200, SecurityHeaders, Empty, None)
    else if req.httpMethod != "POST" then
      Response(405, SecurityHeaders, Failure(MethodNotAllowed), None)
    else
      // the `try`: the stage that ends the request, and the call made, if any
      var (exit, sent) :=
        match Prepare(req.body, env)
        case Stop(exit) => (exit, None)
        case Fetch(call) => (AfterFetch(outcome, now), Some(call));
      // the `catch` answers a throw with the generic failure
      match exit
      case Return(status, body) => Response(status, SecurityHeaders, body, sent)
      case Throw => Response(500, SecurityHeaders, Failure(GenerationFailed), sent)
  }
}
