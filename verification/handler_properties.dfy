/**
 Properties of the care-plan handler, each stated for all requests,
 configurations, upstream outcomes and times.
 */
module HandlerProperties {
  import opened Wrappers
  import opened Strings
  import opened Upstream
  import opened Http
  import opened Handler

  /** The request gets past validation and the key check, so the handler
      calls the completion service. */
  predicate ReachesUpstream(req: Request, env: Env) {
    && req.httpMethod == "POST"
    && req.body.Fields? && req.body.conditions.Str?
    && !AllWhitespace(req.body.conditions.s)
    && env.KeyConfigured()
  }

  /** The status each error message is sent with, as one table. */
  function ErrorStatus(error: Error): int {
    match error
    case MethodNotAllowed => 405
    case ConditionsRequired => 400
    case RateLimited => 429
    case KeyNotConfigured | InvalidKey | Unavailable | GenerationFailed => 500
  }

  /** A preflight request is answered 200 with an empty body, whatever it
      carries, and nothing is sent upstream. */
  lemma PreflightAnswered(req: Request, env: Env, outcome: Outcome, now: Timestamp)
    requires req.httpMethod == "OPTIONS"
    ensures Handle(req, env, outcome, now) == Response(200, SecurityHeaders, Empty, None)
  {
  }

  /** Any method other than OPTIONS and POST is refused with 405, and the
      body, the configuration and the upstream are never consulted. */
  lemma OtherMethodRejected(req: Request, env: Env, outcome: Outcome, now: Timestamp,
                            body': RequestBody, env': Env, outcome': Outcome, now': Timestamp)
    requires req.httpMethod != "OPTIONS" && req.httpMethod != "POST"
    ensures Handle(req, env, outcome, now).status == 405
    ensures Handle(req, env, outcome, now).body == Failure(MethodNotAllowed)
    ensures !Handle(req, env, outcome, now).CalledUpstream()
    ensures Handle(Request(req.httpMethod, body'), env', outcome', now') == Handle(req, env, outcome, now)
  {
  }

  /** Missing, empty or whitespace-only conditions are refused with 400;
      validation comes before the key check, so this holds whether or not
      the key is configured. */
  lemma BlankConditionsRejected(req: Request, env: Env, outcome: Outcome, now: Timestamp)
    requires req.httpMethod == "POST" && req.body.Fields?
    requires req.body.conditions.Falsy? || (req.body.conditions.Str? && AllWhitespace(req.body.conditions.s))
    ensures Handle(req, env, outcome, now).status == 400
    ensures Handle(req, env, outcome, now).body == Failure(ConditionsRequired)
    ensures !Handle(req, env, outcome, now).CalledUpstream()
  {
  }

  /** A missing body, or conditions that are truthy but not a string, make
      the handler throw before the key check; the catch-all answers. */
  lemma MalformedBodyFails(req: Request, env: Env, outcome: Outcome, now: Timestamp)
    requires req.httpMethod == "POST"
    requires req.body.Undefined? || req.body.conditions.NonString?
    ensures Handle(req, env, outcome, now).status == 500
    ensures Handle(req, env, outcome, now).body == Failure(GenerationFailed)
    ensures !Handle(req, env, outcome, now).CalledUpstream()
  {
  }

  /** Valid conditions without a configured key are refused with 500 and no
      upstream request. */
  lemma MissingKeyRejected(req: Request, env: Env, outcome: Outcome, now: Timestamp)
    requires req.httpMethod == "POST" && req.body.Fields? && req.body.conditions.Str?
    requires !AllWhitespace(req.body.conditions.s)
    requires !env.KeyConfigured()
    ensures Handle(req, env, outcome, now).status == 500
    ensures Handle(req, env, outcome, now).body == Failure(KeyNotConfigured)
    ensures !Handle(req, env, outcome, now).CalledUpstream()
  {
  }

  /** The completion service is called exactly for POST requests with
      non-blank string conditions and a configured key. */
  lemma UpstreamCalledIff(req: Request, env: Env, outcome: Outcome, now: Timestamp)
    ensures Handle(req, env, outcome, now).CalledUpstream() <==> ReachesUpstream(req, env)
  {
  }

  /** The one user message is the template followed by the sanitised
      conditions: the template is its prefix, and the rest has no angle
      brackets and no surrounding whitespace. */
  lemma UpstreamMessageContent(req: Request, env: Env, outcome: Outcome, now: Timestamp)
    requires ReachesUpstream(req, env)
    ensures Handle(req, env, outcome, now).sent.Some?
    ensures var content := Handle(req, env, outcome, now).sent.value.content;
      && content[..|CarePlanPrompt|] == CarePlanPrompt
      && content[|CarePlanPrompt|..] == Sanitize(req.body.conditions.s)
      && NoAngles(content[|CarePlanPrompt|..])
      && Trimmed(content[|CarePlanPrompt|..])
  {
  }

  /** Conditions made only of angle brackets, such as "<>", pass
      validation, yet the message sent upstream is the bare template. */
  lemma AngleOnlyConditionsSendBareTemplate(s: string, env: Env, outcome: Outcome, now: Timestamp)
    requires s != [] && forall i :: 0 <= i < |s| ==> IsAngle(s[i])
    requires env.KeyConfigured()
    ensures Handle(Request("POST", Fields(Str(s))), env, outcome, now).sent
            == Some(UpstreamRequest(CarePlanPrompt))
  {
    AngleOnlyInputSanitisesToEmpty(s);
    PostPath(Request("POST", Fields(Str(s))), env, outcome, now);
    assert CarePlanPrompt + [] == CarePlanPrompt;
  }

  /** When no upstream request is made, the response does not depend on the
      upstream outcome or the clock. */
  lemma NoCallIgnoresOutcome(req: Request, env: Env, outcome: Outcome, now: Timestamp,
                             outcome': Outcome, now': Timestamp)
    requires !Handle(req, env, outcome, now).CalledUpstream()
    ensures Handle(req, env, outcome', now') == Handle(req, env, outcome, now)
  {
  }

  /** Only whether the key is configured matters; its value never reaches
      the response. */
  lemma KeyValueNotObservable(req: Request, env: Env, env': Env, outcome: Outcome, now: Timestamp)
    requires env.KeyConfigured() == env'.KeyConfigured()
    ensures Handle(req, env', outcome, now) == Handle(req, env, outcome, now)
  {
  }

  /** A non-ok reply whose error body parses is mapped by its status: 429
      to 429, 401 to 500 with the key message, anything else to 500 with
      the unavailability message. */
  lemma ErrorReplyMapping(req: Request, env: Env, status: int, completion: Completion, now: Timestamp)
    requires ReachesUpstream(req, env) && !IsOk(status)
    ensures var r := Handle(req, env, Replied(status, Parsed(completion)), now);
      && (status == 429 ==> r.status == 429 && r.body == Failure(RateLimited))
      && (status == 401 ==> r.status == 500 && r.body == Failure(InvalidKey))
      && (status != 429 && status != 401 ==> r.status == 500 && r.body == Failure(Unavailable))
  {
    PostPath(req, env, Replied(status, Parsed(completion)), now);
    var exit := AfterFetch(Replied(status, Parsed(completion)), now);
    assert status == 429 ==> exit == Return(429, Failure(RateLimited));
    assert status == 401 ==> exit == Return(500, Failure(InvalidKey));
    assert status != 429 && status != 401 ==> exit == Return(500, Failure(Unavailable));
  }

  /** A non-ok reply whose error body does not parse ends in the catch-all,
      even for status 429. */
  lemma UnparseableErrorReplyFails(req: Request, env: Env, status: int, now: Timestamp)
    requires ReachesUpstream(req, env) && !IsOk(status)
    ensures Handle(req, env, Replied(status, Unparseable), now).status == 500
    ensures Handle(req, env, Replied(status, Unparseable), now).body == Failure(GenerationFailed)
  {
  }

  /** `success` is true exactly on the path where the request reaches the
      service and an ok reply carries a care plan; the response then holds
      that care plan and the time. */
  lemma SuccessIff(req: Request, env: Env, outcome: Outcome, now: Timestamp)
    ensures Handle(req, env, outcome, now).Success() <==>
      ReachesUpstream(req, env) && outcome.Replied? && IsOk(outcome.status) && HasCarePlan(outcome.body)
    ensures Handle(req, env, outcome, now).Success() ==>
      Handle(req, env, outcome, now).body == Plan(outcome.body.completion.items[0].content, now)
  {
    if ReachesUpstream(req, env) {
      PostPath(req, env, outcome, now);
      FetchSucceedsIff(outcome, now);
    } else if req.httpMethod == "POST" {
      PostPath(req, env, outcome, now);
    }
  }

  /** Once the fetch has settled, the handler returns a care plan exactly
      when an ok reply carries one. */
  lemma FetchSucceedsIff(outcome: Outcome, now: Timestamp)
    ensures var exit := AfterFetch(outcome, now);
      (exit.Return? && exit.body.Success()) <==> outcome.Replied? && IsOk(outcome.status) && HasCarePlan(outcome.body)
    ensures var exit := AfterFetch(outcome, now);
      exit.Return? && exit.body.Success() ==> exit.body == Plan(outcome.body.completion.items[0].content, now)
  {
  }

  /** The generic failure is sent exactly when something throws: a missing
      body, non-string conditions, a failed fetch, an unparseable reply, or
      an ok reply without a care plan. */
  lemma GenericFailureIff(req: Request, env: Env, outcome: Outcome, now: Timestamp)
    ensures Handle(req, env, outcome, now).body == Failure(GenerationFailed) <==>
      && req.httpMethod == "POST"
      && (|| req.body.Undefined?
          || req.body.conditions.NonString?
          || (ReachesUpstream(req, env)
              && (|| outcome.FetchFailed?
                  || outcome.body.Unparseable?
                  || (IsOk(outcome.status) && !HasCarePlan(outcome.body)))))
  {
    if req.httpMethod == "POST" {
      PostPath(req, env, outcome, now);
      if ReachesUpstream(req, env) {
        AfterFetchThrowsIff(outcome, now);
        AfterFetchStatus(outcome, now);
      } else {
        PrepareThrowsIff(req.body, env);
        PrepareStatus(req.body, env);
      }
    }
  }

  /** Every error response's status is the one its message is listed with. */
  lemma StatusFollowsError(req: Request, env: Env, outcome: Outcome, now: Timestamp)
    ensures Handle(req, env, outcome, now).body.Failure? ==>
      Handle(req, env, outcome, now).status == ErrorStatus(Handle(req, env, outcome, now).body.error)
  {
    if req.httpMethod == "POST" {
      PostPath(req, env, outcome, now);
      if ReachesUpstream(req, env) {
        AfterFetchStatus(outcome, now);
      } else {
        PrepareStatus(req.body, env);
      }
    }
  }

  /** Before the fetch, the handler throws exactly for a missing body or
      non-string conditions. */
  lemma PrepareThrowsIff(body: RequestBody, env: Env)
    ensures Prepare(body, env) == Stop(Throw) <==> body.Undefined? || body.conditions.NonString?
  {
  }

  /** Every early return before the fetch carries the status listed for its
      message, and none is the generic failure. */
  lemma PrepareStatus(body: RequestBody, env: Env)
    ensures var step := Prepare(body, env);
      step.Stop? && step.exit.Return? ==>
        && step.exit.status == ErrorStatus(step.exit.body.error)
        && step.exit.body.error != GenerationFailed
  {
  }

  /** After the fetch, the handler throws exactly for a failed fetch, an
      unparseable reply, or an ok reply without a care plan. */
  lemma AfterFetchThrowsIff(outcome: Outcome, now: Timestamp)
    ensures AfterFetch(outcome, now).Throw? <==>
      || outcome.FetchFailed?
      || outcome.body.Unparseable?
      || (IsOk(outcome.status) && !HasCarePlan(outcome.body))
  {
  }

  /** Every error returned after the fetch carries the status listed for
      its message, and none is the generic failure. */
  lemma AfterFetchStatus(outcome: Outcome, now: Timestamp)
    ensures var exit := AfterFetch(outcome, now);
      exit.Return? && exit.body.Failure? ==>
        && exit.status == ErrorStatus(exit.body.error)
        && exit.body.error != GenerationFailed
  {
  }

  /** A POST request either stops before the fetch, with no upstream
      request, or is answered from the upstream outcome. */
  lemma PostPath(req: Request, env: Env, outcome: Outcome, now: Timestamp)
    requires req.httpMethod == "POST"
    ensures ReachesUpstream(req, env) ==>
      var r := Handle(req, env, outcome, now);
      var exit := AfterFetch(outcome, now);
      && r.sent == Some(UpstreamRequest(Prompt(Sanitize(req.body.conditions.s))))
      && (exit.Throw? ==> r.status == 500 && r.body == Failure(GenerationFailed))
      && (exit.Return? ==> r.status == exit.status && r.body == exit.body)
    ensures !ReachesUpstream(req, env) ==>
      var r := Handle(req, env, outcome, now);
      var step := Prepare(req.body, env);
      && step.Stop? && r.sent == None
      && (step.exit.Throw? ==> r.status == 500 && r.body == Failure(GenerationFailed))
      && (step.exit.Return? ==> r.status == step.exit.status && r.body == step.exit.body)
  {
  }
}
