/** `src/app/api/verify-recaptcha/route.ts`: request defaults and the
    mapping of a verdict to a JSON response. */
module VerifyRecaptchaRoute {
  import opened Common
  import opened Recaptcha

  const DEFAULT_ACTION: string := "login"
  const DEFAULT_MIN_SCORE: real := 0.5
  const TOKEN_MISSING: string := "reCAPTCHA token is missing"
  const VERIFIED: string := "reCAPTCHA verified"
  const INTERNAL_ERROR: string := "Internal server error"
  const FAILED_DEFAULT: string := "reCAPTCHA verification failed"

  /** `body.minScore`, which is used only when it is a number. */
  datatype ScoreField = Number(value: real) | NotANumber

  datatype VerifyBody = VerifyBody(token: Option<string>, action: Option<string>, minScore: ScoreField)

  datatype VerifyResponse = VerifyResponse(status: int, success: bool, message: string, score: Option<real>)

  function ActionOf(body: VerifyBody): (r: string)
    ensures Truthy(body.action) ==> r == body.action.value
    ensures !Truthy(body.action) ==> r == DEFAULT_ACTION
  {
    Or(body.action, DEFAULT_ACTION)
  }

  function MinScoreOf(body: VerifyBody): (r: real)
    ensures body.minScore.Number? ==> r == body.minScore.value
    ensures body.minScore.NotANumber? ==> r == DEFAULT_MIN_SCORE
  {
    match body.minScore
    case Number(v) => v
    case NotANumber => DEFAULT_MIN_SCORE
  }

  /** `POST`; `body` is `None` when the request body is not valid JSON. */
  function Post(body: Option<VerifyBody>, env: Env, reply: SiteVerifyReply): (r: VerifyResponse)
    ensures body.None? ==> r == VerifyResponse(500, false, INTERNAL_ERROR, None)
    ensures body.Some? && !Truthy(body.value.token) ==> r == VerifyResponse(400, false, TOKEN_MISSING, None)
    ensures r.success <==> r.status == 200
    ensures r.success <==>
      (body.Some? && Truthy(body.value.token)
       && ValidateRecaptcha(env.secretKey, body.value.token.value, ActionOf(body.value), MinScoreOf(body.value), reply).isValid)
  {
    if body.None? then VerifyResponse(500, false, INTERNAL_ERROR, None)
    else
      var b := body.value;
      if !Truthy(b.token) then VerifyResponse(400, false, TOKEN_MISSING, None)
      else
        var result := ValidateRecaptcha(env.secretKey, b.token.value, ActionOf(b), MinScoreOf(b), reply);
        if result.isValid then VerifyResponse(200, true, VERIFIED, result.score)
        else VerifyResponse(400, false, Or(result.error, FAILED_DEFAULT), result.score)
  }

  /** A rejected token answers 400 with the verdict's own error and no score. */
  lemma RejectedCarriesError(body: VerifyBody, env: Env, reply: SiteVerifyReply)
    requires Truthy(body.token)
    requires !ValidateRecaptcha(env.secretKey, body.token.value, ActionOf(body), MinScoreOf(body), reply).isValid
    ensures Post(Some(body), env, reply) == VerifyResponse(400, false,
      ValidateRecaptcha(env.secretKey, body.token.value, ActionOf(body), MinScoreOf(body), reply).error.value, None)
  {
    var e := ValidateRecaptcha(env.secretKey, body.token.value, ActionOf(body), MinScoreOf(body), reply).error.value;
    assert e != "" by {
      var s := env.secretKey;
      var t := body.token.value;
      if Truthy(s) && |t| >= MIN_TOKEN_LENGTH && reply.Reply? && reply.ok && reply.body.Some? {
        var codes := JoinedCodes(reply.body.value.errorCodes);
        assert e == Or(codes, VALIDATION_FAILED);
      }
    }
  }

  /** An accepted token answers 200 with a `null` score: the verdict never carries one. */
  lemma AcceptedHasNullScore(body: VerifyBody, env: Env, reply: SiteVerifyReply)
    requires Post(Some(body), env, reply).success
    ensures Post(Some(body), env, reply) == VerifyResponse(200, true, VERIFIED, None)
  {
  }
}
