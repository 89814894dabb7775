/** `src/lib/recaptcha-service.ts`: how `validateRecaptcha` turns the
    configuration, the token and the reply of Google's `siteverify`
    endpoint into a verdict, and the two configuration queries. The HTTP
    exchange is an input; the environment is a record. */
module Recaptcha {
  import opened Common

  const MIN_TOKEN_LENGTH: nat := 10
  const NOT_CONFIGURED: string := "reCAPTCHA not configured"
  const BAD_TOKEN_FORMAT: string := "Invalid reCAPTCHA token format"
  const HTTP_FAILED: string := "reCAPTCHA verification failed"
  const VALIDATION_FAILED: string := "reCAPTCHA validation failed"
  const VALIDATION_ERROR: string := "reCAPTCHA validation error"

  /** The environment variables the authentication flow reads. `minScore`
      stands for `parseFloat(process.env.RECAPTCHA_MIN_SCORE || '0.5')`. */
  datatype Env = Env(
    secretKey: Option<string>,
    siteKey: Option<string>,
    nodeEnv: Option<string>,
    skipActionCheck: Option<string>,
    minScore: real)

  /** The parsed JSON body of a `siteverify` reply. */
  datatype SiteVerifyBody = SiteVerifyBody(success: bool, errorCodes: Option<seq<string>>)

  /** What the `fetch` and `response.json()` calls yield: a transport fault,
      or a status with a body that is `None` when it is not valid JSON. */
  datatype SiteVerifyReply =
    | TransportFault
    | Reply(ok: bool, body: Option<SiteVerifyBody>)

  datatype Validation = Validation(isValid: bool, score: Option<real>, error: Option<string>)

  /** `validateRecaptcha(token, action, minScore)`. */
  function ValidateRecaptcha(secretKey: Option<string>, token: string, action: string, minScore: real,
                             reply: SiteVerifyReply): (r: Validation)
    ensures r.isValid <==>
      Truthy(secretKey) && |token| >= MIN_TOKEN_LENGTH && reply.Reply? && reply.ok
      && reply.body.Some? && reply.body.value.success
    ensures r.isValid <==> r.error.None?
    ensures r.score.None?
    ensures !Truthy(secretKey) ==> r.error == Some(NOT_CONFIGURED)
    ensures Truthy(secretKey) && |token| < MIN_TOKEN_LENGTH ==> r.error == Some(BAD_TOKEN_FORMAT)
    ensures Truthy(secretKey) && |token| >= MIN_TOKEN_LENGTH && reply.TransportFault? ==> r.error == Some(VALIDATION_ERROR)
    ensures Truthy(secretKey) && |token| >= MIN_TOKEN_LENGTH && reply.Reply? && reply.ok && reply.body.None? ==>
      r.error == Some(VALIDATION_ERROR)
  {
    if !Truthy(secretKey) then
      Validation(false, None, Some(NOT_CONFIGURED))
    else if token == "" || |token| < MIN_TOKEN_LENGTH then
      Validation(false, None, Some(BAD_TOKEN_FORMAT))
    else
      match reply
      case TransportFault =>
        Validation(false, None, Some(VALIDATION_ERROR))
      case Reply(ok, body) =>
        if !ok then
          Validation(false, None, Some(HTTP_FAILED))
        else if body.None? then
          Validation(false, None, Some(VALIDATION_ERROR))
        else if !body.value.success then
          Validation(false, None, Some(Or(JoinedCodes(body.value.errorCodes), VALIDATION_FAILED)))
        else
          Validation(true, None, None)
  }

  /** `data['error-codes']?.join(', ')`. */
  function JoinedCodes(codes: Option<seq<string>>): (r: Option<string>)
    ensures codes.None? <==> r.None?
    ensures codes.Some? ==> r == Some(Join(codes.value, ", "))
  {
    if codes.None? then None else Some(Join(codes.value, ", "))
  }

  /** A rejected token reports its error codes joined by `, `, or the
      default message when there are none, or only empty ones. */
  lemma RejectedTokenError(secretKey: Option<string>, token: string, action: string, minScore: real,
                           body: SiteVerifyBody)
    requires Truthy(secretKey) && |token| >= MIN_TOKEN_LENGTH && !body.success
    ensures var r := ValidateRecaptcha(secretKey, token, action, minScore, Reply(true, Some(body)));
      && (body.errorCodes.Some? && Join(body.errorCodes.value, ", ") != "" ==>
            r.error == Some(Join(body.errorCodes.value, ", ")))
      && (body.errorCodes.None? || body.errorCodes.value == [] ==> r.error == Some(VALIDATION_FAILED))
  {
  }

  /** A non-ok status is a failure whatever the body says. */
  lemma HttpFailureFailsClosed(secretKey: Option<string>, token: string, action: string, minScore: real,
                               body: Option<SiteVerifyBody>)
    requires Truthy(secretKey) && |token| >= MIN_TOKEN_LENGTH
    ensures ValidateRecaptcha(secretKey, token, action, minScore, Reply(false, body)) ==
      Validation(false, None, Some(HTTP_FAILED))
  {
  }

  /** Without a secret, or with a token too short to be one, the verdict
      does not depend on the reply: the endpoint is not consulted. */
  lemma NoCallBeforeChecks(secretKey: Option<string>, token: string, action: string, minScore: real,
                           r1: SiteVerifyReply, r2: SiteVerifyReply)
    requires !Truthy(secretKey) || |token| < MIN_TOKEN_LENGTH
    ensures ValidateRecaptcha(secretKey, token, action, minScore, r1) ==
      ValidateRecaptcha(secretKey, token, action, minScore, r2)
  {
  }

  /** The expected action and the minimum score are never consulted. */
  lemma ActionAndScoreUnused(secretKey: Option<string>, token: string, a1: string, a2: string,
                             s1: real, s2: real, reply: SiteVerifyReply)
    ensures ValidateRecaptcha(secretKey, token, a1, s1, reply) == ValidateRecaptcha(secretKey, token, a2, s2, reply)
  {
  }

  /** `getRecaptchaSiteKey()`. */
  function GetRecaptchaSiteKey(env: Env): (r: Option<string>)
    ensures r.Some? <==> Truthy(env.siteKey)
    ensures r.Some? ==> r == env.siteKey
  {
    if Truthy(env.siteKey) then env.siteKey else None
  }

  /** `isRecaptchaEnabled()`. */
  predicate IsRecaptchaEnabled(env: Env) {
    Truthy(env.secretKey) && Truthy(env.siteKey)
  }

  /** Enabled exactly when the secret is set and a site key is published. */
  lemma EnabledIffKeys(env: Env)
    ensures IsRecaptchaEnabled(env) <==> Truthy(env.secretKey) && GetRecaptchaSiteKey(env).Some?
  {
  }

  /** The development bypass the handlers apply to a failed verdict. */
  predicate SkipDev(env: Env) {
    env.nodeEnv != Some("production") && Truthy(env.skipActionCheck)
  }
}
