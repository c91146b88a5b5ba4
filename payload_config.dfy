/**
 * The logic in the CMS configuration: the database port default, the
 * `jobs.access.run` guard and the `/deploy-frontend` endpoint handler.
 * Environment variables are parameters (`None` when unset); the deploy
 * hook's POST is an oracle giving its outcome.
 */
module PayloadConfig {
  import opened Wrappers
  import opened Js
  import opened Auth

  // ---- database pool ----

  const DefaultPort := 5432

  /** `parseInt(process.env.POSTGRES_PORT || '5432', 10)`; `None` is `NaN`. */
  function DatabasePort(postgresPort: Option<string>): (port: Option<int>)
    ensures postgresPort.Some? && postgresPort.value != "" ==> port == ParseInt(postgresPort.value)
    ensures postgresPort.None? || postgresPort == Some("") ==> port == ParseInt("5432")
  {
    ParseInt(if postgresPort.Some? && postgresPort.value != "" then postgresPort.value else "5432")
  }

  /** An unset or empty `POSTGRES_PORT` gives 5432; a numeral gives its number. */
  lemma DatabasePortDefault(postgresPort: Option<string>)
    ensures postgresPort.None? || postgresPort == Some("") ==> DatabasePort(postgresPort) == Some(DefaultPort)
    ensures forall n: nat {:trigger DecimalString(n)} ::
              DatabasePort(Some(DecimalString(n))) == Some(n)
  {
    assert "5432" == IntString(DefaultPort);
    ParseIntReadsDecimal(DefaultPort);
    forall n: nat ensures DatabasePort(Some(DecimalString(n))) == Some(n) {
      ParseIntReadsDecimal(n);
    }
  }

  // ---- jobs.access.run ----

  /**
   * A logged-in user may run jobs; otherwise the `authorization` header must
   * equal the template string `Bearer ${process.env.CRON_SECRET}`.
   */
  function JobsRunAllowed(user: Option<User>, authorization: Option<string>,
                          cronSecret: Option<string>): (r: bool)
    ensures user.Some? ==> r
    ensures user.None? && cronSecret.Some? ==> (r <==> authorization == Some("Bearer " + cronSecret.value))
    ensures user.None? && authorization.None? ==> !r
    ensures user.None? && cronSecret.None? ==> (r <==> authorization == Some("Bearer undefined"))
  {
    if user.Some? then true
    else
      assert cronSecret.None? ==> "Bearer " + ToJsString(EnvValue(cronSecret)) == "Bearer undefined";
      authorization == Some("Bearer " + ToJsString(EnvValue(cronSecret)))
  }

  /**
   * As written, an unset `CRON_SECRET` turns the template into
   * `"Bearer undefined"`, so any anonymous caller sending that header is let in.
   */
  lemma UnsetSecretAdmitsBearerUndefined()
    ensures JobsRunAllowed(None, Some("Bearer undefined"), None)
  {
    assert ToJsString(EnvValue(None)) == "undefined";
    assert "Bearer " + "undefined" == "Bearer undefined";
  }

  /** The guard as evidently intended: without a user, a configured, non-empty secret is needed. */
  function JobsRunAllowedIntended(user: Option<User>, authorization: Option<string>,
                                  cronSecret: Option<string>): (r: bool)
    ensures r <==> user.Some? ||
                   (cronSecret.Some? && cronSecret.value != "" &&
                    authorization == Some("Bearer " + cronSecret.value))
  {
    if user.Some? then true
    else if cronSecret.None? || cronSecret.value == "" then false
    else authorization == Some("Bearer " + cronSecret.value)
  }

  /** The intended guard refuses every anonymous request while the secret is unset ... */
  lemma IntendedRefusesWithoutSecret(authorization: Option<string>)
    ensures !JobsRunAllowedIntended(None, authorization, None)
  {
  }

  /** ... and agrees with the code whenever a non-empty secret is configured. */
  lemma IntendedAgreesWhenConfigured(user: Option<User>, authorization: Option<string>, secret: string)
    requires secret != ""
    ensures JobsRunAllowedIntended(user, authorization, Some(secret)) == JobsRunAllowed(user, authorization, Some(secret))
  {
  }

  // ---- POST /deploy-frontend ----

  const UnauthorizedMessage := "You are not authorized to perform this action."
  const NotConfiguredMessage := "Deploy hook URL is not configured."
  const TriggeredMessage := "Deployment triggered successfully!"
  const DefaultFailureMessage := "Failed to trigger deployment."
  const StatusPrefix := "Vercel API responded with status "

  /** The outcome of `fetch(deployHookUrl, { method: 'POST' })` together with `response.json()`. */
  datatype HookCall =
    | HookRejected(error: Thrown)
    | HookResponded(status: nat, body: JsonBody)

  /** Where the handler's chain of early returns ends. */
  datatype DeployOutcome =
    | NotAuthorized
    | NotConfigured
    | Triggered(vercelResponse: Value)
    | Failed(error: Thrown)

  /** A handler run: where it ended and the URLs it POSTed to, in order. */
  datatype HandlerRun = HandlerRun(outcome: DeployOutcome, posted: seq<string>)

  /** `req.user && req.user.collection === 'users'`. */
  predicate Authorized(user: Option<User>) {
    user.Some? && user.value.collection == "users"
  }

  /** `VERCEL_DEPLOY_HOOK_URL` is truthy. */
  predicate Configured(hookUrl: Option<string>) {
    hookUrl.Some? && hookUrl.value != ""
  }

  /** The try block: the POST, the `response.ok` check, and `response.json()`. */
  function CallHook(call: HookCall): (o: DeployOutcome)
    ensures o.NotAuthorized? == false && o.NotConfigured? == false
    ensures call.HookRejected? ==> o == Failed(call.error)
    ensures call.HookResponded? && OkStatus(call.status) && call.body.NotJson? ==> o == Failed(call.body.error)
    ensures o.Triggered? ==> call.HookResponded? && call.body.Json? && o.vercelResponse == call.body.value
    ensures call.HookResponded? && !OkStatus(call.status) ==>
              o == Failed(ErrorObject(StatusPrefix + DecimalString(call.status)))
    ensures o.Triggered? <==> call.HookResponded? && OkStatus(call.status) && call.body.Json?
  {
    match call
    case HookRejected(e) => Failed(e)
    case HookResponded(status, body) =>
      if !OkStatus(status) then Failed(ErrorObject(StatusPrefix + DecimalString(status)))
      else
        match body
        case NotJson(e) => Failed(e)
        case Json(v) => Triggered(v)
  }

  /** The handler's decisions: auth first, then configuration, then at most one POST. */
  function DeployFrontend(user: Option<User>, hookUrl: Option<string>,
                          post: string -> HookCall): (run: HandlerRun)
    ensures !Authorized(user) ==> run == HandlerRun(NotAuthorized, [])
    ensures Authorized(user) && !Configured(hookUrl) ==> run == HandlerRun(NotConfigured, [])
    ensures |run.posted| <= 1
    ensures run.posted != [] <==> Authorized(user) && Configured(hookUrl)
    ensures run.posted != [] ==> run.posted == [hookUrl.value] && run.outcome == CallHook(post(hookUrl.value))
  {
    if !Authorized(user) then HandlerRun(NotAuthorized, [])
    else if !Configured(hookUrl) then HandlerRun(NotConfigured, [])
    else HandlerRun(CallHook(post(hookUrl.value)), [hookUrl.value])
  }

  /** `errorMessage` in the catch block: the `Error`'s message, or the default for other values. */
  function ErrorMessage(e: Thrown): (m: string)
    ensures e.ErrorObject? ==> m == e.message
    ensures e.NonError? ==> m == DefaultFailureMessage
  {
    match e
    case ErrorObject(m) => m
    case NonError(_) => DefaultFailureMessage
  }

  /** How the caught value serialises in the reply: an `Error` has no enumerable fields, so `{}`. */
  function ThrownJson(e: Thrown): Value {
    match e
    case ErrorObject(_) => Obj(map[])
    case NonError(v) => v
  }

  /** The JSON reply object of each outcome. */
  function ReplyBody(o: DeployOutcome): (body: Value)
    ensures body.Obj?
    ensures "error" in body.fields <==> !o.Triggered?
  {
    match o
    case NotAuthorized => Obj(map["error" := Str(UnauthorizedMessage)])
    case NotConfigured => Obj(map["error" := Str(NotConfiguredMessage)])
    case Triggered(v) => Obj(map["message" := Str(TriggeredMessage), "vercelResponse" := v])
    case Failed(e) => Obj(map["error" := ThrownJson(e), "details" := Str(ErrorMessage(e))])
  }

  datatype Reply = Reply(status: nat, body: Value)

  /** `Response.json(body)` without an init object: every reply has status 200. */
  function ReplyOf(o: DeployOutcome): (r: Reply)
    ensures r.status == 200 && OkStatus(r.status)
    ensures r.body == ReplyBody(o)
  {
    Reply(200, ReplyBody(o))
  }

  /** The replies as evidently intended: errors carry an error status (401, 500, 502). */
  function ReplyIntended(o: DeployOutcome): (r: Reply)
    ensures OkStatus(r.status) <==> o.Triggered?
    ensures r.body == ReplyBody(o)
  {
    match o
    case NotAuthorized => Reply(401, ReplyBody(o))
    case NotConfigured => Reply(500, ReplyBody(o))
    case Triggered(_) => Reply(200, ReplyBody(o))
    case Failed(_) => Reply(502, ReplyBody(o))
  }

  /** A non-ok hook response yields an error reply whose `details` name the status. */
  lemma NonOkHookDetailsMentionStatus(user: Option<User>, hookUrl: Option<string>,
                                      post: string -> HookCall)
    requires Authorized(user) && Configured(hookUrl)
    requires post(hookUrl.value).HookResponded? && !OkStatus(post(hookUrl.value).status)
    ensures Get(ReplyBody(DeployFrontend(user, hookUrl, post).outcome), "details")
            == Str(StatusPrefix + DecimalString(post(hookUrl.value).status))
  {
  }

  /**
   * A rejected POST yields an error reply whose `details` is the `Error`'s
   * message, or the default text when something other than an `Error` was thrown.
   */
  lemma RejectedHookDetailsCarryMessage(user: Option<User>, hookUrl: Option<string>,
                                        post: string -> HookCall)
    requires Authorized(user) && Configured(hookUrl)
    requires post(hookUrl.value).HookRejected?
    ensures var e := post(hookUrl.value).error;
            Get(ReplyBody(DeployFrontend(user, hookUrl, post).outcome), "details")
            == Str(if e.ErrorObject? then e.message else DefaultFailureMessage)
  {
  }

  /** An ok hook response with a JSON body yields the success message and the hook's reply. */
  lemma OkHookTriggers(user: Option<User>, hookUrl: Option<string>, post: string -> HookCall)
    requires Authorized(user) && Configured(hookUrl)
    requires post(hookUrl.value).HookResponded? && OkStatus(post(hookUrl.value).status)
    requires post(hookUrl.value).body.Json?
    ensures ReplyBody(DeployFrontend(user, hookUrl, post).outcome)
            == Obj(map["message" := Str(TriggeredMessage),
                       "vercelResponse" := post(hookUrl.value).body.value])
  {
  }
}
