/**
 * The deploy button and the `/deploy-frontend` handler composed: the
 * handler's reply, serialised as JSON, is what the button's `fetch` receives.
 */
module DeployFlow {
  import opened Wrappers
  import opened Js
  import opened Auth
  import opened PayloadConfig
  import opened DeployButton

  /** The reply as the browser sees it (the bodies built here survive JSON unchanged). */
  function Delivered(reply: Reply): ClientFetch {
    ClientResponse(reply.status, Json(reply.body))
  }

  /**
   * As written, every outcome of the handler, the refusals and the failed
   * POST included, makes the button report "🚀 Deployment started.".
   */
  lemma ServerErrorsShowAsStarted(user: Option<User>, hookUrl: Option<string>, post: string -> HookCall)
    ensures ClickBanner(Delivered(ReplyOf(DeployFrontend(user, hookUrl, post).outcome)))
            == Some(Banner(StartedMessage, false))
  {
  }

  /** The concrete case: an anonymous click is answered as if the deployment had started. */
  lemma AnonymousClickShowsStarted(hookUrl: Option<string>, post: string -> HookCall)
    ensures DeployFrontend(None, hookUrl, post).outcome == NotAuthorized
    ensures DeployFrontend(None, hookUrl, post).posted == []
    ensures ClickBanner(Delivered(ReplyOf(NotAuthorized))) == Some(Banner(StartedMessage, false))
  {
  }

  /**
   * With error statuses on the error replies, the button reports an error
   * exactly when the handler did not trigger a deployment, and shows the
   * server's text for the two refusals.  A POST that failed with an `Error`
   * shows "Error: [object Object]", because the reply's `error` is that
   * `Error` serialised.
   */
  lemma IntendedRepliesSurfaceErrors(user: Option<User>, hookUrl: Option<string>, post: string -> HookCall)
    ensures var o := DeployFrontend(user, hookUrl, post).outcome;
            var b := ClickBanner(Delivered(ReplyIntended(o)));
            && b.Some?
            && (b.value.isError <==> !o.Triggered?)
            && (o.NotAuthorized? ==> b.value.message == ErrorPrefix + UnauthorizedMessage)
            && (o.NotConfigured? ==> b.value.message == ErrorPrefix + NotConfiguredMessage)
            && (o.Failed? && o.error.ErrorObject? ==> b.value.message == ErrorPrefix + "[object Object]")
  {
    var o := DeployFrontend(user, hookUrl, post).outcome;
    var body := ReplyBody(o);
    match o {
      case NotAuthorized =>
        assert Get(body, "error") == Str(UnauthorizedMessage);
      case NotConfigured =>
        assert Get(body, "error") == Str(NotConfiguredMessage);
      case Triggered(_) =>
      case Failed(e) =>
        var errJson := ThrownJson(e);
        assert Get(body, "error") == errJson;
        if e.ErrorObject? {
          assert ToJsString(errJson) == "[object Object]";
        } else {
          assert !OkStatus(ReplyIntended(o).status);
        }
    }
  }
}
