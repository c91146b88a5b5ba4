/**
 * The admin-panel deploy button: three state cells (`isDeploying`,
 * `message`, `isError`) that `handleClick` updates around one POST to
 * `/api/deploy-frontend`, and the render guards that read them.
 * The 10-second timer that clears the message afterwards is not modelled.
 */
module DeployButton {
  import opened Wrappers
  import opened Js

  /** What `await fetch(...)` and `await res.json()` give the click handler. */
  datatype ClientFetch =
    | ClientRejected(error: Thrown)
    | ClientResponse(status: nat, body: JsonBody)

  /** The `message` and `isError` cells after a click. */
  datatype Banner = Banner(message: string, isError: bool)

  const StartedMessage := "🚀 Deployment started."
  const FallbackError := "Something went wrong."
  const ErrorPrefix := "Error: "

  /** The TypeError a property read of `null` or `undefined` throws (V8's wording). */
  function ReadOfNothing(data: Value): string {
    "Cannot read properties of " + ToJsString(data) + " (reading 'error')"
  }

  /** What the try block throws, if anything. */
  function ClickThrows(res: ClientFetch): (t: Option<Thrown>)
    ensures t.None? <==> res.ClientResponse? && res.body.Json? && OkStatus(res.status)
  {
    match res
    case ClientRejected(e) => Some(e)
    case ClientResponse(status, body) =>
      match body
      case NotJson(e) => Some(e)
      case Json(data) =>
        if OkStatus(status) then None
        else if data.Null? || data.Undefined? then Some(ErrorObject(ReadOfNothing(data)))
        else Some(ErrorObject(ToJsString(Or(Get(data, "error"), Str(FallbackError)))))
  }

  /**
   * The banner `handleClick` leaves; `None` when the catch block ignores a
   * thrown value that is not an `Error`.
   */
  function ClickBanner(res: ClientFetch): (b: Option<Banner>)
    ensures res.ClientResponse? && OkStatus(res.status) && res.body.Json? ==>
              b == Some(Banner(StartedMessage, false))
    ensures res.ClientRejected? ==>
              b == (if res.error.ErrorObject? then Some(Banner(ErrorPrefix + res.error.message, true)) else None)
    ensures res.ClientResponse? && res.body.NotJson? ==>
              b == (if res.body.error.ErrorObject? then Some(Banner(ErrorPrefix + res.body.error.message, true))
                    else None)
    ensures res.ClientResponse? && !OkStatus(res.status) && res.body.Json? &&
            (res.body.value.Null? || res.body.value.Undefined?) ==>
              b == Some(Banner(ErrorPrefix + ReadOfNothing(res.body.value), true))
    ensures res.ClientResponse? && !OkStatus(res.status) && res.body.Json? &&
            !res.body.value.Null? && !res.body.value.Undefined? ==>
              var err := Get(res.body.value, "error");
              b.Some? && b.value.isError &&
              b.value.message == ErrorPrefix + (if Truthy(err) then ToJsString(err) else FallbackError)
    ensures b.Some? && b.value.isError ==> ErrorPrefix <= b.value.message
    ensures b.Some? && !b.value.isError ==> b.value.message == StartedMessage
  {
    match ClickThrows(res)
    case None => Some(Banner(StartedMessage, false))
    case Some(ErrorObject(m)) => Some(Banner(ErrorPrefix + m, true))
    case Some(NonError(_)) => None
  }

  /** What the component renders around the button. */
  datatype ButtonView = ButtonView(disabled: bool, caption: string, banner: Option<BannerView>)
  datatype BannerView = BannerView(text: string, colour: string)

  class DeployButtonState {
    var isDeploying: bool
    var message: string
    var isError: bool

    /** `useState(false)`, `useState('')`, `useState(false)`. */
    constructor ()
      ensures !isDeploying && message == "" && !isError
    {
      isDeploying, message, isError := false, "", false;
    }

    /** The first three statements of `handleClick`. */
    method StartClick()
      modifies this
      ensures isDeploying && message == "" && !isError
    {
      isDeploying := true;
      message := "";
      isError := false;
    }

    /** The rest of `handleClick`: the try, catch and finally blocks. */
    method SettleClick(res: ClientFetch)
      modifies this
      ensures !isDeploying
      ensures ClickBanner(res).Some? ==> message == ClickBanner(res).value.message
      ensures ClickBanner(res).Some? ==> isError == (ClickBanner(res).value.isError || old(isError))
      ensures ClickBanner(res).None? ==> message == old(message) && isError == old(isError)
    {
      var thrown := ClickThrows(res);
      match thrown {
        case None =>
          message := StartedMessage;
        case Some(e) =>
          if e.ErrorObject? {
            message := ErrorPrefix + e.message;
            isError := true;
          }
      }
      isDeploying := false;
    }

    /** `handleClick`, start to finish. */
    method HandleClick(res: ClientFetch)
      modifies this
      ensures !isDeploying
      ensures Banner(message, isError) == ClickBanner(res).GetOr(Banner("", false))
    {
      StartClick();
      SettleClick(res);
    }

    /** The render: nothing without a user, a disabled "Deploying..." button during a click. */
    function View(hasUser: bool): (v: Option<ButtonView>)
      reads this
      ensures v.None? <==> !hasUser
      ensures v.Some? ==> v.value.disabled == isDeploying
      ensures v.Some? ==> v.value.caption == (if isDeploying then "Deploying..." else "Deploy")
      ensures v.Some? ==> (v.value.banner.Some? <==> message != "")
      ensures v.Some? && v.value.banner.Some? ==>
                v.value.banner.value.text == message &&
                (v.value.banner.value.colour == "text-red-500" <==> isError)
    {
      if !hasUser then None
      else
        Some(ButtonView(isDeploying, if isDeploying then "Deploying..." else "Deploy",
                        if message != "" then
                          Some(BannerView(message, if isError then "text-red-500" else "text-green-500"))
                        else None))
    }

    /** While the request is in flight the button is disabled and no banner shows. */
    method StartClickDisablesButton()
      modifies this
      ensures View(true) == Some(ButtonView(true, "Deploying...", None))
    {
      StartClick();
    }
  }
}
