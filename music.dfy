/**
 * The `music` collection: the `thumbnailUrl` validator and visibility
 * condition, and the access functions (read for everyone, writes for admins).
 */
module Music {
  import opened Wrappers
  import Js
  import opened Auth

  datatype ValidationResult = Valid | Invalid(message: string)

  const ThumbnailRequired := "Custom thumbnail Url is required when the override is enabled."

  /**
   * `overrideThumbnailUrlValidator(value, { data })`: `value` is the field's
   * value and `useThumbnailUrl` is `data.useThumbnailUrl`, both as JavaScript
   * values (either may be `undefined`).
   */
  function OverrideThumbnailUrlValidator(value: Js.Value, useThumbnailUrl: Js.Value): (r: ValidationResult)
    ensures r.Invalid? ==> r.message == ThumbnailRequired
    ensures useThumbnailUrl == Js.Bool(true) && !Js.Truthy(value) ==> r.Invalid?
    ensures useThumbnailUrl == Js.Bool(true) && value.Str? && value.s != "" ==> r == Valid
    ensures useThumbnailUrl != Js.Bool(true) ==> r == Valid
  {
    if useThumbnailUrl == Js.Bool(true) && !Js.Truthy(value) then Invalid(ThumbnailRequired) else Valid
  }

  /** The admin `condition` of `thumbnailUrl`: shown only when the override is exactly `true`. */
  predicate ThumbnailUrlShown(useThumbnailUrl: Js.Value): (r: bool)
    ensures r ==> Js.Truthy(useThumbnailUrl)
    ensures r <==> useThumbnailUrl.Bool? && useThumbnailUrl.b
  {
    useThumbnailUrl == Js.Bool(true)
  }

  /** A hidden `thumbnailUrl` never blocks a save, and a shown empty one always does. */
  lemma ValidatorFollowsVisibility(value: Js.Value, useThumbnailUrl: Js.Value)
    ensures !ThumbnailUrlShown(useThumbnailUrl) ==> OverrideThumbnailUrlValidator(value, useThumbnailUrl) == Valid
    ensures ThumbnailUrlShown(useThumbnailUrl) ==>
              (OverrideThumbnailUrlValidator(value, useThumbnailUrl).Invalid? <==> !Js.Truthy(value))
  {
  }

  /** `read: () => true`. */
  function CanRead(user: Option<User>): (r: bool)
    ensures r
  {
    true
  }

  function CanCreate(user: Option<User>): (r: bool)
    ensures user.None? ==> !r
    ensures r <==> RoleIsAdmin(user)
  {
    if PresentAdmin(user) then true else false
  }

  function CanUpdate(user: Option<User>): (r: bool)
    ensures user.None? ==> !r
    ensures r <==> RoleIsAdmin(user)
  {
    if PresentAdmin(user) then true else false
  }

  function CanDelete(user: Option<User>): (r: bool)
    ensures user.None? ==> !r
    ensures r <==> RoleIsAdmin(user)
  {
    if PresentAdmin(user) then true else false
  }

  /** The three write rules grant exactly the same requesters: who may create may update and delete. */
  lemma WriteRulesAgree(user: Option<User>)
    ensures CanCreate(user) == CanUpdate(user) == CanDelete(user)
  {
  }
}
