/**
 * The `users` collection: admin-panel and delete access, the `role` field's
 * own access and visibility, and the auth cookie settings.  The `create`,
 * `read` and `update` rules use the `authenticated` helper, which is not
 * part of this model.
 */
module Users {
  import opened Wrappers
  import Js
  import opened Auth
  import Music

  /** `access.admin`: `user?.role === 'admin'`. */
  function CanAccessAdminPanel(user: Option<User>): (r: bool)
    ensures user.None? ==> !r
    ensures r <==> user.Some? && user.value.role == Admin
  {
    RoleIsAdmin(user)
  }

  /** `access.delete`: `user?.role === 'admin'`. */
  function CanDelete(user: Option<User>): (r: bool)
    ensures user.None? ==> !r
    ensures r <==> user.Some? && user.value.role == Admin
  {
    RoleIsAdmin(user)
  }

  /** The `role` field's `create` and `update` access: `req.user?.role === 'admin'`. */
  function CanSetRole(user: Option<User>): (r: bool)
    ensures user.None? ==> !r
    ensures r <==> user.Some? && user.value.role == Admin
  {
    RoleIsAdmin(user)
  }

  /** The `role` field's `read` access: `() => true`. */
  function CanReadRole(user: Option<User>): (r: bool)
    ensures r
  {
    true
  }

  /**
   * The `role` field's admin `condition`, `({ user }) => user.role === 'admin'`.
   * A field condition receives the document's data as its first argument, so
   * `user` is the document's own `user` property, not the requester.  A value
   * of `undefined` or `null` there makes `user.role` throw (`None`).
   */
  function RoleFieldShown(data: map<string, Js.Value>): (r: Option<bool>)
    ensures r.None? <==> Js.Get(Js.Obj(data), "user").Undefined? || Js.Get(Js.Obj(data), "user").Null?
    ensures r.Some? ==> (r.value <==> Js.Get(Js.Get(Js.Obj(data), "user"), "role") == Js.Str(Admin))
  {
    var user := Js.Get(Js.Obj(data), "user");
    if user.Undefined? || user.Null? then None
    else Some(Js.Get(user, "role") == Js.Str(Admin))
  }

  /**
   * The collection has no `user` field, so a document never carries one and
   * the condition throws for every viewer, admins included.
   */
  lemma RoleFieldConditionAlwaysThrows(data: map<string, Js.Value>)
    requires "user" !in data
    ensures RoleFieldShown(data).None?
  {
  }

  /**
   * The condition as evidently intended, reading the requester from the third
   * argument: `(_, __, { user }) => user?.role === 'admin'`.
   */
  function RoleFieldShownIntended(user: Option<User>): (r: bool)
    ensures user.None? ==> !r
    ensures r <==> user.Some? && user.value.role == Admin
  {
    RoleIsAdmin(user)
  }

  /** With the intended condition, the role field is shown exactly to those who may set it. */
  lemma RoleShownOnlyToThoseWhoMaySetIt(user: Option<User>)
    ensures RoleFieldShownIntended(user) <==> CanSetRole(user)
  {
  }

  /** The two spellings of the admin check agree with the music collection's. */
  lemma AdminChecksAgree(user: Option<User>)
    ensures CanAccessAdminPanel(user) == CanDelete(user) == CanSetRole(user) == Music.CanDelete(user)
  {
  }

  datatype CookieSettings = CookieSettings(secure: bool, sameSite: string)

  /** `auth.cookies`, from `process.env.NODE_ENV`. */
  function Cookies(nodeEnv: Option<string>): (c: CookieSettings)
    ensures c.secure <==> nodeEnv == Some("production")
    ensures c.sameSite == "None" || c.sameSite == "Lax"
    ensures c.sameSite == "None" <==> c.secure
  {
    var production := nodeEnv == Some("production");
    CookieSettings(production, if production then "None" else "Lax")
  }
}
