/**
 * The requesting user as the access functions of the collections see it
 * (`req.user`), and the two ways the code spells "the requester is an admin".
 */
module Auth {
  import opened Wrappers

  /** A logged-in user: the auth collection it was loaded from and its `role`. */
  datatype User = User(collection: string, role: string)

  /** The `ROLES` constants of the users collection. */
  const Admin := "admin"
  const RegularUser := "user"

  /** `user?.role`: `undefined` (None) without a user. */
  function RoleOf(user: Option<User>): Option<string> {
    match user
    case None => None
    case Some(u) => Some(u.role)
  }

  /** `user && user.role === 'admin'`, the spelling of the music and videos collections. */
  predicate PresentAdmin(user: Option<User>) {
    user.Some? && user.value.role == Admin
  }

  /** `user?.role === 'admin'`, the spelling of the users collection and its `role` field. */
  predicate RoleIsAdmin(user: Option<User>) {
    RoleOf(user) == Some(Admin)
  }
}
