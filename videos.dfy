/** The `videos` collection's access functions: read for everyone, writes for admins. */
module Videos {
  import opened Wrappers
  import opened Auth
  import Music

  /** `read: () => true`. */
  function CanRead(user: Option<User>): (r: bool)
    ensures r
  {
    true
  }

  function CanCreate(user: Option<User>): (r: bool)
    ensures user.None? ==> !r
    ensures r <==> RoleIsAdmin(user)
  {
    if PresentAdmin(user) then true else false
  }

  function CanUpdate(user: Option<User>): (r: bool)
    ensures user.None? ==> !r
    ensures r <==> RoleIsAdmin(user)
  {
    if PresentAdmin(user) then true else false
  }

  function CanDelete(user: Option<User>): (r: bool)
    ensures user.None? ==> !r
    ensures r <==> RoleIsAdmin(user)
  {
    if PresentAdmin(user) then true else false
  }

  /** Videos and music grant exactly the same rights to every requester. */
  lemma SameRightsAsMusic(user: Option<User>)
    ensures CanRead(user) == Music.CanRead(user)
    ensures CanCreate(user) == Music.CanCreate(user)
    ensures CanUpdate(user) == Music.CanUpdate(user)
    ensures CanDelete(user) == Music.CanDelete(user)
  {
  }
}
