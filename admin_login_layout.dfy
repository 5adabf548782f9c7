/** The layout of the admin login route (app/admin-login/layout.ts). It
    applies the same admin-only check as the admin area, and sends every
    denied visitor to '/admin-login', the route this layout itself wraps. */
module AdminLoginLayout {
  import opened Common
  import AdminLayout

  const AdminLoginPath := AdminLayout.AdminLoginPath

  /** Every denial, for whatever reason, targets the one login path. */
  lemma SingleDenialTarget(user: Option<User>, profile: Option<Profile>)
    ensures AdminLayout.Guard(user, profile).Redirect? ==> AdminLayout.Guard(user, profile).target == AdminLoginPath
  {
  }

  /** The layout as written, at the route it wraps: the requested path plays
      no part in the decision. */
  function AsWrittenAt(path: string, user: Option<User>, profile: Option<Profile>): Access {
    AdminLayout.Guard(user, profile)
  }

  /** As written, the layout serves the login route and redirects a visitor
      without a session back to that same route: the login form can only be
      reached by someone who is already an admin. */
  lemma {:induction false} SelfRedirect(user: Option<User>, profile: Option<Profile>)
    ensures AsWrittenAt(AdminLoginPath, None, profile) == Redirect(AdminLoginPath)
    ensures AsWrittenAt(AdminLoginPath, user, profile) != Allow ==>
      AsWrittenAt(AdminLoginPath, user, profile) == Redirect(AdminLoginPath)
    ensures AsWrittenAt(AdminLoginPath, user, profile) == Allow ==> profile == Some(Profile(Some("admin")))
  {
  }

  /** The guard with its own route exempted: the login page is shown to
      anyone, and any other route under this layout keeps the admin-only rule
      as written. */
  function GuardAt(path: string, user: Option<User>, profile: Option<Profile>): (a: Access)
    ensures path == AdminLoginPath ==> a == Allow
    ensures path != AdminLoginPath ==> a == AsWrittenAt(path, user, profile)
    ensures a != Redirect(path)
  {
    if path == AdminLoginPath then Allow else AdminLayout.Guard(user, profile)
  }
}
