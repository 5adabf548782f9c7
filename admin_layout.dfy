/** The admin area layout (app/admin/layout.tsx): only a user whose profile
    role is exactly 'admin' sees the admin area; everyone else is sent to the
    admin login page. The sidebar shows the user's initial. */
module AdminLayout {
  import opened Common

  const AdminLoginPath := "/admin-login"

  /** The layout's guard. `profile` is what the role query returns for the user. */
  function Guard(user: Option<User>, profile: Option<Profile>): (a: Access)
    ensures a == Allow <==> user.Some? && profile.Some? && profile.value.role == Some("admin")
    ensures a != Allow ==> a == Redirect(AdminLoginPath)
  {
    if user.None? then Redirect(AdminLoginPath)
    else if profile.None? || profile.value.role != Some("admin") then Redirect(AdminLoginPath)
    else Allow
  }

  /** Unlike the dashboard page and the auth callback, this layout turns a manager away. */
  lemma ManagerTurnedAway(user: Option<User>)
    ensures Guard(user, Some(Profile(Some("manager")))) == Redirect(AdminLoginPath)
  {
  }

  /** JavaScript's `toUpperCase` on one character, for the ASCII letters. */
  function UpperChar(c: char): (u: char)
    ensures 'a' <= c <= 'z' ==> 'A' <= u <= 'Z' && u as int == c as int - 32
    ensures !('a' <= c <= 'z') ==> u == c
  {
    if 'a' <= c <= 'z' then (c as int - 32) as char else c
  }

  /** `user.email?.charAt(0).toUpperCase()`: absent without an email, empty for
      an empty email, otherwise the first character upper-cased. */
  function AvatarInitial(email: Option<string>): (r: Option<string>)
    ensures email.None? <==> r.None?
    ensures r.Some? ==> |r.value| <= 1 && (r.value == "" <==> email.value == "")
    ensures r.Some? && email.value != "" ==> r.value == [UpperChar(email.value[0])]
    ensures r.Some? ==> forall c :: c in r.value ==> !('a' <= c <= 'z')
  {
    match email
    case None => None
    case Some(e) => if e == "" then Some("") else Some([UpperChar(e[0])])
  }
}
