/** The post-authentication callback (app/auth/callback/route.ts): exchange
    the code for a session, read the user, read the role, and redirect to the
    admin panel for admins and managers, to the account page otherwise. */
module AuthCallback {
  import opened Common

  const SignInPath := "/signin"
  const AdminPanelPath := "/admin"
  const UserPanelPath := "/dashboard/account"

  /** The provider calls the handler makes, in order. */
  datatype Step = ExchangeCode(code: string) | GetUser | QueryRole(userId: string)

  /** The redirect answered (to `path` on the request's `origin`) and the calls made on the way. */
  datatype Outcome = Outcome(origin: string, path: string, steps: seq<Step>)

  /** The handler. `code` is the `code` query parameter; `exchangeFailed` is
      whether exchanging it would return an error; `user` and `me` are what
      the user and role queries return (query errors are only logged, so they
      show up here as an absent user or an absent row). */
  function Callback(origin: string, code: Option<string>, exchangeFailed: bool,
                    user: Option<User>, me: Option<Profile>): (o: Outcome)
    ensures o.origin == origin
    ensures o.path in {SignInPath, AdminPanelPath, UserPanelPath}
  {
    var exchange := if Truthy(code) then [ExchangeCode(code.value)] else [];
    if Truthy(code) && exchangeFailed then Outcome(origin, SignInPath, exchange)
    else if user.None? then Outcome(origin, SignInPath, exchange + [GetUser])
    else
      var role := if me.Some? then me.value.role.GetOr("user") else "user";
      var dest := if role == "admin" || role == "manager" then AdminPanelPath else UserPanelPath;
      Outcome(origin, dest, exchange + [GetUser, QueryRole(user.value.id)])
  }

  /** A failed code exchange redirects to sign-in before the user is looked up. */
  lemma ExchangeFailureStops(origin: string, code: string, user: Option<User>, me: Option<Profile>)
    requires code != ""
    ensures var o := Callback(origin, Some(code), true, user, me);
      o.path == SignInPath && o.steps == [ExchangeCode(code)]
  {
  }

  /** Without a user the redirect is to sign-in, whatever the role data, and no role is read. */
  lemma NoUserSignsIn(origin: string, code: Option<string>, exchangeFailed: bool, me: Option<Profile>)
    ensures var o := Callback(origin, code, exchangeFailed, None, me);
      o.path == SignInPath && forall s :: s in o.steps ==> !s.QueryRole?
  {
  }

  /** With a user (and no failed exchange) the destination is the admin panel
      exactly when the stored role is 'admin' or 'manager'; a missing row or
      a null role counts as 'user' and goes to the account page. */
  lemma DestinationByRole(origin: string, code: Option<string>, exchangeFailed: bool, u: User, me: Option<Profile>)
    requires !(Truthy(code) && exchangeFailed)
    ensures var o := Callback(origin, code, exchangeFailed, Some(u), me);
      && (o.path == AdminPanelPath <==> me.Some? && me.value.role in {Some("admin"), Some("manager")})
      && (o.path == UserPanelPath <==> !(me.Some? && me.value.role in {Some("admin"), Some("manager")}))
      && QueryRole(u.id) in o.steps
  {
  }

  /** A missing or empty code skips the exchange. */
  lemma NoCodeNoExchange(origin: string, code: Option<string>, exchangeFailed: bool, user: Option<User>, me: Option<Profile>)
    requires !Truthy(code)
    ensures Callback(origin, code, exchangeFailed, user, me) == Callback(origin, code, false, user, me)
    ensures forall s :: s in Callback(origin, code, exchangeFailed, user, me).steps ==> !s.ExchangeCode?
  {
  }
}
