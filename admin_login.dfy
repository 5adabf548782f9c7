/** The admin login form (app/admin-login/page.ts). Submitting it marks the
    form as loading and clears the error, then signs in, checks that the
    user's profile role is 'admin', and either navigates to the admin panel
    or shows an error (signing a non-admin back out). */
module AdminLogin {
  import opened Common

  const InvalidCredentials := "Credenciales inválidas"
  const AuthFailed := "Error de autenticación"
  const AccessDenied := "Acceso denegado. Solo administradores pueden ingresar."
  const InternalError := "Error interno del sistema"
  const AdminPanelPath := "/admin"
  const Verifying := "Verificando..."
  const SubmitCaption := "Ingresar como Administrador"

  /** The calls into the provider and the router, in the order they are made. */
  datatype Effect = SignIn(email: string, password: string) | QueryRole(userId: string) | SignOut | Push(path: string) | Refresh

  /** What `signInWithPassword` resolves to: whether it reported an error, and the user. */
  datatype SignInReply = SignInReply(authError: bool, user: Option<User>)

  /** What the role query resolves to: whether it reported an error, and the row. */
  datatype RoleReply = RoleReply(queryError: bool, profile: Option<Profile>)

  /** How a submission ends: the error it sets (if any), whether it resets
      `loading`, and the calls it makes. */
  datatype Finish = Finish(error: Option<string>, stopsLoading: bool, effects: seq<Effect>)

  /** The outcome of the part of the handler after `setLoading(true)` and
      `setError('')`, given what each awaited call does. */
  function LoginFinish(email: string, password: string, signIn: Call<SignInReply>,
                       role: Call<RoleReply>, signOut: Call<()>): (f: Finish)
    ensures |f.effects| >= 1 && f.effects[0] == SignIn(email, password)
    ensures f.stopsLoading <==> f.error.Some?
  {
    var e0 := [SignIn(email, password)];
    match signIn
    case Threw(_) => Finish(Some(InternalError), true, e0)
    case Returned(a) =>
      if a.authError then Finish(Some(InvalidCredentials), true, e0)
      else if a.user.None? then Finish(Some(AuthFailed), true, e0)
      else
        var e1 := e0 + [QueryRole(a.user.value.id)];
        match role
        case Threw(_) => Finish(Some(InternalError), true, e1)
        case Returned(p) =>
          if p.queryError || p.profile.None? || p.profile.value.role != Some("admin") then
            var e2 := e1 + [SignOut];
            if signOut.Threw? then Finish(Some(InternalError), true, e2)
            else Finish(Some(AccessDenied), true, e2)
          else Finish(None, false, e1 + [Push(AdminPanelPath), Refresh])
  }

  /** The sign-in succeeded for a user whose profile role is exactly 'admin'. */
  predicate AdminSignIn(signIn: Call<SignInReply>, role: Call<RoleReply>) {
    && signIn.Returned? && !signIn.value.authError && signIn.value.user.Some?
    && role.Returned? && !role.value.queryError && role.value.profile == Some(Profile(Some("admin")))
  }

  /** An auth error shows 'Credenciales inválidas' and stops loading; no role
      query and no navigation follow. */
  lemma AuthErrorStops(email: string, password: string, u: Option<User>, role: Call<RoleReply>, signOut: Call<()>)
    ensures LoginFinish(email, password, Returned(SignInReply(true, u)), role, signOut)
      == Finish(Some(InvalidCredentials), true, [SignIn(email, password)])
  {
  }

  /** The catch: 'Error interno del sistema' is shown, and loading stops,
      exactly when the sign-in, the role query or the sign-out threw. */
  lemma {:induction false} ThrowShowsInternalError(email: string, password: string, signIn: Call<SignInReply>,
                                                  role: Call<RoleReply>, signOut: Call<()>)
    ensures var f := LoginFinish(email, password, signIn, role, signOut);
      f.error == Some(InternalError) <==>
        || signIn.Threw?
        || (&& signIn.Returned? && !signIn.value.authError && signIn.value.user.Some?
            && (role.Threw? || (role.Returned? && !AdminSignIn(signIn, role) && signOut.Threw?)))
    ensures var f := LoginFinish(email, password, signIn, role, signOut);
      f.error == Some(InternalError) ==> f.stopsLoading
  {
  }

  /** No user returned: 'Error de autenticación', and loading stops. */
  lemma NoUserStops(email: string, password: string, role: Call<RoleReply>, signOut: Call<()>)
    ensures LoginFinish(email, password, Returned(SignInReply(false, None)), role, signOut)
      == Finish(Some(AuthFailed), true, [SignIn(email, password)])
  {
  }

  /** The form navigates to the admin panel (and refreshes) exactly for an
      admin, and only then leaves `loading` set; every other outcome shows an
      error and resets `loading`. */
  lemma {:induction false} NavigatesOnlyAdmins(email: string, password: string, signIn: Call<SignInReply>,
                                              role: Call<RoleReply>, signOut: Call<()>)
    ensures var f := LoginFinish(email, password, signIn, role, signOut);
      && (Push(AdminPanelPath) in f.effects <==> AdminSignIn(signIn, role))
      && (!f.stopsLoading <==> AdminSignIn(signIn, role))
      && (AdminSignIn(signIn, role) ==> f.effects[|f.effects| - 2..] == [Push(AdminPanelPath), Refresh])
  {
    var f := LoginFinish(email, password, signIn, role, signOut);
    if !AdminSignIn(signIn, role) {
      assert forall k :: 0 <= k < |f.effects| ==> !f.effects[k].Push?;
    }
  }

  /** A signed-in user whose role query failed, who has no profile, or whose
      role is not 'admin' is signed out; nobody else is. */
  lemma {:induction false} SignsOutNonAdmins(email: string, password: string, signIn: Call<SignInReply>,
                                            role: Call<RoleReply>, signOut: Call<()>)
    ensures var f := LoginFinish(email, password, signIn, role, signOut);
      SignOut in f.effects <==>
        && signIn.Returned? && !signIn.value.authError && signIn.value.user.Some?
        && role.Returned? && !AdminSignIn(signIn, role)
    ensures var f := LoginFinish(email, password, signIn, role, signOut);
      SignOut in f.effects && signOut.Returned? ==> f.error == Some(AccessDenied)
  {
    var f := LoginFinish(email, password, signIn, role, signOut);
    if !(signIn.Returned? && !signIn.value.authError && signIn.value.user.Some? && role.Returned? && !AdminSignIn(signIn, role)) {
      assert forall k :: 0 <= k < |f.effects| ==> !f.effects[k].SignOut?;
    }
  }

  /** The form's state. */
  class AdminLoginForm {
    var email: string
    var password: string
    var loading: bool
    var error: string
    /** The calls the form has made so far. */
    var effects: seq<Effect>

    constructor ()
      ensures email == "" && password == "" && !loading && error == "" && effects == []
    {
      email, password, loading, error, effects := "", "", false, "", [];
    }

    /** The submit button: disabled, and showing the progress caption, exactly
        while a submission is loading. */
    method SubmitButton() returns (disabled: bool, caption: string)
      ensures disabled <==> loading
      ensures caption == (if loading then Verifying else SubmitCaption)
      ensures disabled <==> caption == Verifying
    {
      disabled := loading;
      caption := if loading then Verifying else SubmitCaption;
    }

    method EditEmail(value: string)
      modifies this
      ensures email == value
      ensures password == old(password) && loading == old(loading) && error == old(error) && effects == old(effects)
    {
      email := value;
    }

    method EditPassword(value: string)
      modifies this
      ensures password == value
      ensures email == old(email) && loading == old(loading) && error == old(error) && effects == old(effects)
    {
      password := value;
    }

    /** The synchronous start of `handleAdminLogin`, before any call. */
    method BeginSubmit()
      modifies this
      ensures loading && error == ""
      ensures email == old(email) && password == old(password) && effects == old(effects)
    {
      loading := true;
      error := "";
    }

    /** The rest of `handleAdminLogin`, one awaited call at a time. */
    method FinishSubmit(signIn: Call<SignInReply>, role: Call<RoleReply>, signOut: Call<()>)
      modifies this
      ensures var f := LoginFinish(old(email), old(password), signIn, role, signOut);
        && effects == old(effects) + f.effects
        && error == (if f.error.Some? then f.error.value else old(error))
        && loading == (if f.stopsLoading then false else old(loading))
      ensures email == old(email) && password == old(password)
    {
      effects := effects + [SignIn(email, password)];
      if signIn.Threw? {
        error, loading := InternalError, false;
        return;
      }
      var auth := signIn.value;
      if auth.authError {
        error, loading := InvalidCredentials, false;
        return;
      }
      if auth.user.None? {
        error, loading := AuthFailed, false;
        return;
      }
      effects := effects + [QueryRole(auth.user.value.id)];
      if role.Threw? {
        error, loading := InternalError, false;
        return;
      }
      var reply := role.value;
      if reply.queryError || reply.profile.None? || reply.profile.value.role != Some("admin") {
        effects := effects + [SignOut];
        if signOut.Threw? {
          error, loading := InternalError, false;
          return;
        }
        error, loading := AccessDenied, false;
        return;
      }
      effects := effects + [Push(AdminPanelPath), Refresh];
    }

    /** A whole submission: the form ends loading exactly when it navigated,
      and otherwise shows the outcome's error. */
    method HandleAdminLogin(signIn: Call<SignInReply>, role: Call<RoleReply>, signOut: Call<()>)
      modifies this
      ensures var f := LoginFinish(old(email), old(password), signIn, role, signOut);
        && effects == old(effects) + f.effects
        && error == f.error.GetOr("")
        && loading == !f.stopsLoading
        && (loading <==> AdminSignIn(signIn, role))
      ensures email == old(email) && password == old(password)
    {
      BeginSubmit();
      FinishSubmit(signIn, role, signOut);
      NavigatesOnlyAdmins(old(email), old(password), signIn, role, signOut);
    }
  }
}
