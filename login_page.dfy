/**
 * frontend/src/auth/Login.jsx: the sign-in form, where to go afterwards and
 * the submit handler.
 */
module LoginPage {
  import opened Wrappers
  import opened JsonValue
  import opened WebApi
  import opened AuthContext
  import opened PrivateRoute

  const DefaultTarget := "/app"

  /** A call of `navigate(to, { replace })`. */
  datatype Navigation = Navigate(to: string, replace: bool)

  /**
   * `location.state?.from?.pathname || "/app"` (line 12). `state` is the
   * `from` location the gate put there, if the page was reached through it.
   */
  function Target(state: Option<Location>): (to: string)
    ensures state.Some? && state.value.pathname != [] ==> to == state.value.pathname
    ensures state.None? || state.value.pathname == [] ==> to == DefaultTarget
  {
    if state.Some? && state.value.pathname != [] then state.value.pathname else DefaultTarget
  }

  /**
   * The gate and the page agree: after a redirect to the login page, the
   * target is the path that was refused (its query and fragment are dropped).
   */
  lemma RedirectRoundTrip(user: Json, here: Location)
    requires !JsTruthy(user) && here.pathname != []
    ensures Guard(false, user, here).Redirect?
    ensures Guard(false, user, here).to == LoginPath
    ensures Target(Some(Guard(false, user, here).from)) == here.pathname
  {
  }

  /** The page's `form` state and its redirect target, fixed when it renders. */
  class Login {
    var email: string
    var password: string
    const from: string

    constructor (state: Option<Location>)
      ensures email == "" && password == "" && from == Target(state)
    {
      email := "";
      password := "";
      from := Target(state);
    }

    /** The email input's onChange (line 68). */
    method SetEmail(value: string)
      modifies this
      ensures email == value && password == old(password)
    {
      email := value;
    }

    /** The password input's onChange (line 83). */
    method SetPassword(value: string)
      modifies this
      ensures password == value && email == old(email)
    {
      password := value;
    }

    /**
     * `handleSubmit` as written (lines 14-25): an empty field stops it before
     * `login`; otherwise `login` runs, but since it resolves to undefined the
     * page never navigates.
     */
    method HandleSubmit(auth: AuthProvider, o: Outcome) returns (called: bool, nav: Option<Navigation>)
      modifies auth
      ensures called <==> email != "" && password != ""
      ensures !called ==> unchanged(auth)
      ensures called ==> auth.State() == LoginResult(o) && !auth.actionLoading
      ensures nav == None
    {
      called := false;
      nav := None;
      if email == "" || password == "" {
        return;
      }
      called := true;
      var ok := auth.Login(o);
      if JsTruthy(ok) {
        nav := Some(Navigate(from, true));
      }
    }

    /** `handleSubmit` with a `login` that reports success: it navigates, with replace, exactly when login succeeded. */
    method HandleSubmitCorrected(auth: AuthProvider, o: Outcome) returns (called: bool, nav: Option<Navigation>)
      modifies auth
      ensures called <==> email != "" && password != ""
      ensures !called ==> unchanged(auth)
      ensures called ==> auth.State() == LoginResult(o) && !auth.actionLoading
      ensures nav.Some? <==> called && Succeeded(o)
      ensures nav.Some? ==> nav.value == Navigate(from, true)
    {
      called := false;
      nav := None;
      if email == "" || password == "" {
        return;
      }
      called := true;
      var ok := auth.LoginCorrected(o);
      if JsTruthy(ok) {
        nav := Some(Navigate(from, true));
      }
    }
  }
}
