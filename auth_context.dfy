/**
 * frontend/src/auth/AuthContext.jsx: the `AuthProvider` session store. Its
 * four state variables become fields; each API call is given as the
 * `Outcome` it settled with.
 */
module AuthContext {
  import opened JsonValue
  import opened WebApi

  const LoginFailed := "Login failed"
  const LoginNetworkError := "Network error during login"
  const RegistrationFailed := "Registration failed"
  const RegistrationNetworkError := "Network error during registration"
  const LogoutFailed := "Logout failed"
  const LogoutNetworkError := "Network error during logout"

  /** The part of the store the requests decide: the signed-in user and the error shown. */
  datatype Session = Session(user: Json, authError: Json)

  /** The message a failed request leaves: the server's message, else the fallback; a throw gives the network text. */
  function FailureText(o: Outcome, fallback: string, network: string): Json
    requires !Succeeded(o)
  {
    if Readable(o) then Or(Read(o, "message"), fallback) else JStr(network)
  }

  /** `user` after the startup check (lines 26-33): the data on success, null otherwise or on a throw. */
  function StartupUser(o: Outcome): Json {
    if Succeeded(o) then Read(o, "data") else JNull
  }

  /** The session after `login` settles (lines 49-58). */
  function LoginResult(o: Outcome): (s: Session)
    ensures Succeeded(o) ==> s == Session(Read(o, "data"), JNull)
    ensures !Succeeded(o) ==> s.user == JNull && JsTruthy(s.authError)
    ensures !Readable(o) ==> s.authError == JStr(LoginNetworkError)
  {
    if Succeeded(o) then Session(Read(o, "data"), JNull)
    else Session(JNull, FailureText(o, LoginFailed, LoginNetworkError))
  }

  /** The session after `register` settles (lines 69-79), leaving aside the login it starts. */
  function RegisterResult(o: Outcome): (s: Session)
    ensures Succeeded(o) ==> s == Session(Read(o, "data"), JNull)
    ensures !Succeeded(o) ==> s.user == JNull && JsTruthy(s.authError)
    ensures !Readable(o) ==> s.authError == JStr(RegistrationNetworkError)
  {
    if Succeeded(o) then Session(Read(o, "data"), JNull)
    else Session(JNull, FailureText(o, RegistrationFailed, RegistrationNetworkError))
  }

  /** The session after `logout` settles (lines 90-98): a failed logout keeps the user. */
  function LogoutResult(before: Session, o: Outcome): (s: Session)
    ensures Succeeded(o) ==> s == Session(JNull, JNull)
    ensures !Succeeded(o) ==> s.user == before.user && JsTruthy(s.authError)
    ensures !Readable(o) ==> s.authError == JStr(LogoutNetworkError)
  {
    if Succeeded(o) then Session(JNull, JNull)
    else Session(before.user, FailureText(o, LogoutFailed, LogoutNetworkError))
  }

  /** A request leaves an error to show exactly when it did not succeed. */
  lemma ErrorIffFailed(before: Session, o: Outcome)
    ensures JsTruthy(LoginResult(o).authError) <==> !Succeeded(o)
    ensures JsTruthy(RegisterResult(o).authError) <==> !Succeeded(o)
    ensures JsTruthy(LogoutResult(before, o).authError) <==> !Succeeded(o)
  {
    if !Succeeded(o) && Readable(o) {
      OrTruthy(Read(o, "message"), LoginFailed);
      OrTruthy(Read(o, "message"), RegistrationFailed);
      OrTruthy(Read(o, "message"), LogoutFailed);
    }
  }

  class AuthProvider {
    var user: Json
    var authLoading: bool
    var actionLoading: bool
    var authError: Json
    /** The startup effect's `isMounted` flag; the effect's cleanup clears it. */
    var mounted: bool

    function State(): Session
      reads this
    {
      Session(user, authError)
    }

    /** The initial state (lines 12-15), with the startup effect mounted. */
    constructor ()
      ensures user == JNull && authLoading && !actionLoading && authError == JNull && mounted
    {
      user := JNull;
      authLoading := true;
      actionLoading := false;
      authError := JNull;
      mounted := true;
    }

    /** The startup effect's cleanup (lines 39-41). */
    method Unmount()
      modifies this
      ensures !mounted
      ensures user == old(user) && authLoading == old(authLoading)
      ensures actionLoading == old(actionLoading) && authError == old(authError)
    {
      mounted := false;
    }

    /**
     * The startup check settling (lines 22-36): once unmounted nothing
     * changes; otherwise the user is set and loading ends for good.
     */
    method SettleStartup(o: Outcome)
      modifies this
      ensures !old(mounted) ==> unchanged(this)
      ensures old(mounted) ==> user == StartupUser(o) && !authLoading
      ensures authError == old(authError) && actionLoading == old(actionLoading) && mounted == old(mounted)
      ensures authLoading ==> old(authLoading)
    {
      if !mounted {
        return;
      }
      if Succeeded(o) {
        user := Read(o, "data");
      } else {
        user := JNull;
      }
      authLoading := false;
    }

    /** The state updates of `login` (lines 46-61). */
    method SettleLogin(o: Outcome) returns (succeeded: bool)
      modifies this
      ensures succeeded == Succeeded(o)
      ensures State() == LoginResult(o)
      ensures !actionLoading
      ensures authLoading == old(authLoading) && mounted == old(mounted)
    {
      actionLoading := true;
      if Readable(o) {
        if JsTruthy(Read(o, "success")) {
          user := Read(o, "data");
          authError := JNull;
        } else {
          user := JNull;
          authError := Or(Read(o, "message"), LoginFailed);
        }
      } else {
        user := JNull;
        authError := JStr(LoginNetworkError);
      }
      actionLoading := false;
      succeeded := Succeeded(o);
    }

    /** `login` as written: it has no `return`, so its promise resolves to undefined whatever happened. */
    method Login(o: Outcome) returns (ok: Json)
      modifies this
      ensures !JsTruthy(ok)
      ensures State() == LoginResult(o)
      ensures !actionLoading
      ensures authLoading == old(authLoading) && mounted == old(mounted)
    {
      var _ := SettleLogin(o);
      ok := JNull;
    }

    /** `login` returning whether it succeeded, which its callers test. */
    method LoginCorrected(o: Outcome) returns (ok: Json)
      modifies this
      ensures JsTruthy(ok) <==> Succeeded(o)
      ensures State() == LoginResult(o)
      ensures !actionLoading
      ensures authLoading == old(authLoading) && mounted == old(mounted)
    {
      var succeeded := SettleLogin(o);
      ok := JBool(succeeded);
    }

    /**
     * The state updates of `register` (lines 66-82). On success it starts
     * `login` with the same email and password without awaiting it, sets the
     * registration's data and ends its `finally`; the login resumes only once
     * its own request settles with `loginOutcome`, so its updates come last.
     */
    method SettleRegister(o: Outcome, loginOutcome: Outcome) returns (succeeded: bool)
      modifies this
      ensures succeeded == Succeeded(o)
      ensures Succeeded(o) ==> State() == LoginResult(loginOutcome)
      ensures !Succeeded(o) ==> State() == RegisterResult(o)
      ensures !actionLoading
      ensures authLoading == old(authLoading) && mounted == old(mounted)
    {
      actionLoading := true;
      if Readable(o) {
        if JsTruthy(Read(o, "success")) {
          user := Read(o, "data");
          authError := JNull;
        } else {
          user := JNull;
          authError := Or(Read(o, "message"), RegistrationFailed);
        }
      } else {
        user := JNull;
        authError := JStr(RegistrationNetworkError);
      }
      actionLoading := false;
      succeeded := Succeeded(o);
      if succeeded {
        // The un-awaited `login` settles after `register` has returned.
        var _ := Login(loginOutcome);
      }
    }

    /** `register` as written: like `login`, its promise resolves to undefined. */
    method Register(o: Outcome, loginOutcome: Outcome) returns (ok: Json)
      modifies this
      ensures !JsTruthy(ok)
      ensures Succeeded(o) ==> State() == LoginResult(loginOutcome)
      ensures !Succeeded(o) ==> State() == RegisterResult(o)
      ensures !actionLoading
      ensures authLoading == old(authLoading) && mounted == old(mounted)
    {
      var _ := SettleRegister(o, loginOutcome);
      ok := JNull;
    }

    /** `register` returning whether it succeeded. */
    method RegisterCorrected(o: Outcome, loginOutcome: Outcome) returns (ok: Json)
      modifies this
      ensures JsTruthy(ok) <==> Succeeded(o)
      ensures Succeeded(o) ==> State() == LoginResult(loginOutcome)
      ensures !Succeeded(o) ==> State() == RegisterResult(o)
      ensures !actionLoading
      ensures authLoading == old(authLoading) && mounted == old(mounted)
    {
      var succeeded := SettleRegister(o, loginOutcome);
      ok := JBool(succeeded);
    }

    /** `logout` (lines 86-101). */
    method Logout(o: Outcome)
      modifies this
      ensures State() == LogoutResult(old(State()), o)
      ensures !actionLoading
      ensures authLoading == old(authLoading) && mounted == old(mounted)
    {
      actionLoading := true;
      if Readable(o) {
        if JsTruthy(Read(o, "success")) {
          user := JNull;
          authError := JNull;
        } else {
          authError := Or(Read(o, "message"), LogoutFailed);
        }
      } else {
        authError := JStr(LogoutNetworkError);
      }
      actionLoading := false;
    }
  }
}
