/**
 * frontend/src/auth/PrivateRoute.jsx: the gate in front of the signed-in
 * pages, deciding from the store's `authLoading` and `user` alone.
 */
module PrivateRoute {
  import opened JsonValue
  import opened WebApi
  import opened AuthContext

  /** The router's `location`. */
  datatype Location = Location(pathname: string, search: string, hash: string)

  /** What the gate renders. */
  datatype View =
    | Spinner
    | Redirect(to: string, from: Location, replace: bool) // <Navigate to state={{ from }} replace />
    | Outlet

  const LoginPath := "/login"

  /** `PrivateRoute` (lines 8-19). */
  function Guard(authLoading: bool, user: Json, here: Location): (v: View)
    ensures v.Spinner? <==> authLoading
    ensures v.Outlet? <==> !authLoading && JsTruthy(user)
    ensures v.Redirect? <==> !authLoading && !JsTruthy(user)
    ensures v.Redirect? ==> v == Redirect(LoginPath, here, true)
  {
    if authLoading then Spinner
    else if !JsTruthy(user) then Redirect(LoginPath, here, true)
    else Outlet
  }

  /**
   * The decision depends on the user only through its truthiness: two users
   * that are both truthy (or both falsy) are gated alike.
   */
  lemma GuardDependsOnTruthiness(authLoading: bool, u1: Json, u2: Json, here: Location)
    requires JsTruthy(u1) <==> JsTruthy(u2)
    ensures Guard(authLoading, u1, here) == Guard(authLoading, u2, here)
  {
  }

  /**
   * The gate after each request of the store, once the startup check is
   * over: a login opens it exactly when it succeeds with a truthy user, a
   * failed login or registration closes it, and a failed logout leaves it
   * as it was.
   */
  lemma GateAfterRequests(before: Session, o: Outcome, here: Location)
    ensures Guard(false, LoginResult(o).user, here).Outlet? <==> Succeeded(o) && JsTruthy(Read(o, "data"))
    ensures !Succeeded(o) ==> Guard(false, RegisterResult(o).user, here) == Redirect(LoginPath, here, true)
    ensures Succeeded(o) ==> Guard(false, LogoutResult(before, o).user, here) == Redirect(LoginPath, here, true)
    ensures !Succeeded(o) ==> Guard(false, LogoutResult(before, o).user, here) == Guard(false, before.user, here)
  {
  }
}
