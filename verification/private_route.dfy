/**
 * The route guard every protected part of the console sits behind: while the
 * session is being restored it shows a loading indicator; without a user, or
 * with a user whose role is not allowed, it redirects to the login page;
 * otherwise it renders the nested routes.
 */
module PrivateRoute {
  import opened Common

  /** The signed-in user as the session holds it. */
  datatype SessionUser = SessionUser(id: Id, role: string)

  /** What the guard renders. */
  datatype Guard = ShowLoading | Redirect(to: string) | RenderNested

  const LOGIN_PATH := "/login"

  function Decide(loading: bool, user: Option<SessionUser>, allowedRoles: seq<string>): (g: Guard)
    ensures g == ShowLoading <==> loading
    ensures g == Redirect(LOGIN_PATH) <==> !loading && (user.None? || user.value.role !in allowedRoles)
    ensures g == RenderNested <==> !loading && user.Some? && user.value.role in allowedRoles
    ensures g.Redirect? ==> g.to == LOGIN_PATH
  {
    if loading then ShowLoading
    else if user.None? then Redirect(LOGIN_PATH)
    else if user.value.role in allowedRoles then RenderNested
    else Redirect(LOGIN_PATH)
  }

  /**
   * The decision depends only on the loading flag, on whether there is a user
   * and on whether that user's role is allowed: neither the user's id nor the
   * order or content of the allowed list beyond that membership matters.
   */
  lemma DecideDependsOnlyOnMembership(
    loading: bool, u1: Option<SessionUser>, roles1: seq<string>,
    u2: Option<SessionUser>, roles2: seq<string>)
    requires u1.Some? == u2.Some?
    requires u1.Some? ==> (u1.value.role in roles1 <==> u2.value.role in roles2)
    ensures Decide(loading, u1, roles1) == Decide(loading, u2, roles2)
  {
  }

  /** Allowing more roles never turns a rendered page into a redirect. */
  lemma DecideMonotone(loading: bool, user: Option<SessionUser>, roles: seq<string>, more: seq<string>)
    requires forall r :: r in roles ==> r in more
    requires Decide(loading, user, roles) == RenderNested
    ensures Decide(loading, user, more) == RenderNested
  {
  }
}
