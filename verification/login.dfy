/**
 * The login form's submit handler: it clears the message, asks the
 * authentication service to sign in, and then either announces success and
 * sends the user to the landing page of their role, or shows the failure.
 */
module LoginAdmin {
  import opened Common
  import opened PrivateRoute
  import opened AppRouter

  /** What the authentication service answered. */
  datatype LoginOutcome = LoggedIn(user: SessionUser) | Rejected(errorMessage: Option<string>)

  /** A message shown under the form and its kind ("", "success" or "error"). */
  datatype Notice = Notice(message: string, kind: string)

  /** The observable effects of one submit: the notices published in order, and where it navigates. */
  datatype SubmitEffects = SubmitEffects(notices: seq<Notice>, navigateTo: Option<string>)

  const SUCCESS_TEXT := "Login correcto. Redirigiendo..."
  const FAILURE_PREFIX := "✗ "
  const DEFAULT_FAILURE := "Credenciales inválidas"

  /** Where a signed-in user is sent, by role. */
  function LandingPath(role: string): (p: string)
    ensures role == "admin" ==> p == "/admin/dashboard"
    ensures role == "logistica" ==> p == "/logistica/dashboard"
    ensures role != "admin" && role != "logistica" ==> p == "/"
  {
    if role == "admin" then "/admin/dashboard"
    else if role == "logistica" then "/logistica/dashboard"
    else "/"
  }

  /** The failure message: the mark, then the error's own message, or a default when it has none. */
  function FailureText(errorMessage: Option<string>): (m: string)
    ensures |m| > |FAILURE_PREFIX| && m[..|FAILURE_PREFIX|] == FAILURE_PREFIX
    ensures errorMessage.Some? && errorMessage.value != "" ==> m[|FAILURE_PREFIX|..] == errorMessage.value
    ensures errorMessage.None? || errorMessage.value == "" ==> m[|FAILURE_PREFIX|..] == DEFAULT_FAILURE
  {
    FAILURE_PREFIX + OrDefault(errorMessage, DEFAULT_FAILURE)
  }

  function Submit(outcome: LoginOutcome): (e: SubmitEffects)
    ensures |e.notices| == 2 && e.notices[0] == Notice("", "")
    ensures outcome.LoggedIn? ==> e.notices[1] == Notice(SUCCESS_TEXT, "success")
    ensures outcome.LoggedIn? ==> e.navigateTo == Some(LandingPath(outcome.user.role))
    ensures outcome.Rejected? ==> e.notices[1] == Notice(FailureText(outcome.errorMessage), "error")
    ensures outcome.Rejected? <==> e.navigateTo.None?
  {
    var cleared := Notice("", "");
    match outcome
    case LoggedIn(user) => SubmitEffects([cleared, Notice(SUCCESS_TEXT, "success")], Some(LandingPath(user.role)))
    case Rejected(err) => SubmitEffects([cleared, Notice(FailureText(err), "error")], None)
  }

  /**
   * The landing page agrees with the route table: an "admin" lands on
   * `/admin/dashboard` (segments ["admin", "dashboard"]) and the guard lets
   * them in; a "logistica" user likewise under `/logistica`; any other role
   * lands on `/`, which the table sends back to the login page.
   */
  lemma LandingAgreesWithRouter(user: SessionUser)
    ensures user.role == "admin" ==>
      LandingPath(user.role) == "/admin/dashboard" && Navigate(["admin", "dashboard"], false, Some(user)) == Shows(AdminArea)
    ensures user.role == "logistica" ==>
      LandingPath(user.role) == "/logistica/dashboard" && Navigate(["logistica", "dashboard"], false, Some(user)) == Shows(LogisticaArea)
    ensures user.role != "admin" && user.role != "logistica" ==>
      LandingPath(user.role) == "/" && Navigate([], false, Some(user)) == RedirectTo(LOGIN_PATH)
  {
  }
}
