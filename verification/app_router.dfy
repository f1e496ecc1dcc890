/**
 * The top-level route table: the login page is open, every path under
 * `/admin` sits behind a guard that allows only the role "admin", every path
 * under `/logistica` behind one that allows only "logistica", and any other
 * path redirects to the login page.
 */
module AppRouter {
  import opened Common
  import opened PrivateRoute

  /** The three parts of the console a path can lead to. */
  datatype Area = LoginScreen | AdminArea | LogisticaArea

  /** One row of the route table. */
  datatype Entry = Open(area: Area) | Guarded(allowedRoles: seq<string>, area: Area) | CatchAll(to: string)

  /** What the browser ends up showing for a path. */
  datatype Screen = Shows(area: Area) | Loading | RedirectTo(to: string)

  /**
   * The table row a path selects. The path is given as its non-empty
   * segments, so `/admin/rutas` is `["admin", "rutas"]`.
   */
  function Match(path: seq<string>): (e: Entry)
    ensures e.Open? <==> path == ["login"]
    ensures e == Guarded(["admin"], AdminArea) <==> |path| >= 1 && path[0] == "admin"
    ensures e == Guarded(["logistica"], LogisticaArea) <==> |path| >= 1 && path[0] == "logistica"
    ensures e.CatchAll? ==> e.to == LOGIN_PATH
  {
    if path == ["login"] then Open(LoginScreen)
    else if |path| >= 1 && path[0] == "admin" then Guarded(["admin"], AdminArea)
    else if |path| >= 1 && path[0] == "logistica" then Guarded(["logistica"], LogisticaArea)
    else CatchAll(LOGIN_PATH)
  }

  function Navigate(path: seq<string>, loading: bool, user: Option<SessionUser>): (s: Screen)
    ensures s.RedirectTo? ==> s.to == LOGIN_PATH
  {
    match Match(path)
    case Open(area) => Shows(area)
    case CatchAll(to) => RedirectTo(to)
    case Guarded(roles, area) =>
      match Decide(loading, user, roles)
      case ShowLoading => Loading
      case Redirect(to) => RedirectTo(to)
      case RenderNested => Shows(area)
  }

  /** The login page is shown without any guard, whatever the session. */
  lemma LoginIsOpen(loading: bool, user: Option<SessionUser>)
    ensures Navigate(["login"], loading, user) == Shows(LoginScreen)
  {
  }

  /**
   * An admin page is shown exactly to a loaded session whose user has role
   * "admin"; a loaded session without a user, or with any other role, is
   * sent to the login page.
   */
  lemma AdminAreaOnlyForAdmin(path: seq<string>, loading: bool, user: Option<SessionUser>)
    requires |path| >= 1 && path[0] == "admin"
    ensures Navigate(path, loading, user) == Shows(AdminArea)
            <==> !loading && user.Some? && user.value.role == "admin"
    ensures loading ==> Navigate(path, loading, user) == Loading
    ensures !loading && (user.None? || user.value.role != "admin") ==> Navigate(path, loading, user) == RedirectTo(LOGIN_PATH)
  {
  }

  /**
   * A logistics page is shown exactly to a loaded session whose user has role
   * "logistica"; a loaded session without a user, or with any other role, is
   * sent to the login page.
   */
  lemma LogisticaAreaOnlyForLogistica(path: seq<string>, loading: bool, user: Option<SessionUser>)
    requires |path| >= 1 && path[0] == "logistica"
    ensures Navigate(path, loading, user) == Shows(LogisticaArea)
            <==> !loading && user.Some? && user.value.role == "logistica"
    ensures loading ==> Navigate(path, loading, user) == Loading
    ensures !loading && (user.None? || user.value.role != "logistica") ==> Navigate(path, loading, user) == RedirectTo(LOGIN_PATH)
  {
  }

  /** Any path outside the table redirects to the login page. */
  lemma OtherPathsRedirect(path: seq<string>, loading: bool, user: Option<SessionUser>)
    requires path != ["login"]
    requires |path| == 0 || (path[0] != "admin" && path[0] != "logistica")
    ensures Navigate(path, loading, user) == RedirectTo(LOGIN_PATH)
  {
  }

  /**
   * The two areas are separated: a "logistica" user never sees an admin
   * page, an "admin" user never sees a logistics page, and a user with any
   * other role sees neither, whatever path is requested.
   */
  lemma {:induction false} AreasSeparated(path: seq<string>, loading: bool, user: Option<SessionUser>)
    ensures Navigate(path, loading, user) == Shows(AdminArea) ==> user.Some? && user.value.role == "admin"
    ensures Navigate(path, loading, user) == Shows(LogisticaArea) ==> user.Some? && user.value.role == "logistica"
  {
    var e := Match(path);
    if e.Guarded? {
      assert e == Guarded(["admin"], AdminArea) || e == Guarded(["logistica"], LogisticaArea);
    }
  }
}
