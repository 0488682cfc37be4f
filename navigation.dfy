/** Where the client sends a user: the `ProtectedRoute` guard, the landing
    page after a login, and the paths the router declares. */
module Navigation {
  import opened JsRuntime
  import opened Entities
  import Accounts

  /** The staff dashboard for a role, home for anyone else. */
  function RoleHome(role: string): (p: string)
    ensures role == "ADMIN" ==> p == "/admin"
    ensures role == "KITCHEN_STAFF" ==> p == "/kitchen"
    ensures role == "DELIVERY_STAFF" ==> p == "/delivery"
    ensures role == "CUSTOMER_SUPPORT" ==> p == "/support"
    ensures p == "/" <==> role !in {"ADMIN", "KITCHEN_STAFF", "DELIVERY_STAFF", "CUSTOMER_SUPPORT"}
  {
    if role == "ADMIN" then "/admin"
    else if role == "KITCHEN_STAFF" then "/kitchen"
    else if role == "DELIVERY_STAFF" then "/delivery"
    else if role == "CUSTOMER_SUPPORT" then "/support"
    else "/"
  }

  datatype Outcome = Render | Redirect(path: string)

  /** `ProtectedRoute`: the stored user's role, if any, against the route's
      optional list of admitted roles. */
  function Guard(role: Option<string>, allowedRoles: Option<seq<string>>): (o: Outcome)
    ensures role.None? ==> o == Redirect("/login")
    ensures o == Render <==> role.Some? && (allowedRoles.None? || role.value in allowedRoles.value)
    ensures role.Some? && o.Redirect? ==> o.path == RoleHome(role.value)
  {
    if role.None? then Redirect("/login")
    else if allowedRoles.Some? && role.value !in allowedRoles.value then Redirect(RoleHome(role.value))
    else Render
  }

  /** A signed-in user turned away is sent to the same place by every route
      that does not admit them, and never to the login page. */
  lemma RedirectIgnoresAllowedRoles(role: string, a: seq<string>, b: seq<string>)
    requires role !in a && role !in b
    ensures Guard(Some(role), Some(a)) == Guard(Some(role), Some(b))
    ensures Guard(Some(role), Some(a)) != Redirect("/login")
  {
  }

  /** A route guarded for one staff role admits that role's own landing page,
      so the redirect does not bounce back. */
  lemma {:induction false} NoRedirectLoop(role: string)
    ensures Guard(Some(role), Some([role])) == Render
  {
    assert role in [role];
  }

  /** The landing page `Login` navigates to after a successful login, a
      separate chain of tests on the role. */
  function LoginDestination(role: string): (p: string)
    ensures p in {"/admin", "/kitchen", "/delivery", "/support", "/"}
  {
    if role == "ADMIN" then "/admin"
    else if role == "KITCHEN_STAFF" then "/kitchen"
    else if role == "DELIVERY_STAFF" then "/delivery"
    else if role == "CUSTOMER_SUPPORT" then "/support"
    else "/"
  }

  /** For every role the login landing page is where the guard would send it. */
  lemma LoginMatchesGuard(role: string)
    ensures LoginDestination(role) == RoleHome(role)
  {
  }

  // ---------------------------------------------------------------------------
  // The router

  /** The paths `App` declares, as written. */
  const DECLARED_PATHS: set<string> :=
    {"/", "/menu", "/about", "/login", "/register", "/admin", "/my-orders", "/profile"}

  /** As written, the three staff roles land on a path the router does not
      declare, so their dashboards are never rendered. */
  lemma StaffLandOnUndeclaredPaths()
    ensures LoginDestination("KITCHEN_STAFF") !in DECLARED_PATHS
    ensures LoginDestination("DELIVERY_STAFF") !in DECLARED_PATHS
    ensures LoginDestination("CUSTOMER_SUPPORT") !in DECLARED_PATHS
  {
  }

  /** The paths with the three staff dashboards routed as well. */
  const ROUTED_PATHS: set<string> := DECLARED_PATHS + {"/kitchen", "/delivery", "/support"}

  /** With the staff dashboards routed, every login landing page and every
      guard redirect is a declared path. */
  lemma {:induction false} EveryLandingRouted(role: string, allowedRoles: Option<seq<string>>, user: Option<string>)
    ensures LoginDestination(role) in ROUTED_PATHS
    ensures Guard(user, allowedRoles).Redirect? ==> Guard(user, allowedRoles).path in ROUTED_PATHS
  {
    LoginMatchesGuard(role);
    if user.Some? {
      LoginMatchesGuard(user.value);
    }
  }

  // ---------------------------------------------------------------------------
  // The login page

  /** What `login()` resolves to: the token and user, or an error whose
      message is the server's `error` text or, when it has none, `Login failed`. */
  datatype LoginResult = LoggedIn(token: string, role: string) | LoginError(message: string)

  function ClientLogin(reply: Accounts.AuthReply): (r: LoginResult)
    ensures reply.Success? ==> r == LoggedIn(reply.token, RoleName(reply.user.role))
    ensures reply.Failure? && reply.error != "" ==> r == LoginError(reply.error)
    ensures reply.Failure? && reply.error == "" ==> r == LoginError("Login failed")
  {
    match reply
    case Success(_, token, _, user) => LoggedIn(token, RoleName(user.role))
    case Failure(_, error) => LoginError(if error != "" then error else "Login failed")
  }

  datatype Effect = SaveAuth(token: string, role: string) | Navigate(path: string)

  class LoginPage {
    var error: string
    var effects: seq<Effect>

    constructor ()
      ensures error == "" && effects == []
    {
      error := "";
      effects := [];
    }

    /** `handleSubmit`: a successful login saves the session, then navigates to
        the role's landing page; a failed one shows its message and stays on
        the page. The landing page is declared by the router as written
        exactly for the roles without a staff dashboard, and is always a
        path of the corrected router. */
    method HandleSubmit(result: LoginResult)
      modifies this
      ensures result.LoggedIn? ==>
                effects == old(effects) + [SaveAuth(result.token, result.role), Navigate(LoginDestination(result.role))] &&
                error == old(error)
      ensures result.LoggedIn? ==>
                (LoginDestination(result.role) in DECLARED_PATHS <==>
                 result.role !in {"KITCHEN_STAFF", "DELIVERY_STAFF", "CUSTOMER_SUPPORT"})
      ensures result.LoggedIn? ==> LoginDestination(result.role) in ROUTED_PATHS
      ensures result.LoginError? ==> effects == old(effects) && error == result.message
    {
      match result
      case LoggedIn(token, role) =>
        effects := effects + [SaveAuth(token, role)];
        var path := LoginDestination(role);
        EveryLandingRouted(role, None, None);
        effects := effects + [Navigate(path)];
      case LoginError(message) =>
        error := message;
    }
  }

  /** A login with an unknown email or a wrong password shows `Invalid
      credentials` and goes nowhere; a good one lands on the account's page. */
  lemma {:induction false} LoginOutcomes(users: map<string, Accounts.User>, email: string, password: string,
                                         matches: (string, string) -> bool, sign: Claims -> string)
    ensures var r := ClientLogin(Accounts.LoginReply(users, true, email, password, matches, sign));
            (email !in users || !matches(password, users[email].passwordHash) <==> r == LoginError("Invalid credentials")) &&
            (r.LoggedIn? ==> LoginDestination(r.role) == RoleHome(RoleName(users[email].role)))
  {
    LoginMatchesGuard(RoleName(if email in users then users[email].role else CUSTOMER));
  }
}
