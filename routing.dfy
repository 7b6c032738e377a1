/**
 * The route guards and the route table: which screen a path shows for a given session,
 * and where the redirects lead when the guards compose.
 */
module Routing {
  import opened Wrappers
  import opened Text
  import opened Auth

  /** `role` as `ProtectedRoute` receives it: absent, one role name, or a list of role names. */
  datatype RoleProp = NoRole | SingleRole(role: string) | RoleList(roles: seq<string>)

  /** What a guard renders: its children, or a `<Navigate replace>` to a path. */
  datatype Decision = Render | Redirect(to: string)

  /** `roles.includes(user.role)`: a missing role is in no list of strings. */
  predicate InRoles(role: Option<string>, roles: seq<string>) {
    role.Some? && role.value in roles
  }

  /** `ProtectedRoute` */
  function Protected(user: Option<AuthUser>, role: RoleProp): (d: Decision)
    ensures user.None? ==> d == Redirect("/login")
    ensures d.Redirect? ==> d.to == "/login"
    ensures user.Some? && role.RoleList? ==> (d == Render <==> InRoles(user.value.role, role.roles))
    ensures user.Some? && role.SingleRole? && role.role != "" ==> (d == Render <==> user.value.role == Some(role.role))
    ensures user.Some? && (role.NoRole? || role == SingleRole("")) ==> d == Render
  {
    if user.None? then Redirect("/login")
    else
      match role
      case NoRole => Render
      case SingleRole(r) =>
        if r == "" then Render
        else if user.value.role != Some(r) then Redirect("/login")
        else Render
      case RoleList(rs) => if !InRoles(user.value.role, rs) then Redirect("/login") else Render
  }

  /** `PublicRoute` */
  function Public(user: Option<AuthUser>): (d: Decision)
    ensures d == Render <==> user.None?
    ensures d.Redirect? ==> d.to == "/chat"
  {
    if user.Some? then Redirect("/chat") else Render
  }

  /** The screens the table can show. */
  datatype Screen =
    | LoginScreen | RegisterScreen | ChatScreen | ChatAdminScreen | AdminScreen
    | AdminPrivateScreen | AdminReportsScreen | AdminOnlineScreen | SponsorshipScreen | AdminAnalyticsScreen

  datatype Guard = PublicGuard | ProtectedGuard(role: RoleProp) | Unguarded

  datatype Route = Page(guard: Guard, screen: Screen) | CatchAll

  const MemberRoles: seq<string> := ["user", "moderator", "admin", "super-admin"]
  const StaffRoles: seq<string> := ["moderator", "admin", "super-admin"]

  /** The `<Routes>` table; `CatchAll` is `path="*"`. */
  function RouteFor(path: string): Route {
    if path == "/login" then Page(PublicGuard, LoginScreen)
    else if path == "/register" then Page(PublicGuard, RegisterScreen)
    else if path == "/chat" then Page(ProtectedGuard(RoleList(MemberRoles)), ChatScreen)
    else if path == "/chat-admin" then Page(ProtectedGuard(SingleRole("user")), ChatAdminScreen)
    else if path == "/admin" then Page(ProtectedGuard(RoleList(StaffRoles)), AdminScreen)
    else if path == "/admin-private" then Page(ProtectedGuard(RoleList(StaffRoles)), AdminPrivateScreen)
    else if path == "/admin-reports" then Page(ProtectedGuard(RoleList(StaffRoles)), AdminReportsScreen)
    else if path == "/admin-online" then Page(ProtectedGuard(RoleList(StaffRoles)), AdminOnlineScreen)
    else if path == "/sponsorship" then Page(Unguarded, SponsorshipScreen)
    else if path == "/admin-analytics" then Page(ProtectedGuard(RoleList(StaffRoles)), AdminAnalyticsScreen)
    else CatchAll
  }

  /** One render of the router: show a screen, or redirect. */
  datatype Step = Show(screen: Screen) | GoTo(path: string)

  function GuardDecision(user: Option<AuthUser>, guard: Guard): Decision {
    match guard
    case PublicGuard => Public(user)
    case ProtectedGuard(role) => Protected(user, role)
    case Unguarded => Render
  }

  /** What one path renders: every redirect goes to `/login` or `/chat`. */
  function RouteStep(user: Option<AuthUser>, path: string): (s: Step)
    ensures s.GoTo? ==> s.path == "/login" || s.path == "/chat"
    ensures RouteFor(path).CatchAll? ==> s == GoTo("/chat")
    ensures RouteFor(path).Page? && RouteFor(path).guard.Unguarded? ==> s == Show(RouteFor(path).screen)
  {
    match RouteFor(path)
    case CatchAll => GoTo("/chat")
    case Page(guard, screen) =>
      match GuardDecision(user, guard)
      case Render => Show(screen)
      case Redirect(to) => GoTo(to)
  }

  /** Follows redirects for at most `fuel` renders; `None` when no screen is reached. */
  function Navigate(user: Option<AuthUser>, path: string, fuel: nat): Option<Screen>
    decreases fuel
  {
    if fuel == 0 then None
    else
      match RouteStep(user, path)
      case Show(screen) => Some(screen)
      case GoTo(next) => Navigate(user, next, fuel - 1)
  }

  predicate KnownRole(role: Option<string>) {
    InRoles(role, MemberRoles)
  }

  /** Only `/sponsorship` is outside both guards. */
  lemma SponsorshipIsUnguarded(user: Option<AuthUser>)
    ensures RouteStep(user, "/sponsorship") == Show(SponsorshipScreen)
  {
  }

  /**
   * For a signed-in user with one of the four known roles, every path ends at a screen within
   * three renders, and a path whose guard refuses them ends, by way of `/login`, at the chat.
   */
  lemma KnownRoleEndsAtScreen(u: AuthUser, path: string)
    requires KnownRole(u.role)
    ensures RouteStep(Some(u), path).Show? ==> Navigate(Some(u), path, 3) == Some(RouteStep(Some(u), path).screen)
    ensures RouteStep(Some(u), path).GoTo? ==> Navigate(Some(u), path, 3) == Some(ChatScreen)
  {
    assert RouteStep(Some(u), "/chat") == Show(ChatScreen);
    assert RouteStep(Some(u), "/login") == GoTo("/chat");
  }

  /** A signed-out visitor ends at the register page, the sponsorship page or the login page. */
  lemma SignedOutEndsAtLogin(path: string)
    ensures Navigate(None, path, 3) ==
      Some(if path == "/register" then RegisterScreen
           else if path == "/sponsorship" then SponsorshipScreen
           else LoginScreen)
  {
    assert RouteStep(None, "/login") == Show(LoginScreen);
    assert RouteStep(None, "/chat") == GoTo("/login");
  }

  /**
   * A signed-in user whose role is none of the four known ones is bounced between `/chat`
   * and `/login` forever: however many renders are allowed, only `/sponsorship` shows a screen.
   */
  lemma {:induction false} UnknownRoleCycles(u: AuthUser, path: string, fuel: nat)
    requires !KnownRole(u.role)
    ensures Navigate(Some(u), path, fuel) ==
      (if path == "/sponsorship" && fuel > 0 then Some(SponsorshipScreen) else None)
    decreases fuel
  {
    if fuel > 0 && path != "/sponsorship" {
      var s := RouteStep(Some(u), path);
      assert s.GoTo?;
      UnknownRoleCycles(u, s.path, fuel - 1);
    }
  }
}
