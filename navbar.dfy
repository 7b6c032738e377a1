/** The navigation bar: which links it offers for a session, and its menu/scroll state. */
module NavbarView {
  import opened Wrappers
  import opened Auth
  import opened Routing

  /** `user && ["moderator", "admin", "super-admin"].includes(user.role)` */
  predicate IsAdminOrHigher(user: Option<AuthUser>) {
    user.Some? && InRoles(user.value.role, StaffRoles)
  }

  /** The private-chat link: staff reach the inbox of every thread, members the chat with the admins. */
  function PrivateChatTarget(user: Option<AuthUser>): (to: string)
    ensures IsAdminOrHigher(user) <==> to == "/admin-private"
    ensures !IsAdminOrHigher(user) <==> to == "/chat-admin"
  {
    if IsAdminOrHigher(user) then "/admin-private" else "/chat-admin"
  }

  /** The logo. */
  function LogoTarget(user: Option<AuthUser>): (to: string)
    ensures user.Some? <==> to == "/chat"
    ensures user.None? <==> to == "/login"
  {
    if user.Some? then "/chat" else "/login"
  }

  /** The targets of the desktop bar's `NavLink`s, in order: the links that highlight when active. */
  function NavLinkTargets(user: Option<AuthUser>): (links: seq<string>)
    ensures "/admin" in links <==> IsAdminOrHigher(user)
    ensures "/sponsorship" in links && "/register" !in links
    ensures user.Some? ==> "/chat" in links && PrivateChatTarget(user) in links
    ensures user.None? <==> "/login" in links
  {
    (if user.Some? then ["/chat"] else [])
    + (if IsAdminOrHigher(user) then ["/admin"] else [])
    + (if user.Some? then [PrivateChatTarget(user)] else [])
    + ["/sponsorship"]
    + (if user.None? then ["/login"] else [])
  }

  /** The link targets of the desktop bar, in order: the `NavLink`s, then a visitor's plain Register link. */
  function DesktopLinks(user: Option<AuthUser>): (links: seq<string>)
    ensures forall to :: to in links <==> to in NavLinkTargets(user) || (user.None? && to == "/register")
    ensures "/admin" in links <==> IsAdminOrHigher(user)
    ensures "/sponsorship" in links
    ensures user.Some? ==> "/chat" in links && PrivateChatTarget(user) in links
    ensures user.None? <==> "/login" in links
  {
    NavLinkTargets(user) + (if user.None? then ["/register"] else [])
  }

  /** The link targets of the mobile menu, in order: the desktop set, less Sponsorship for a visitor. */
  function MobileLinks(user: Option<AuthUser>): (links: seq<string>)
    ensures forall to :: to in links <==> to in DesktopLinks(user) && (user.Some? || to != "/sponsorship")
  {
    if user.Some? then
      ["/chat"] + (if IsAdminOrHigher(user) then ["/admin"] else []) + [PrivateChatTarget(user), "/sponsorship"]
    else ["/login", "/register"]
  }

  /**
   * For a user with one of the four known roles, the private-chat link leads to a page whose guard
   * admits them, in both the desktop bar and the mobile menu.
   */
  lemma PrivateChatLinkAdmitted(u: AuthUser)
    requires KnownRole(u.role)
    ensures RouteStep(Some(u), PrivateChatTarget(Some(u))).Show?
  {
  }

  /** Every link the bar offers to a known role, or to a visitor, renders its page without a redirect. */
  lemma DesktopLinksAdmitted(user: Option<AuthUser>, to: string)
    requires user.Some? ==> KnownRole(user.value.role)
    requires to in DesktopLinks(user)
    ensures RouteStep(user, to).Show?
  {
  }

  /** A signed-in user with an unknown role is offered a chat link that only redirects. */
  lemma UnknownRoleChatLinkRedirects(u: AuthUser)
    requires !KnownRole(u.role)
    ensures "/chat" in DesktopLinks(Some(u))
    ensures RouteStep(Some(u), "/chat") == GoTo("/login")
  {
  }

  /** `location.pathname === to` */
  predicate IsActive(pathname: string, to: string) {
    pathname == to
  }

  /** The bar's own state: the mobile menu, the scroll shadow and the current location. */
  class Navbar {
    var isMenuOpen: bool
    var scrolled: bool
    var pathname: string

    constructor (pathname: string)
      ensures !isMenuOpen && !scrolled && this.pathname == pathname
    {
      isMenuOpen := false;
      scrolled := false;
      this.pathname := pathname;
    }

    /**
     * The links shown as active. Only a `NavLink` or `MobileNavLink` compares its target with the
     * path, so at most one link is highlighted: the current path, when it is one of them. The
     * plain Register link never is, and the mobile menu highlights the same link.
     */
    function ActiveLinks(user: Option<AuthUser>): (active: set<string>)
      reads this
      ensures active == if pathname in NavLinkTargets(user) then {pathname} else {}
      ensures "/register" !in active
      ensures forall to :: to in MobileLinks(user) && to != "/register" && IsActive(pathname, to) ==> to in active
    {
      set to | to in NavLinkTargets(user) && IsActive(pathname, to)
    }

    /** The menu button. */
    method ToggleMenu()
      modifies this`isMenuOpen
      ensures isMenuOpen == !old(isMenuOpen)
    {
      isMenuOpen := !isMenuOpen;
    }

    /** A `mousedown` anywhere: outside the bar it closes the menu. */
    method MouseDown(insideBar: bool)
      modifies this`isMenuOpen
      ensures isMenuOpen == (old(isMenuOpen) && insideBar)
    {
      if !insideBar {
        isMenuOpen := false;
      }
    }

    /** A mobile link or the overlay. */
    method CloseMenu()
      modifies this`isMenuOpen
      ensures !isMenuOpen
    {
      isMenuOpen := false;
    }

    /** A change of location: the effect on `location.pathname` closes the menu. */
    method Navigated(to: string)
      modifies this`pathname, this`isMenuOpen
      ensures pathname == to
      ensures to != old(pathname) ==> !isMenuOpen
      ensures to == old(pathname) ==> isMenuOpen == old(isMenuOpen)
    {
      if to != pathname {
        pathname := to;
        isMenuOpen := false;
      }
    }

    /** The scroll listener. */
    method Scrolled(scrollY: int)
      modifies this`scrolled
      ensures scrolled <==> scrollY > 10
    {
      scrolled := scrollY > 10;
    }
  }
}
