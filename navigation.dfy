/**
 * The three navigation components. Each is a pure function from the current
 * user (and, for the navbar, its `open` prop) to an ordered list of entries;
 * the logout control is the last entry, and clicking a control performs a
 * list of actions.
 */
module Navigation {
  import opened Js
  import UserContext
  import RouteGate

  /** What clicking a control does: call the context's `logout`, route to a path, or call a prop callback. */
  datatype Action = CallLogout | NavigateTo(path: string) | CallOnNavigate | CallOnToggle

  datatype NavEntry =
    | Link(text: string, to: string, onClick: seq<Action>)
    | LogoutButton(onClick: seq<Action>)

  function Plain(text: string, to: string): NavEntry
  {
    Link(text, to, [])
  }

  predicate IsManager(user: JsObject)
  {
    Get(user, "role") == Str("manager")
  }

  predicate IsAdmin(user: JsObject)
  {
    Get(user, "role") == Str("admin")
  }

  /** The admin links; header and sidebar label and order them alike. */
  const AdminLinks: seq<NavEntry> := [
    Plain("Admin Panel", "/admin-panel"), Plain("Reporting", "/reporting"),
    Plain("Audit Trail", "/audit-trail"), Plain("Hierarchy", "/hierarchy"),
    Plain("Onboarding", "/onboarding")
  ]

  // ---------------------------------------------------------------- Header

  const HeaderBase: seq<NavEntry> := [
    Plain("Dashboard", "/"), Plain("Daily Log", "/work-log"), Plain("Leave", "/leave-requests"),
    Plain("Notifications", "/notifications"), Plain("Calendar", "/calendar")
  ]

  const HeaderManagerLinks: seq<NavEntry> :=
    [Plain("Team Review", "/team-review"), Plain("Leave Approvals", "/leave-approvals")]

  /** The header's logout: `logout()` and then `navigate("/login")`. */
  const HeaderLogout: NavEntry := LogoutButton([CallLogout, NavigateTo("/login")])

  /** `Header`: nothing without a user; otherwise the five base links, the role's links, then Logout. */
  function Header(user: Option<JsObject>): (r: seq<NavEntry>)
    ensures user.None? ==> r == []
    ensures user.Some? ==> |r| >= 6 && r[..5] == HeaderBase && r[|r| - 1] == HeaderLogout
    ensures user.Some? ==>
      r[5..|r| - 1] == (if IsManager(user.value) then HeaderManagerLinks
                        else if IsAdmin(user.value) then AdminLinks
                        else [])
  {
    if user.None? then []
    else
      HeaderBase
      + (if IsManager(user.value) then HeaderManagerLinks else [])
      + (if IsAdmin(user.value) then AdminLinks else [])
      + [HeaderLogout]
  }

  // ---------------------------------------------------------------- Sidebar

  const SidebarHead: seq<NavEntry> :=
    [Plain("Dashboard", "/"), Plain("Daily Log", "/work-log"), Plain("Leave Requests", "/leave-requests")]

  const SidebarManagerLinks: seq<NavEntry> :=
    [Plain("Team Review", "/team-review"), Plain("Approvals", "/leave-approvals")]

  const SidebarTail: seq<NavEntry> := [Plain("Calendar", "/calendar"), Plain("Notifications", "/notifications")]

  /** `LogoutSidebarButton`: rendered only for a user; its click is `logout` alone, with no navigation. */
  function SidebarLogoutButton(user: Option<JsObject>): (r: seq<NavEntry>)
    ensures user.None? ==> r == []
    ensures user.Some? ==> r == [LogoutButton([CallLogout])]
  {
    if user.None? then [] else [LogoutButton([CallLogout])]
  }

  /** `Sidebar`: nothing without a user; otherwise head links, role links, Calendar, Notifications, Logout. */
  function Sidebar(user: Option<JsObject>): (r: seq<NavEntry>)
    ensures user.None? ==> r == []
    ensures user.Some? ==> |r| == (if IsManager(user.value) then 8 else if IsAdmin(user.value) then 11 else 6)
    ensures user.Some? ==>
      && r[..3] == SidebarHead
      && r[|r| - 3..] == SidebarTail + [LogoutButton([CallLogout])]
      && r[3..|r| - 3] == (if IsManager(user.value) then SidebarManagerLinks
                           else if IsAdmin(user.value) then AdminLinks
                           else [])
  {
    if user.None? then []
    else
      SidebarHead
      + (if IsManager(user.value) then SidebarManagerLinks else [])
      + (if IsAdmin(user.value) then AdminLinks else [])
      + SidebarTail
      + SidebarLogoutButton(user)
  }

  // ---------------------------------------------------------------- Navbar

  datatype Icon = Hamburger | CloseIcon

  /** A rendered navbar: the toggle icon, what clicking it does, and the dropdown (empty when closed). */
  datatype NavbarView = NavbarView(icon: Icon, iconOnClick: seq<Action>, dropdown: seq<NavEntry>)

  function NavLinkItem(text: string, to: string): NavEntry
  {
    Link(text, to, [CallOnNavigate])
  }

  /** The navbar's eight links, the same for every role; each click also calls `onNavigate`. */
  const NavbarLinks: seq<NavEntry> := [
    NavLinkItem("Dashboard", "/"), NavLinkItem("Admin Panel", "/admin-panel"),
    NavLinkItem("Reporting", "/reporting"), NavLinkItem("Audit Trail", "/audit-trail"),
    NavLinkItem("Hierarchy", "/hierarchy"), NavLinkItem("Onboarding", "/onboarding"),
    NavLinkItem("Calendar", "/calendar"), NavLinkItem("Notifications", "/notifications")
  ]

  /** The navbar's logout: `logout()` and then `onNavigate()`. */
  const NavbarLogout: NavEntry := LogoutButton([CallLogout, CallOnNavigate])

  /** `Navbar`: nothing without a user; the icon shows the state; the links show only when open. */
  function Navbar(user: Option<JsObject>, open: bool): (r: Option<NavbarView>)
    ensures r.None? <==> user.None?
    ensures r.Some? ==> (r.value.icon == Hamburger <==> !open) && r.value.iconOnClick == [CallOnToggle]
    ensures r.Some? && !open ==> r.value.dropdown == []
    ensures r.Some? && open ==> |r.value.dropdown| == 9 && r.value.dropdown[..8] == NavbarLinks && r.value.dropdown[8] == NavbarLogout
  {
    if user.None? then None
    else
      var icon := if !open then Hamburger else CloseIcon;
      Some(NavbarView(icon, [CallOnToggle], if open then NavbarLinks + [NavbarLogout] else []))
  }

  // ---------------------------------------------------------------- Effects of a click

  /** The state a click can change: the context's user, the router's location, and the callback counts. */
  datatype UiState = UiState(user: Option<JsObject>, location: string, navigateCalls: nat, toggleCalls: nat)

  function Step(s: UiState, a: Action): UiState
  {
    match a
    case CallLogout => s.(user := UserContext.Written(UserContext.LogoutOp))
    case NavigateTo(path) => s.(location := path)
    case CallOnNavigate => s.(navigateCalls := s.navigateCalls + 1)
    case CallOnToggle => s.(toggleCalls := s.toggleCalls + 1)
  }

  /** Performs a click's actions in order. */
  function Perform(s: UiState, actions: seq<Action>): UiState
    decreases |actions|
  {
    if actions == [] then s else Perform(Step(s, actions[0]), actions[1..])
  }

  // ---------------------------------------------------------------- Properties

  const TeamReviewLink := Plain("Team Review", "/team-review")
  const AdminPanelLink := Plain("Admin Panel", "/admin-panel")

  /** Team Review is listed only among the manager links. */
  lemma TeamReviewPlacement()
    ensures TeamReviewLink in HeaderManagerLinks && TeamReviewLink in SidebarManagerLinks
    ensures TeamReviewLink !in HeaderBase && TeamReviewLink !in AdminLinks
    ensures TeamReviewLink !in SidebarHead && TeamReviewLink !in SidebarTail
  {
    assert HeaderManagerLinks[0] == TeamReviewLink;
    assert SidebarManagerLinks[0] == TeamReviewLink;
  }

  /** Admin Panel is listed only among the admin links. */
  lemma AdminPanelPlacement()
    ensures AdminPanelLink in AdminLinks
    ensures AdminPanelLink !in HeaderBase && AdminPanelLink !in HeaderManagerLinks
    ensures AdminPanelLink !in SidebarHead && AdminPanelLink !in SidebarManagerLinks && AdminPanelLink !in SidebarTail
  {
    assert AdminLinks[0] == AdminPanelLink;
  }

  /** A header link to Team Review shows exactly for managers, one to Admin Panel exactly for admins. */
  lemma HeaderRoleLinks(user: Option<JsObject>)
    ensures TeamReviewLink in Header(user) <==> user.Some? && IsManager(user.value)
    ensures AdminPanelLink in Header(user) <==> user.Some? && IsAdmin(user.value)
  {
    TeamReviewPlacement();
    AdminPanelPlacement();
    if user.Some? {
      var manager := if IsManager(user.value) then HeaderManagerLinks else [];
      var admin := if IsAdmin(user.value) then AdminLinks else [];
      assert Header(user) == HeaderBase + manager + admin + [HeaderLogout];
    }
  }

  /** The same for the sidebar. */
  lemma SidebarRoleLinks(user: Option<JsObject>)
    ensures TeamReviewLink in Sidebar(user) <==> user.Some? && IsManager(user.value)
    ensures AdminPanelLink in Sidebar(user) <==> user.Some? && IsAdmin(user.value)
  {
    TeamReviewPlacement();
    AdminPanelPlacement();
    if user.Some? {
      var manager := if IsManager(user.value) then SidebarManagerLinks else [];
      var admin := if IsAdmin(user.value) then AdminLinks else [];
      assert Sidebar(user) == SidebarHead + manager + admin + SidebarTail + [LogoutButton([CallLogout])];
    }
  }

  /** Manager links and admin links never appear together, in the header or in the sidebar. */
  lemma RoleLinksExclusive(user: Option<JsObject>)
    ensures !(TeamReviewLink in Header(user) && AdminPanelLink in Header(user))
    ensures !(TeamReviewLink in Sidebar(user) && AdminPanelLink in Sidebar(user))
  {
    HeaderRoleLinks(user);
    SidebarRoleLinks(user);
  }

  /** The header's Logout is its only logout control and comes last. */
  lemma HeaderLogoutOnlyAtEnd(user: Option<JsObject>, i: nat)
    requires i < |Header(user)|
    ensures Header(user)[i].LogoutButton? <==> i == |Header(user)| - 1
  {
    var h := Header(user);
    if i < 5 {
      assert h[i] == HeaderBase[i];
    } else if i < |h| - 1 {
      assert h[i] == h[5..|h| - 1][i - 5];
    }
  }

  /** The navbar shows the same thing whatever the user's role. */
  lemma NavbarIgnoresRole(u1: JsObject, u2: JsObject, open: bool)
    ensures Navbar(Some(u1), open) == Navbar(Some(u2), open)
  {
  }

  /** Header logout: the user is cleared and the location becomes `/login`, which renders the login page. */
  lemma HeaderLogoutShowsLogin(s: UiState)
    ensures var t := Perform(s, HeaderLogout.onClick);
      t == s.(user := None, location := "/login") && RouteGate.Resolve(t.location, t.user) == RouteGate.Page(RouteGate.Login)
  {
  }

  /**
   * Sidebar logout: the user is cleared and nothing navigates, so the location
   * stays; at any location outside the public pages the next render goes to `/login`.
   */
  lemma SidebarLogoutStays(s: UiState)
    ensures var t := Perform(s, [CallLogout]);
      && t == s.(user := None)
      && (s.location !in RouteGate.PublicRoutes ==> RouteGate.Resolve(t.location, t.user) == RouteGate.Navigate("/login"))
  {
  }

  /** Navbar logout: the user is cleared and `onNavigate` is called once; the location stays. */
  lemma NavbarLogoutNotifies(s: UiState)
    ensures Perform(s, NavbarLogout.onClick) == s.(user := None, navigateCalls := s.navigateCalls + 1)
  {
  }
}
