/**
 * The route table of the application shell and its two guards: `RequireAuth`,
 * which wraps every location outside the four public pages, and
 * `ProtectedRoute`, which additionally compares the user's role with the role a
 * screen requires. Both are pure three-way decisions over the current user.
 */
module RouteGate {
  import opened Js

  datatype Screen =
    | Login | SignUp | Onboarding | Calendar
    | Dashboard | WorkLog | LeaveRequests | Notifications
    | TeamReview | LeaveApprovals | AdminPanel | AuditTrail | Reporting | Hierarchy

  /** What a guard renders: its children, or a `<Navigate replace>` to a path. */
  datatype Guard = Allow | Redirect(to: string)

  /** What the router renders for a location. */
  datatype View = Page(screen: Screen) | Navigate(to: string) | Blank

  /** A route nested under `RequireAuth`; `role` is its `ProtectedRoute` role, `None` when it is not wrapped. */
  datatype NestedRoute = NestedRoute(screen: Screen, role: Option<string>)

  /** The routes rendered with no check at all. */
  const PublicRoutes: map<string, Screen> :=
    map["/login" := Login, "/signup" := SignUp, "/onboarding" := Onboarding, "/calendar" := Calendar]

  /** The routes nested under `RequireAuth`, by their path relative to `/`; the index route has path "". */
  const NestedRoutes: map<string, NestedRoute> := map[
    "" := NestedRoute(Dashboard, None),
    "work-log" := NestedRoute(WorkLog, None),
    "leave-requests" := NestedRoute(LeaveRequests, None),
    "notifications" := NestedRoute(Notifications, None),
    "team-review" := NestedRoute(TeamReview, Some("manager")),
    "leave-approvals" := NestedRoute(LeaveApprovals, Some("manager")),
    "admin-panel" := NestedRoute(AdminPanel, Some("admin")),
    "audit-trail" := NestedRoute(AuditTrail, Some("admin")),
    "reporting" := NestedRoute(Reporting, Some("admin")),
    "hierarchy" := NestedRoute(Hierarchy, Some("admin"))
  ]

  /** `RequireAuth`'s own check: any user object is truthy. */
  function RequireAuth(user: Option<JsObject>): (g: Guard)
    ensures g == Allow <==> user.Some?
    ensures g != Allow ==> g == Redirect("/login")
  {
    if user.None? then Redirect("/login") else Allow
  }

  /** `role && ...`: an absent or empty role prop imposes nothing. */
  predicate RoleRequired(role: Option<string>)
  {
    role.Some? && role.value != ""
  }

  /**
   * `ProtectedRoute`: no user goes to `/login`; a user whose `role` property is
   * not strictly equal to the required role goes to `/`; anyone else is allowed.
   */
  function ProtectedRoute(user: Option<JsObject>, role: Option<string>): (g: Guard)
    ensures user.None? ==> g == Redirect("/login")
    ensures user.Some? ==> (g == Allow <==> !RoleRequired(role) || Get(user.value, "role") == Str(role.value))
    ensures user.Some? && g != Allow ==> g == Redirect("/")
  {
    if user.None? then Redirect("/login")
    else if RoleRequired(role) && Get(user.value, "role") != Str(role.value) then Redirect("/")
    else Allow
  }

  /** The part of the location that the splat route hands to the nested routes. */
  function Rest(path: string): string
  {
    if path != [] && path[0] == '/' then path[1..] else path
  }

  /**
   * What the shell renders at `path`: a public page as is; any other location
   * is caught by the splat route, `RequireAuth` runs, and the nested route (if
   * any) renders, through `ProtectedRoute` when it names a role. A nested path
   * with no route renders an empty layout. The trailing catch-all `Navigate`
   * route is never reached, because the splat route already matches everything.
   */
  function Resolve(path: string, user: Option<JsObject>): (v: View)
    ensures path !in PublicRoutes && user.None? ==> v == Navigate("/login")
    ensures v.Navigate? ==> v.to == "/login" || v.to == "/"
  {
    if path in PublicRoutes then Page(PublicRoutes[path])
    else if RequireAuth(user) != Allow then Navigate(RequireAuth(user).to)
    else if Rest(path) !in NestedRoutes then Blank
    else
      var route := NestedRoutes[Rest(path)];
      if route.role.None? then Page(route.screen)
      else if ProtectedRoute(user, route.role) == Allow then Page(route.screen)
      else Navigate(ProtectedRoute(user, route.role).to)
  }

  /** With no user, every location outside the four public pages redirects to `/login`. */
  lemma NoUserGoesToLogin(path: string)
    requires path !in PublicRoutes
    ensures Resolve(path, None) == Navigate("/login")
  {
  }

  /** The public pages render their screen whoever is (or is not) logged in. */
  lemma PublicPagesIgnoreUser(path: string, user: Option<JsObject>)
    requires path in PublicRoutes
    ensures Resolve(path, user) == Page(PublicRoutes[path])
  {
  }

  /**
   * The decision table at every nested route: no user goes to `/login`; an
   * unwrapped route renders for any user; a role-protected route renders
   * exactly when `user.role` is that role string and otherwise goes to `/`.
   */
  lemma NestedRouteDecision(rest: string, user: Option<JsObject>)
    requires rest in NestedRoutes
    ensures var route := NestedRoutes[rest];
      && (user.None? ==> Resolve("/" + rest, user) == Navigate("/login"))
      && (user.Some? && route.role.None? ==> Resolve("/" + rest, user) == Page(route.screen))
      && (user.Some? && route.role.Some? ==>
            Resolve("/" + rest, user) ==
              if Get(user.value, "role") == Str(route.role.value) then Page(route.screen) else Navigate("/"))
  {
    assert Rest("/" + rest) == rest;
    assert "/" + rest !in PublicRoutes;
  }

  /** Four nested routes need "admin". */
  lemma AdminRouteSet()
    ensures (set p | p in NestedRoutes && NestedRoutes[p].role == Some("admin"))
      == {"admin-panel", "audit-trail", "reporting", "hierarchy"}
  {
  }

  /** Two nested routes need "manager". */
  lemma ManagerRouteSet()
    ensures (set p | p in NestedRoutes && NestedRoutes[p].role == Some("manager"))
      == {"team-review", "leave-approvals"}
  {
  }

  /** Four nested routes need only a login. */
  lemma LoginOnlyRouteSet()
    ensures (set p | p in NestedRoutes && NestedRoutes[p].role.None?)
      == {"", "work-log", "leave-requests", "notifications"}
  {
  }

  /** A logged-in user whose `role` is not the route's role is sent home from it. */
  lemma WrongRoleSentHome(user: JsObject, rest: string)
    requires rest in NestedRoutes && NestedRoutes[rest].role.Some?
    requires Get(user, "role") != Str(NestedRoutes[rest].role.value)
    ensures Resolve("/" + rest, Some(user)) == Navigate("/")
  {
    NestedRouteDecision(rest, Some(user));
  }

  /** No role hierarchy: "admin" is sent home from the manager screens, "manager" from the admin screens. */
  lemma NoRoleHierarchy(user: JsObject, rest: string)
    requires rest in NestedRoutes
    ensures NestedRoutes[rest].role == Some("manager") && Get(user, "role") == Str("admin") ==>
      Resolve("/" + rest, Some(user)) == Navigate("/")
    ensures NestedRoutes[rest].role == Some("admin") && Get(user, "role") == Str("manager") ==>
      Resolve("/" + rest, Some(user)) == Navigate("/")
  {
    if NestedRoutes[rest].role.Some? && Get(user, "role") != Str(NestedRoutes[rest].role.value) {
      WrongRoleSentHome(user, rest);
    }
  }

  /** A user object without a `role` property is sent home from every role-protected route. */
  lemma RolelessUserSentHome(user: JsObject, rest: string)
    requires "role" !in user
    requires rest in NestedRoutes && NestedRoutes[rest].role.Some?
    ensures Resolve("/" + rest, Some(user)) == Navigate("/")
  {
    WrongRoleSentHome(user, rest);
  }
}
