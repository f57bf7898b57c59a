/** The layouts' guards in plain text, and the moves a visitor makes between them and the proxy. */
module LayoutTable {
  import opened Common
  import opened Roles
  import opened Proxy
  import opened Guards
  import opened Navigation

  /** Where the admin layout sends each role. */
  lemma AdminPages(role: PrimaryRole, path: string)
    ensures role in {SuperAdmin, Admin} ==> Destination(AdminLayout, Some(role), path) == None
    ensures role == SalesAgent ==>
      Destination(AdminLayout, Some(role), path) == if "/crm" <= path || "/leads-inbox" <= path then None else Some("/crm")
    ensures role == SupportAgent ==> Destination(AdminLayout, Some(role), path) == if "/tickets" <= path then None else Some("/tickets")
    ensures role == HrAgent ==>
      Destination(AdminLayout, Some(role), path) == if "/hr" <= path || "/payroll" <= path then None else Some("/hr")
    ensures role == Agent ==>
      Destination(AdminLayout, Some(role), path) ==
        (if "/tickets" <= path || "/crm" <= path || "/leads-inbox" <= path || path == "/agent/dashboard" then None
         else Some("/agent/dashboard"))
    ensures role == Employee ==> Destination(AdminLayout, Some(role), path) == if path == "/attendance" then None else Some("/attendance")
    ensures role == Client ==>
      Destination(AdminLayout, Some(role), path) == if path == "/client/dashboard" then None else Some("/client/dashboard")
  {
  }

  /** Whom the other layouts let in on any page. */
  lemma OtherLayouts(role: PrimaryRole, path: string)
    ensures Destination(ClientLayout, Some(role), path) == if role in {Client, Admin, SuperAdmin} then None else Some(RoleHome(role))
    ensures Destination(AgentLayout, Some(role), path) == if role in {Employee, Client} then Some(RoleHome(role)) else None
    ensures Destination(EmployeeLayout, Some(role), path) == if role == Client then Some("/client/dashboard") else None
    ensures Destination(HrLayout, Some(role), path) == if role in {HrAgent, Admin, SuperAdmin} then None else Some(RoleHome(role))
    ensures Destination(NoLayout, Some(role), path) == None
  {
    hide RoleHome;
    match role
    case SuperAdmin =>
    case Admin =>
    case SalesAgent =>
    case SupportAgent =>
    case HrAgent =>
    case Agent =>
    case Employee =>
    case Client => { assert RoleHome(Client) == "/client/dashboard" by { HomeOfClient(); } }
  }

  lemma HomeOfClient()
    ensures RoleHome(Client) == "/client/dashboard"
  {
  }

  /** The super-admin layout looks for its name anywhere in the path. */
  lemma SuperAdminPages(role: PrimaryRole, path: string)
    ensures Destination(SuperAdminLayout, Some(role), path).Some? <==>
      role != SuperAdmin && exists before: string, after: string :: path == before + "/super-admin" + after
    ensures Destination(SuperAdminLayout, Some(role), path).Some? ==>
      Destination(SuperAdminLayout, Some(role), path) == Some(RoleHome(role))
  {
    ContainsAnywhere(path, "/super-admin");
    hide RoleHome, Contains;
  }

  /** Somebody no layout can identify has to sign in. */
  lemma UnknownVisitor(layout: Layout, path: string)
    ensures Destination(layout, None, path) == if layout == NoLayout then None else Some("/login")
  {
  }

  /** The order in which a layout looks for its user. */
  lemma UserIs(memory: Option<seq<string>>, stored: Option<seq<string>>, me: Option<seq<string>>, roles: seq<string>)
    ensures Known(Some(roles), stored, me) == Some(roles) && Known(None, Some(roles), me) == Some(roles) && Known(None, None, me) == me
    ensures Visitor(Some(roles)) == Some(GetPrimaryRole(roles)) && Visitor(None) == None
  {
    hide GetPrimaryRole;
  }

  // ----- Moves -----

  /** First the proxy: a request it redirects goes on to the page it names, and nothing is mounted. */
  lemma ProxyMoves(session: Option<PrimaryRole>, x: Setting, v: Visit)
    requires IsMatched(v.path) && Decide(session, v.path).Redirect?
    ensures Next(session, x, v) == Some(Visit(Decide(session, v.path).path, v.screen, v.known))
  {
    hide IsMatched, Decide;
  }

  /** A page under the layout that is on the screen already: its guard does not run, but for the super-admin layout. */
  lemma SameLayoutRests(session: Option<PrimaryRole>, x: Setting, v: Visit, shown: Screen)
    requires !(IsMatched(v.path) && Decide(session, v.path).Redirect?)
    requires v.screen == Some(shown) && x.layoutOf(shown.page) == x.layoutOf(v.path)
    requires x.layoutOf(v.path) != SuperAdminLayout || shown.page == v.path
    ensures Next(session, x, v) == None
    ensures Shown(x, v) == Screen(v.path, x.layoutOf(v.path) != NoLayout && shown.loading)
  {
    hide IsMatched, Decide;
  }

  /** Another page under the super-admin layout: the guard runs again, with the loading flag as it was. */
  lemma SuperAdminRunsAgain(session: Option<PrimaryRole>, x: Setting, v: Visit, shown: Screen)
    requires !(IsMatched(v.path) && Decide(session, v.path).Redirect?)
    requires v.screen == Some(shown) && shown.page != v.path
    requires x.layoutOf(shown.page) == SuperAdminLayout && x.layoutOf(v.path) == SuperAdminLayout
    ensures var to := Destination(SuperAdminLayout, x.visitor, v.path);
      && Shown(x, v) == Screen(v.path, shown.loading && (v.known || x.stored) && x.visitor.Some? && to.Some?)
      && Next(session, x, v) == (if to.None? then None else Some(Visit(to.value, Some(Shown(x, v)), x.visitor.Some?)))
  {
    hide IsMatched, Decide, Allows, RoleHome;
  }

  /** A layout that is mounted anew sends the visitor on or keeps them. Its loading flag, set on mounting unless a user
      is in memory, stays set only for a user from session storage who is refused. */
  lemma GuardMoves(session: Option<PrimaryRole>, x: Setting, v: Visit)
    requires !(IsMatched(v.path) && Decide(session, v.path).Redirect?)
    requires v.screen.None? || x.layoutOf(v.screen.value.page) != x.layoutOf(v.path)
    ensures var to := Destination(x.layoutOf(v.path), x.visitor, v.path);
      var refused := x.layoutOf(v.path) != NoLayout && x.visitor.Some? && !Allows(x.layoutOf(v.path), x.visitor.value, v.path);
      && Shown(x, v) == Screen(v.path, !v.known && x.stored && refused)
      && Next(session, x, v) == (if to.None? then None else Some(Visit(to.value, Some(Shown(x, v)), x.visitor.Some?)))
  {
    hide IsMatched, Decide, Allows, RoleHome;
  }
}
