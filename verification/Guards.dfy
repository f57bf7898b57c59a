/** The page layouts, each of which restores the session and guards its pages a second time. */
module Guards {
  import opened Common
  import opened Roles
  import opened Proxy

  datatype Layout = AdminLayout | ClientLayout | AgentLayout | EmployeeLayout | SuperAdminLayout | HrLayout | NoLayout

  /** Who may see a page of each layout. */
  predicate Allows(layout: Layout, role: PrimaryRole, path: string) {
    match layout
    case AdminLayout =>
      || role in {SuperAdmin, Admin}
      || (role == SalesAgent && IsSalesRoute(path))
      || (role == SupportAgent && IsSupportRoute(path))
      || (role == HrAgent && IsHrRoute(path))
      || (role == Agent && (IsSupportRoute(path) || IsSalesRoute(path)))
    case ClientLayout => role in {Client, Admin, SuperAdmin}
    case AgentLayout => role in {SuperAdmin, Admin, Agent, SalesAgent, SupportAgent, HrAgent}
    case EmployeeLayout => role != Client
    case SuperAdminLayout => role == SuperAdmin || !Contains(path, "/super-admin")
    case HrLayout => role in {HrAgent, Admin, SuperAdmin}
    case NoLayout => true
  }

  /** Where the layout sends a visitor whose user it knows or cannot find out. */
  function Destination(layout: Layout, visitor: Option<PrimaryRole>, path: string): Option<string> {
    match visitor
    case None => if layout == NoLayout then None else Some("/login")
    case Some(role) =>
      if Allows(layout, role, path) || (layout == AdminLayout && path == RoleHome(role)) then None else Some(RoleHome(role))
  }

  /** The user of the store, else the one in session storage, else the one /auth/me answers with. */
  function Known(memory: Option<seq<string>>, stored: Option<seq<string>>, me: Option<seq<string>>): Option<seq<string>> {
    if memory.Some? then memory else if stored.Some? then stored else me
  }

  function Visitor(user: Option<seq<string>>): Option<PrimaryRole> {
    if user.Some? then Some(GetPrimaryRole(user.value)) else None
  }

  /** Whether a mounted layout runs its effect again when the path changes within it. */
  predicate RunsAgain(layout: Layout, from: string, to: string) {
    layout == SuperAdminLayout && from != to
  }

  /** The loading flag after the effect: it stays set only for a user who was in memory or storage and is
      not let in. */
  predicate LoadingAfter(layout: Layout, before: bool, hadUser: bool, visitor: Option<PrimaryRole>, path: string) {
    before && hadUser && visitor.Some? && !Allows(layout, visitor.value, path)
  }

  /** A guarding layout from its mount on; users are given by their roles. */
  class MountedLayout {
    const layout: Layout
    var path: string
    var user: Option<seq<string>>
    var stored: Option<seq<string>>
    var isInitializing: bool

    constructor (layout: Layout, path: string, memory: Option<seq<string>>, stored: Option<seq<string>>)
      ensures this.layout == layout && this.path == path && user == memory && this.stored == stored
      ensures isInitializing == user.None?
    {
      this.layout, this.path, this.user, this.stored := layout, path, memory, stored;
      isInitializing := memory.None?;
    }

    method HydrateFromStorage()
      modifies this`user
      ensures user == Known(old(user), stored, None)
    {
      if user.None? && stored.Some? {
        user := stored;
      }
    }

    /** The guard of the admin layout, by role and path. */
    method GuardAdminPage(primary: PrimaryRole) returns (destination: Option<string>)
      requires layout == AdminLayout
      modifies this`isInitializing
      ensures destination == Destination(layout, Some(primary), path)
      ensures isInitializing == (old(isInitializing) && !Allows(layout, primary, path))
    {
      hide RoleHome;
      destination := None;
      if primary == SuperAdmin || primary == Admin {
        isInitializing := false;
        return;
      }
      if primary == SalesAgent && ("/crm" <= path || "/leads-inbox" <= path) {
        isInitializing := false;
        return;
      }
      if primary == SupportAgent && "/tickets" <= path {
        isInitializing := false;
        return;
      }
      if primary == HrAgent && ("/hr" <= path || "/payroll" <= path) {
        isInitializing := false;
        return;
      }
      if primary == Agent && ("/tickets" <= path || "/crm" <= path || "/leads-inbox" <= path) {
        isInitializing := false;
        return;
      }
      var homeRoute := RoleHome(primary);
      if path != homeRoute {
        destination := Some(homeRoute);
      }
    }

    /** The guards of the other layouts. */
    method GuardPage(primary: PrimaryRole) returns (destination: Option<string>)
      requires layout != NoLayout && layout != AdminLayout
      modifies this`isInitializing
      ensures destination == Destination(layout, Some(primary), path)
      ensures isInitializing == (old(isInitializing) && !Allows(layout, primary, path))
    {
      hide RoleHome, Contains;
      match layout {
        case ClientLayout =>
          if primary != Client && primary != Admin && primary != SuperAdmin {
            return Some(RoleHome(primary));
          }
        case AgentLayout =>
          if primary !in [SuperAdmin, Admin, Agent, SalesAgent, SupportAgent, HrAgent] {
            return Some(RoleHome(primary));
          }
        case EmployeeLayout =>
          if primary !in [SuperAdmin, Admin, Employee, Agent, SalesAgent, SupportAgent, HrAgent] {
            return Some(RoleHome(primary));
          }
        case SuperAdminLayout =>
          if primary != SuperAdmin && Contains(path, "/super-admin") {
            return Some(RoleHome(primary));
          }
        case HrLayout =>
          if primary != HrAgent && primary != Admin && primary != SuperAdmin {
            return Some(RoleHome(primary));
          }
      }
      isInitializing := false;
      destination := None;
    }

    /** `restoreSession`: where the router is sent; `me` is None when /auth/me fails or names no user. */
    method RestoreSession(me: Option<seq<string>>) returns (destination: Option<string>)
      requires layout != NoLayout
      modifies this
      ensures path == old(path) && user == Known(old(user), old(stored), me)
      ensures stored == if old(user).Some? then old(stored) else user
      ensures destination == Destination(layout, Visitor(user), path)
      ensures isInitializing == LoadingAfter(layout, old(isInitializing), old(user).Some? || old(stored).Some?, Visitor(user), path)
    {
      hide GetPrimaryRole, Allows, RoleHome;
      HydrateFromStorage();
      var currentUser := user;
      if currentUser.None? {
        if me.Some? {
          user, stored, currentUser := me, me, me;
        } else {
          user, stored := None, None;
          isInitializing := false;
          return Some("/login");
        }
        isInitializing := false;
      }
      var primary := GetPrimaryRole(currentUser.value);
      if layout == AdminLayout {
        destination := GuardAdminPage(primary);
      } else {
        destination := GuardPage(primary);
      }
    }

    /** A navigation that stays within the layout: its effect runs again only in the super-admin layout,
        whose effect depends on the path. */
    method Navigate(newPath: string, me: Option<seq<string>>) returns (destination: Option<string>)
      requires layout != NoLayout
      modifies this
      ensures path == newPath
      ensures RunsAgain(layout, old(path), newPath) ==>
        && user == Known(old(user), old(stored), me)
        && destination == Destination(layout, Visitor(user), path)
        && isInitializing == LoadingAfter(layout, old(isInitializing), old(user).Some? || old(stored).Some?, Visitor(user), path)
      ensures !RunsAgain(layout, old(path), newPath) ==>
        destination == None && user == old(user) && stored == old(stored) && isInitializing == old(isInitializing)
    {
      var before := path;
      path := newPath;
      destination := None;
      if layout == SuperAdminLayout && newPath != before {
        destination := RestoreSession(me);
      }
    }
  }
}
