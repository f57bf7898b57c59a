/** Where a visitor comes to rest when the proxy and the layouts' guards each send them to pages of the
    other. A layout runs its guard when it is mounted, and stays mounted while the pages shown are its
    own; navigations that the proxy redirects mount nothing in between. */
module Navigation {
  import opened Common
  import opened Roles
  import opened Proxy
  import opened Guards

  /** What is on the screen: a page, and whether its layout still shows the loading screen. */
  datatype Screen = Screen(page: string, loading: bool)

  /** A request for a page, from a screen (None for a fresh load), with or without the user in memory. */
  datatype Visit = Visit(path: string, screen: Option<Screen>, known: bool)

  /** The role of the user the layouts find, if any, whether the user is in session storage, and the layout
      of each page. */
  datatype Setting = Setting(visitor: Option<PrimaryRole>, stored: bool, layoutOf: string -> Layout)

  /** Where the pages that matter stand in the application's folders; the others may be anywhere. */
  predicate Placed(layoutOf: string -> Layout) {
    && layoutOf("/super-admin") == SuperAdminLayout
    && layoutOf("/dashboard") == AdminLayout && layoutOf("/crm") == AdminLayout && layoutOf("/tickets") == AdminLayout
    && layoutOf("/hr") == HrLayout
    && layoutOf("/agent/dashboard") == AgentLayout
    && layoutOf("/attendance") == EmployeeLayout
    && layoutOf("/client/dashboard") == ClientLayout
    && layoutOf("/login") == NoLayout
  }

  predicate Mounts(x: Setting, v: Visit) {
    v.screen.None? || x.layoutOf(v.screen.value.page) != x.layoutOf(v.path)
  }

  predicate GuardRuns(x: Setting, v: Visit) {
    Mounts(x, v) || RunsAgain(x.layoutOf(v.path), v.screen.value.page, v.path)
  }

  /** The screen once the page is shown and its guard, if it runs, is done. */
  function Shown(x: Setting, v: Visit): Screen {
    var before := if Mounts(x, v) then !v.known else v.screen.value.loading;
    var layout := x.layoutOf(v.path);
    Screen(v.path,
      if layout == NoLayout then false
      else if GuardRuns(x, v) then LoadingAfter(layout, before, v.known || x.stored, x.visitor, v.path)
      else before)
  }

  predicate Redirected(session: Option<PrimaryRole>, path: string) {
    IsMatched(path) && Decide(session, path).Redirect?
  }

  /** The visit that follows, None if the visitor comes to rest: first the proxy decides, then the guard. */
  function Next(session: Option<PrimaryRole>, x: Setting, v: Visit): Option<Visit> {
    if Redirected(session, v.path) then Some(v.(path := Decide(session, v.path).path))
    else if !GuardRuns(x, v) then None
    else
      match Destination(x.layoutOf(v.path), x.visitor, v.path)
      case None => None
      case Some(path) => Some(Visit(path, Some(Shown(x, v)), x.visitor.Some?))
  }

  /** Would the layout of the page let the visitor in? */
  predicate LetsIn(x: Setting, path: string) {
    Destination(x.layoutOf(path), x.visitor, path).None?
  }

  // ----- Homes and the login page -----

  lemma HomeIsAllowed(layoutOf: string -> Layout, role: PrimaryRole)
    requires Placed(layoutOf)
    ensures Allows(layoutOf(RoleHome(role)), role, RoleHome(role))
  {
    assert "/crm"[..4] == "/crm" && "/tickets"[..8] == "/tickets";
  }

  /** Where the proxy sends whoever may not stay. */
  function Target(session: Option<PrimaryRole>): string {
    if session.Some? then RoleHome(session.value) else "/login"
  }

  lemma ProxyRedirects(session: Option<PrimaryRole>, path: string)
    ensures Redirected(session, path) <==> IsMatched(path) && !MayStay(session, path)
    ensures Redirected(session, path) ==> Decide(session, path).path == if path == "/logout" then "/login" else Target(session)
  {
    hide IsMatched, MayStay, IsProtected, RoleHome;
  }

  /** Nobody is sent away from the page the proxy itself sends them to. */
  lemma TargetStays(session: Option<PrimaryRole>)
    ensures !Redirected(session, Target(session)) && Target(session) != "/logout"
    ensures session.Some? ==> Redirected(session, "/login") && Decide(session, "/login") == Redirect(Target(session), None, false)
  {
    LoginIsMatched();
    LoginIsOpen();
    if session.Some? {
      HomeIsReached(session.value);
    }
    assert IsEntry("/login");
    hide IsMatched, IsEntry, IsProtected, Permits, RoleHome;
  }

  lemma HomeIsRedirectedOrAllowed(session: Option<PrimaryRole>, x: Setting)
    requires Placed(x.layoutOf) && x.visitor.Some?
    ensures var home := RoleHome(x.visitor.value);
      && home != "/logout" && home != "/login" && LetsIn(x, home)
      && (Redirected(session, home) <==> !MayStay(session, home))
      && (session.None? ==> Redirected(session, home))
  {
    var role := x.visitor.value;
    HomeIsReached(role);
    HomeIsMatched(role);
    HomeIsProtected(role);
    HomeIsAllowed(x.layoutOf, role);
    assert RoleHome(role) != "/login";
    ProxyRedirects(session, RoleHome(role));
    hide IsMatched, IsProtected, RoleHome, Allows, IsEntry, Permits, Redirected;
  }

  /** Where a guard sends a visitor. */
  lemma GuardSends(x: Setting, path: string)
    requires !LetsIn(x, path)
    ensures Destination(x.layoutOf(path), x.visitor, path) == Some(Target(x.visitor)) && x.layoutOf(path) != NoLayout
  {
    hide RoleHome;
  }

  // ----- A visitor always comes to rest -----

  /** How many moves can still follow. */
  function Rank(session: Option<PrimaryRole>, x: Setting, v: Visit): nat {
    if Next(session, x, v).None? then 0
    else if v.path == "/logout" then 4
    else if Redirected(session, v.path) then
      if v.screen.Some? && v.screen.value.page == Target(session) then 1 else 3
    else if v.path == Target(session) then 2
    else 4
  }

  /** At the proxy's target with the same page on the screen nothing happens. */
  lemma BackAtTarget(session: Option<PrimaryRole>, x: Setting, v: Visit)
    requires v.path == Target(session) && v.screen.Some? && v.screen.value.page == v.path
    ensures Next(session, x, v) == None
  {
    TargetStays(session);
    hide Target, Redirected, Destination;
  }

  /** Whoever is sent to the target of their own user by a guard is let in there or redirected. */
  lemma SentByGuard(session: Option<PrimaryRole>, x: Setting, v: Visit)
    requires Placed(x.layoutOf) && v.path == Target(x.visitor)
    ensures Redirected(session, v.path) || Next(session, x, v) == None
    ensures v.path != "/logout"
  {
    if x.visitor.Some? {
      HomeIsRedirectedOrAllowed(session, x);
    } else {
      LoginIsOpen();
    }
    hide Redirected, RoleHome, Allows;
  }

  lemma RankFalls(session: Option<PrimaryRole>, x: Setting, v: Visit)
    requires Placed(x.layoutOf) && Next(session, x, v).Some?
    ensures Rank(session, x, Next(session, x, v).value) < Rank(session, x, v) <= 4
  {
    var n := Next(session, x, v).value;
    ProxyRedirects(session, v.path);
    TargetStays(session);
    if Redirected(session, v.path) {
      if v.path == "/logout" {
        assert n.path == "/login";
      } else {
        assert n.path == Target(session) && n.screen == v.screen;
        if v.screen.Some? && v.screen.value.page == Target(session) {
          BackAtTarget(session, x, n);
        }
      }
    } else {
      GuardSends(x, v.path);
      SentByGuard(session, x, n);
      assert n.screen.value.page == v.path;
    }
    hide Next, Redirected, Target, Destination, Shown, Placed;
  }

  /** The visit at which the visitor comes to rest. */
  ghost function Rest(session: Option<PrimaryRole>, x: Setting, v: Visit): (r: Visit)
    requires Placed(x.layoutOf)
    decreases Rank(session, x, v)
  {
    if Next(session, x, v).None? then v
    else
      RankFalls(session, x, v);
      Rest(session, x, Next(session, x, v).value)
  }

  /** The visit after k moves, None if the visitor came to rest before. */
  function After(session: Option<PrimaryRole>, x: Setting, v: Visit, k: nat): Option<Visit>
    decreases k
  {
    if k == 0 then Some(v)
    else
      match Next(session, x, v)
      case None => None
      case Some(next) => After(session, x, next, k - 1)
  }

  /** Every visitor comes to rest after at most four moves: from every page and screen, for every token and
      every user the layouts find or fail to find. */
  lemma AlwaysRests(session: Option<PrimaryRole>, x: Setting, v: Visit)
    requires Placed(x.layoutOf)
    ensures After(session, x, v, 5) == None
  {
    RestsInRank(session, x, v, 5);
  }

  lemma {:induction false} RestsInRank(session: Option<PrimaryRole>, x: Setting, v: Visit, k: nat)
    requires Placed(x.layoutOf) && Rank(session, x, v) < k
    ensures After(session, x, v, k) == None
    decreases k
  {
    hide Rank, Next, Placed;
    if Next(session, x, v).Some? {
      RankFalls(session, x, v);
      RestsInRank(session, x, Next(session, x, v).value, k - 1);
    }
  }

  // ----- Where the visitor rests -----

  /** The roles a user may have in the store for each role in an unexpired token. */
  predicate Compatible(session: PrimaryRole, visitor: PrimaryRole) {
    match session
    case SuperAdmin => true
    case Admin => true
    case SalesAgent => visitor in {SuperAdmin, Admin, SalesAgent, Agent}
    case SupportAgent => visitor in {SuperAdmin, Admin, SupportAgent, Agent}
    case HrAgent => visitor in {SuperAdmin, Admin, HrAgent, Agent}
    case Agent => visitor in {SuperAdmin, Admin, SalesAgent, SupportAgent, HrAgent, Agent}
    case Employee => visitor != Client
    case Client => visitor in {SuperAdmin, Admin, Client}
  }

  lemma MayStayAtHome(session: PrimaryRole, visitor: PrimaryRole)
    ensures MayStay(Some(session), RoleHome(visitor)) <==>
      match session
      case SuperAdmin => true
      case Admin => visitor != SuperAdmin
      case SalesAgent => visitor in {SalesAgent, Agent}
      case SupportAgent => visitor in {SupportAgent, Agent}
      case HrAgent => visitor in {HrAgent, Agent}
      case Agent => visitor in {SalesAgent, SupportAgent, Agent}
      case Employee => visitor == Employee
      case Client => visitor == Client
  {
    HomeIsNoEntry(visitor);
    HomeRoutes(visitor);
    hide RoleHome, IsEntry;
    hide IsSuperAdminRoute, IsClientRoute, IsAgentRoute, IsEmployeeRoute, IsSalesRoute, IsSupportRoute, IsHrRoute;
  }

  lemma AllowedAtHome(layoutOf: string -> Layout, session: PrimaryRole, visitor: PrimaryRole)
    requires Placed(layoutOf) && session != SuperAdmin
    ensures Allows(layoutOf(RoleHome(session)), visitor, RoleHome(session)) <==>
      match session
      case SuperAdmin => true
      case Admin => visitor in {SuperAdmin, Admin}
      case SalesAgent => visitor in {SuperAdmin, Admin, SalesAgent, Agent}
      case SupportAgent => visitor in {SuperAdmin, Admin, SupportAgent, Agent}
      case HrAgent => visitor in {SuperAdmin, Admin, HrAgent}
      case Agent => visitor in {SuperAdmin, Admin, SalesAgent, SupportAgent, HrAgent, Agent}
      case Employee => visitor != Client
      case Client => visitor in {SuperAdmin, Admin, Client}
  {
    HomeRoutes(session);
    hide IsSalesRoute, IsSupportRoute, IsHrRoute, Contains;
  }

  /** Compatible roles are those for which one of the two homes is open to both guards. */
  lemma CompatibleIs(layoutOf: string -> Layout, session: PrimaryRole, visitor: PrimaryRole)
    requires Placed(layoutOf)
    ensures Compatible(session, visitor) <==>
      Allows(layoutOf(RoleHome(session)), visitor, RoleHome(session)) || MayStay(Some(session), RoleHome(visitor))
  {
    hide Placed, RoleHome, Allows, MayStay;
    MayStayAtHome(session, visitor);
    if session != SuperAdmin {
      AllowedAtHome(layoutOf, session, visitor);
    }
  }

  lemma HomeIsNoEntry(role: PrimaryRole)
    ensures !IsEntry(RoleHome(role)) && RoleHome(role) != "/logout"
  {
    HomeIsReached(role);
  }

  /** The kinds of path each home belongs to. */
  lemma HomeRoutes(role: PrimaryRole)
    ensures var home := RoleHome(role);
      && IsSuperAdminRoute(home) == (role == SuperAdmin) && IsClientRoute(home) == (role == Client)
      && IsAgentRoute(home) == (role == Agent) && IsEmployeeRoute(home) == (role == Employee)
      && IsSalesRoute(home) == (role == SalesAgent) && IsSupportRoute(home) == (role == SupportAgent)
      && IsHrRoute(home) == (role == HrAgent)
  {
    var home := RoleHome(role);
    assert "/super-admin"[..12] == "/super-admin" && "/crm"[..4] == "/crm" && "/tickets"[..8] == "/tickets" && "/hr"[..3] == "/hr";
    assert "/agent/dashboard"[..6] == "/agent" && "/attendance"[..11] == "/attendance" && "/client/dashboard"[..7] == "/client";
    assert "/super-admin"[1] == 's' && "/client"[1] == 'c' && "/agent"[1] == 'a' && "/employee"[1] == 'e' && "/attendance"[1] == 'a' && "/leave"[1] == 'l';
    assert "/payslips"[1] == 'p' && "/crm"[1] == 'c' && "/leads-inbox"[1] == 'l' && "/tickets"[1] == 't' && "/hr"[1] == 'h' && "/payroll"[1] == 'p' && "/dashboard"[1] == 'd';
    assert "/client"[2] == 'l' && "/crm"[2] == 'r' && "/agent"[2] == 'g' && "/attendance"[2] == 't';
  }

  lemma HomesDiffer(one: PrimaryRole, other: PrimaryRole)
    requires RoleHome(one) == RoleHome(other)
    ensures one == other
  {
    HomeRoutes(one);
    HomeRoutes(other);
    hide IsSuperAdminRoute, IsClientRoute, IsAgentRoute, IsEmployeeRoute, IsSalesRoute, IsSupportRoute, IsHrRoute;
  }

  /** A fresh load: nothing is on the screen yet. */
  function Fresh(path: string, known: bool): Visit {
    Visit(path, None, known)
  }

  /** Along a navigation that began with a fresh load, whatever is on the screen was left for the user's own
      home, and a redirect from there means that the token does not open it. */
  predicate OnTheWay(session: PrimaryRole, visitor: PrimaryRole, v: Visit) {
    v.screen.Some? ==>
      v.path == RoleHome(visitor) || (v.path == RoleHome(session) && !MayStay(Some(session), RoleHome(visitor)))
  }

  lemma OnTheWayNext(session: PrimaryRole, x: Setting, v: Visit)
    requires Placed(x.layoutOf) && x.visitor.Some? && OnTheWay(session, x.visitor.value, v)
    requires Next(Some(session), x, v).Some?
    ensures OnTheWay(session, x.visitor.value, Next(Some(session), x, v).value)
  {
    ProxyRedirects(Some(session), v.path);
    HomeIsRedirectedOrAllowed(Some(session), x);
    TargetStays(Some(session));
    HomeIsReached(session);
    if Redirected(Some(session), v.path) {
      hide Redirected, MayStay, RoleHome, Placed;
    } else {
      GuardSends(x, v.path);
      hide Redirected, MayStay, RoleHome, Placed;
    }
  }

  /** With compatible roles the page of rest is open to both guards. */
  lemma {:induction false} CompatibleIsLetIn(session: PrimaryRole, x: Setting, v: Visit)
    requires Placed(x.layoutOf) && x.visitor.Some? && Compatible(session, x.visitor.value)
    requires OnTheWay(session, x.visitor.value, v)
    ensures LetsIn(x, Rest(Some(session), x, v).path)
    decreases Rank(Some(session), x, v)
  {
    if Next(Some(session), x, v).Some? {
      RankFalls(Some(session), x, v);
      OnTheWayNext(session, x, v);
      hide Next, Rank, OnTheWay, LetsIn, Compatible, Placed;
      CompatibleIsLetIn(session, x, Next(Some(session), x, v).value);
    } else {
      CompatibleIs(x.layoutOf, session, x.visitor.value);
      HomeIsRedirectedOrAllowed(Some(session), x);
      hide Redirected, MayStay, RoleHome, Placed, Compatible, Allows;
    }
  }

  /** With other roles, or without a user, a load of the home of the token's role comes to rest at that very
      home, whose layout does not let the visitor in; the loading screen stays if the user came from
      session storage. */
  lemma IncompatibleRests(session: PrimaryRole, x: Setting, known: bool)
    requires Placed(x.layoutOf) && !(x.visitor.Some? && Compatible(session, x.visitor.value)) && (known ==> x.visitor.Some?)
    ensures var r := Rest(Some(session), x, Fresh(RoleHome(session), known));
      && r.path == RoleHome(session) && !LetsIn(x, r.path)
      && Shown(x, r).loading == (x.visitor.Some? && x.stored && !known)
  {
    hide Next, Redirected, Shown, Target, LetsIn, RoleHome, Placed, Compatible;
    var home := RoleHome(session);
    var v := Fresh(home, known);
    var away, back := RefusedAndAway(session, x, known);
    RefusedAtHome(session, x);
    assert Rest(Some(session), x, away) == back;
    assert Rest(Some(session), x, v) == back;
  }

  /** The two moves of a refused visitor: away to where their user belongs, and back by the proxy. */
  lemma RefusedAndAway(session: PrimaryRole, x: Setting, known: bool) returns (away: Visit, back: Visit)
    requires Placed(x.layoutOf) && !(x.visitor.Some? && Compatible(session, x.visitor.value)) && (known ==> x.visitor.Some?)
    ensures Next(Some(session), x, Fresh(RoleHome(session), known)) == Some(away)
    ensures Next(Some(session), x, away) == Some(back) && Next(Some(session), x, back) == None
    ensures back.path == RoleHome(session) && Shown(x, back).loading == (x.visitor.Some? && x.stored && !known)
  {
    var home := RoleHome(session);
    var v := Fresh(home, known);
    RefusedAtHome(session, x);
    GuardSends(x, home);
    TargetStays(Some(session));
    AwayIsRedirected(session, x);
    hide Redirected, RoleHome, Placed, Compatible, Allows, Decide;
    away := Visit(Target(x.visitor), Some(Shown(x, v)), x.visitor.Some?);
    back := away.(path := home);
    BackAtTarget(Some(session), x, back);
  }

  lemma AwayIsRedirected(session: PrimaryRole, x: Setting)
    requires Placed(x.layoutOf) && !(x.visitor.Some? && Compatible(session, x.visitor.value))
    ensures Redirected(Some(session), Target(x.visitor)) && Decide(Some(session), Target(x.visitor)).path == RoleHome(session)
  {
    TargetStays(Some(session));
    if x.visitor.Some? {
      CompatibleIs(x.layoutOf, session, x.visitor.value);
      HomeIsRedirectedOrAllowed(Some(session), x);
      ProxyRedirects(Some(session), Target(x.visitor));
    }
    hide Redirected, MayStay, RoleHome, Placed, Compatible, Allows;
  }

  lemma RefusedAtHome(session: PrimaryRole, x: Setting)
    requires Placed(x.layoutOf) && !(x.visitor.Some? && Compatible(session, x.visitor.value))
    ensures !LetsIn(x, RoleHome(session)) && x.layoutOf(RoleHome(session)) != NoLayout
    ensures x.visitor.Some? ==> !Allows(x.layoutOf(RoleHome(session)), x.visitor.value, RoleHome(session))
  {
    if x.visitor.Some? {
      CompatibleIs(x.layoutOf, session, x.visitor.value);
      if RoleHome(session) == RoleHome(x.visitor.value) {
        HomesDiffer(session, x.visitor.value);
        HomeIsAllowed(x.layoutOf, session);
      }
    }
    hide MayStay, Allows, Compatible;
  }

  /** With an unexpired token that survives, every fresh load comes to rest at a page that both guards open to
      the visitor if and only if the layouts find a user whose role is compatible with the token's. Whether
      the page or the loading screen is then seen is another matter. */
  lemma RestsLetInExactly(session: PrimaryRole, x: Setting)
    requires Placed(x.layoutOf)
    ensures (forall path, known :: (known ==> x.visitor.Some?) ==> LetsIn(x, Rest(Some(session), x, Fresh(path, known)).path))
      <==> x.visitor.Some? && Compatible(session, x.visitor.value)
  {
    if x.visitor.Some? && Compatible(session, x.visitor.value) {
      forall path, known
        ensures LetsIn(x, Rest(Some(session), x, Fresh(path, known)).path)
      {
        CompatibleIsLetIn(session, x, Fresh(path, known));
      }
    } else {
      IncompatibleRests(session, x, false);
      hide LetsIn, Placed, Compatible;
      assert !LetsIn(x, Rest(Some(session), x, Fresh(RoleHome(session), false)).path);
    }
  }

  /** At rest the proxy does not redirect. */
  lemma {:induction false} RestIsNotRedirected(session: Option<PrimaryRole>, x: Setting, v: Visit)
    requires Placed(x.layoutOf)
    ensures Next(session, x, Rest(session, x, v)) == None && !Redirected(session, Rest(session, x, v).path)
    decreases Rank(session, x, v)
  {
    if Next(session, x, v).Some? {
      RankFalls(session, x, v);
      hide Rank, Next, Redirected, Placed;
      RestIsNotRedirected(session, x, Next(session, x, v).value);
    }
  }

  // ----- One role in token and store -----

  /** With one role in the token and in the store, one move leads home, and there the visitor stays. */
  lemma OneMoveLeadsHome(x: Setting, role: PrimaryRole, v: Visit)
    requires Placed(x.layoutOf) && x.visitor == Some(role) && v.path != "/logout"
    ensures var next := Next(Some(role), x, v); next.Some? ==> next.value.path == RoleHome(role)
    ensures v.path == RoleHome(role) ==> Next(Some(role), x, v) == None && Allows(x.layoutOf(v.path), role, v.path)
  {
    ProxyRedirects(Some(role), v.path);
    TargetStays(Some(role));
    HomeIsAllowed(x.layoutOf, role);
    hide Redirected, Allows, RoleHome, Placed;
  }

  /** Without a token the login page is where everyone stays. */
  lemma LoginStays(x: Setting, v: Visit)
    requires Placed(x.layoutOf) && v.path == "/login"
    ensures Next(None, x, v) == None
  {
    TargetStays(None);
    hide Redirected;
  }

  // ----- What a fresh load ends with -----

  /** The first page shown after a load. */
  function FirstPage(session: Option<PrimaryRole>, path: string): string {
    if Redirected(session, path) then Target(session) else path
  }

  /** The page shown after a guard has sent the visitor where their user belongs. */
  function SecondPage(session: Option<PrimaryRole>, x: Setting): string {
    if Redirected(session, Target(x.visitor)) then Target(session) else Target(x.visitor)
  }

  /** The user comes from session storage into a layout mounted without it. */
  predicate Unready(x: Setting, known: bool) {
    x.visitor.Some? && x.stored && !known
  }

  lemma RestOneOn(session: Option<PrimaryRole>, x: Setting, v: Visit)
    requires Placed(x.layoutOf) && Redirected(session, v.path) && v.path != "/logout"
    ensures Rest(session, x, v) == Rest(session, x, v.(path := Target(session)))
  {
    ProxyRedirects(session, v.path);
    hide Redirected, Target, MayStay, Placed, Shown, Destination;
    assert Next(session, x, v) == Some(v.(path := Target(session)));
    hide Next;
  }

  /** The redirects that precede the first page mount nothing. */
  lemma ToFirstPage(session: Option<PrimaryRole>, x: Setting, path: string, known: bool)
    requires Placed(x.layoutOf)
    ensures Rest(session, x, Fresh(path, known)) == Rest(session, x, Fresh(FirstPage(session, path), known))
    ensures !Redirected(session, FirstPage(session, path))
  {
    TargetStays(session);
    if Redirected(session, path) {
      if path == "/logout" {
        LogoutToLogin(session, x, known);
        if session.Some? {
          RestOneOn(session, x, Fresh("/login", known));
        }
      } else {
        RestOneOn(session, x, Fresh(path, known));
      }
    }
    hide Rest, Redirected, RoleHome, Placed;
  }

  lemma LogoutToLogin(session: Option<PrimaryRole>, x: Setting, known: bool)
    requires Placed(x.layoutOf)
    ensures Rest(session, x, Fresh("/logout", known)) == Rest(session, x, Fresh("/login", known))
  {
    LoginIsMatched();
    assert Next(session, x, Fresh("/logout", known)) == Some(Fresh("/login", known)) by {
      hide IsMatched, Placed, Shown, Destination, IsProtected, RoleHome;
    }
    hide Next, Placed, IsMatched;
  }

  lemma LetsInIsAllows(x: Setting, path: string)
    requires Placed(x.layoutOf) && x.visitor.Some?
    ensures LetsIn(x, path) <==> Allows(x.layoutOf(path), x.visitor.value, path)
  {
    HomeIsAllowed(x.layoutOf, x.visitor.value);
    hide Allows, RoleHome, Placed;
  }

  /** No guard of the super-admin layout sends a known user to another page of that layout. */
  lemma NotWithinSuperAdmin(session: Option<PrimaryRole>, x: Setting, p: string)
    requires Placed(x.layoutOf) && x.visitor.Some? && !LetsIn(x, p) && x.layoutOf(p) == SuperAdminLayout
    ensures x.layoutOf(SecondPage(session, x)) != SuperAdminLayout
  {
    var role := x.visitor.value;
    LetsInIsAllows(x, p);
    assert role != SuperAdmin;
    HomeIsRedirectedOrAllowed(session, x);
    if session.Some? {
      MayStayAtHome(session.value, role);
    }
    hide Redirected, Allows, MayStay, LetsIn;
  }

  /** Arriving at the second page with the first on the screen. */
  lemma AtSecondPage(session: Option<PrimaryRole>, x: Setting, p: string, loading: bool)
    requires Placed(x.layoutOf) && !LetsIn(x, p) && (loading ==> x.visitor.Some?)
    ensures var q := SecondPage(session, x);
      var r := Rest(session, x, Visit(q, Some(Screen(p, loading)), x.visitor.Some?));
      && r.path == q
      && Shown(x, r).loading == (loading && x.layoutOf(q) == x.layoutOf(p))
  {
    var q := SecondPage(session, x);
    var v := Visit(q, Some(Screen(p, loading)), x.visitor.Some?);
    GuardSends(x, p);
    TargetStays(session);
    if x.visitor.Some? && x.layoutOf(p) == SuperAdminLayout {
      NotWithinSuperAdmin(session, x, p);
    }
    SentByGuard(session, x, v.(path := Target(x.visitor)));
    SecondShown(x, v, p, loading);
    if Next(session, x, v).Some? {
      SecondRefused(session, x, v);
    }
    hide Next, Redirected, Target, Placed, LetsIn, Shown;
  }

  /** The loading flag at the second page: only the flag of the same mounted layout can stay set. */
  lemma SecondShown(x: Setting, v: Visit, p: string, loading: bool)
    requires v.screen == Some(Screen(p, loading)) && v.known == x.visitor.Some? && (loading ==> x.visitor.Some?)
    requires x.layoutOf(p) != NoLayout
    requires x.visitor.Some? && x.layoutOf(p) == SuperAdminLayout ==> x.layoutOf(v.path) != SuperAdminLayout
    ensures Shown(x, v).loading == (loading && x.layoutOf(v.path) == x.layoutOf(p))
  {
    hide Allows;
  }

  /** Refused at the second page too, the visitor is sent away and comes straight back. */
  lemma SecondRefused(session: Option<PrimaryRole>, x: Setting, v: Visit)
    requires Placed(x.layoutOf) && v.path == SecondPage(session, x) && Next(session, x, v).Some?
    ensures var r := Rest(session, x, v);
      r.path == v.path && Shown(x, r).loading == Shown(x, v).loading
  {
    TargetStays(session);
    SentByGuard(session, x, v.(path := Target(x.visitor)));
    if !Redirected(session, Target(x.visitor)) {
      SentByGuard(session, x, v);
    }
    assert Redirected(session, Target(x.visitor)) && v.path == Target(session);
    var away := Visit(Target(x.visitor), Some(Shown(x, v)), x.visitor.Some?);
    assert Next(session, x, v) == Some(away) by {
      if LetsIn(x, v.path) {} else { GuardSends(x, v.path); }
      hide Redirected, Target, Placed;
    }
    var back := away.(path := v.path);
    RestOneOn(session, x, away);
    BackAtTarget(session, x, back);
    BackShown(x, back, v);
    hide Next, Redirected, Target, Placed, Shown;
  }

  lemma BackShown(x: Setting, back: Visit, v: Visit)
    requires back.path == v.path && back.screen == Some(Shown(x, v))
    ensures Shown(x, back).loading == Shown(x, v).loading
  {
    hide Allows;
  }

  /** Every fresh load: the visitor rests at the first page if its layout lets them in, else at the second; the
      loading screen stays exactly when the first page is refused to a user who came from session storage and
      the second page is under the same mounted layout. */
  lemma FreshLoadEnds(session: Option<PrimaryRole>, x: Setting, path: string, known: bool)
    requires Placed(x.layoutOf) && (known ==> x.visitor.Some?)
    ensures var p, q := FirstPage(session, path), SecondPage(session, x);
      var r := Rest(session, x, Fresh(path, known));
      && r.path == (if LetsIn(x, p) then p else q)
      && Shown(x, r).loading == (Unready(x, known) && !LetsIn(x, p) && x.layoutOf(q) == x.layoutOf(p))
  {
    var p, q := FirstPage(session, path), SecondPage(session, x);
    var v := Fresh(p, known);
    ToFirstPage(session, x, path, known);
    FirstShown(x, v);
    if !LetsIn(x, p) {
      GuardSends(x, p);
      var sent := Visit(Target(x.visitor), Some(Screen(p, Unready(x, known))), x.visitor.Some?);
      assert Next(session, x, v) == Some(sent) by { hide Redirected, Target, Placed, LetsIn; }
      assert Rest(session, x, v) == Rest(session, x, sent);
      SentByGuard(session, x, sent);
      if Redirected(session, Target(x.visitor)) {
        RestOneOn(session, x, sent);
      }
      AtSecondPage(session, x, p, Unready(x, known));
      hide Next, Redirected, Target, Placed, Shown;
    } else {
      assert Next(session, x, v) == None by { hide Redirected, Target, Placed; }
      hide Redirected, Target, Placed, Shown;
    }
  }

  lemma FirstShown(x: Setting, v: Visit)
    requires v.screen == None && Placed(x.layoutOf) && (v.known ==> x.visitor.Some?)
    ensures Shown(x, v) == Screen(v.path, Unready(x, v.known) && !LetsIn(x, v.path))
  {
    if x.visitor.Some? {
      LetsInIsAllows(x, v.path);
    }
    hide Allows, RoleHome, Placed;
  }

  /** The same for a visitor with a user, in terms of the layouts' tables. */
  lemma LoadingStaysExactly(session: Option<PrimaryRole>, x: Setting, role: PrimaryRole, path: string, known: bool)
    requires Placed(x.layoutOf) && x.visitor == Some(role)
    ensures var p, q := FirstPage(session, path), SecondPage(session, x);
      Shown(x, Rest(session, x, Fresh(path, known))).loading <==>
        x.stored && !known && !Allows(x.layoutOf(p), role, p) && x.layoutOf(q) == x.layoutOf(p)
  {
    FreshLoadEnds(session, x, path, known);
    LetsInIsAllows(x, FirstPage(session, path));
    hide Rest, Shown, FirstPage, SecondPage, LetsIn, Allows, Placed;
  }

  /** At rest both guards open the page and it is not behind the loading screen. */
  ghost predicate Sees(session: Option<PrimaryRole>, x: Setting, v: Visit)
    requires Placed(x.layoutOf)
  {
    var r := Rest(session, x, v);
    LetsIn(x, r.path) && !Shown(x, r).loading
  }

  /** The proxy opens the page, its layout refuses the visitor, and sends them to a page of its own. */
  predicate SentNextDoor(session: PrimaryRole, x: Setting, p: string) {
    !Redirected(Some(session), p) && !LetsIn(x, p) && x.layoutOf(SecondPage(Some(session), x)) == x.layoutOf(p)
  }

  /** With an unexpired token that survives, every fresh load ends with a page the visitor sees if and only if
      the layouts find a user with a compatible role and, should that user come from session storage, no
      page that the proxy opens sends them to another page under its own refusing layout. */
  lemma SeesExactly(session: PrimaryRole, x: Setting)
    requires Placed(x.layoutOf)
    ensures (forall path, known :: (known ==> x.visitor.Some?) ==> Sees(Some(session), x, Fresh(path, known)))
      <==> x.visitor.Some? && Compatible(session, x.visitor.value) && (x.stored ==> forall p :: !SentNextDoor(session, x, p))
  {
    RestsLetInExactly(session, x);
    hide LetsIn, Shown, Rest, Compatible, Placed, Redirected;
    if x.visitor.Some? && Compatible(session, x.visitor.value) {
      if x.stored && exists p :: SentNextDoor(session, x, p) {
        var p :| SentNextDoor(session, x, p);
        FreshLoadEnds(Some(session), x, p, false);
        assert !Sees(Some(session), x, Fresh(p, false));
      } else {
        forall path, known
          ensures Sees(Some(session), x, Fresh(path, known))
        {
          FreshLoadEnds(Some(session), x, path, known);
          ToFirstPage(Some(session), x, path, known);
          assert x.stored ==> !SentNextDoor(session, x, FirstPage(Some(session), path));
        }
      }
    } else {
      var path, known :| (known ==> x.visitor.Some?) && !LetsIn(x, Rest(Some(session), x, Fresh(path, known)).path);
      assert !Sees(Some(session), x, Fresh(path, known));
    }
  }

  /** It happens with one role in token and store: the proxy does not look at paths with a dot, so a sales agent
      who loads such a project page is sent to /crm under the same layout, whose loading screen stays. */
  lemma DottedPageLoadsForever(x: Setting)
    requires Placed(x.layoutOf) && x.visitor == Some(SalesAgent) && x.stored && x.layoutOf("/projects/v1.2") == AdminLayout
    ensures var r := Rest(Some(SalesAgent), x, Fresh("/projects/v1.2", false));
      r.path == "/crm" && Shown(x, r).loading
  {
    var path := "/projects/v1.2";
    assert path[12] == '.' && '.' in path;
    assert path[1] == 'p' && "/crm"[1] == 'c' && "/leads-inbox"[1] == 'l';
    assert !IsMatched(path) && !Allows(AdminLayout, SalesAgent, path);
    TargetStays(Some(SalesAgent));
    LetsInIsAllows(x, path);
    FreshLoadEnds(Some(SalesAgent), x, path, false);
    hide IsMatched, Allows, Rest, Shown, LetsIn;
  }

  /** And on plain pages when the token is stronger than the stored user: of an admin's token and a sales or
      support agent's user, /dashboard is opened by the first, refused to the second, and under the layout of
      the second's home. */
  lemma DashboardLoadsForever(session: PrimaryRole, x: Setting)
    requires Placed(x.layoutOf) && x.visitor in {Some(SalesAgent), Some(SupportAgent)} && x.stored && session in {SuperAdmin, Admin}
    ensures Compatible(session, x.visitor.value)
    ensures var r := Rest(Some(session), x, Fresh("/dashboard", false));
      r.path == RoleHome(x.visitor.value) && LetsIn(x, r.path) && Shown(x, r).loading
  {
    var path := "/dashboard";
    assert path == RoleHome(Admin);
    MayStayAtHome(session, Admin);
    MayStayAtHome(session, x.visitor.value);
    ProxyRedirects(Some(session), path);
    HomeRoutes(Admin);
    HomeIsRedirectedOrAllowed(Some(session), x);
    assert !Allows(AdminLayout, x.visitor.value, path);
    LetsInIsAllows(x, path);
    FreshLoadEnds(Some(session), x, path, false);
    hide Redirected, Allows, MayStay, Rest, Shown, LetsIn;
  }

  // ----- The same over time -----

  datatype Stop = Stop(request: Request, screen: Option<Screen>, known: bool)

  function VisitOf(s: Stop): Visit {
    Visit(s.request.path, s.screen, s.known)
  }

  /** The next stop of a visitor: where the proxy sends the request, else where the guard sends it. */
  function Move(s: Stop, now: real, decode: Decoder, x: Setting): Option<Stop> {
    var response := Respond(s.request, now, decode);
    if response.Redirect? then Some(s.(request := Follow(s.request, response)))
    else if !GuardRuns(x, VisitOf(s)) then None
    else
      match Destination(x.layoutOf(s.request.path), x.visitor, s.request.path)
      case None => None
      case Some(path) => Some(Stop(s.request.(path := path), Some(Shown(x, VisitOf(s))), x.visitor.Some?))
  }

  ghost predicate IsTrail(stops: seq<Stop>, times: seq<real>, decode: Decoder, x: Setting) {
    && |stops| == |times| > 0
    && (forall i, j :: 0 <= i < j < |times| ==> times[i] <= times[j])
    && (forall i :: 0 <= i < |stops| - 1 ==> Move(stops[i], times[i], decode, x) == Some(stops[i + 1]))
  }

  /** Every token the request carries lists the user's roles, in any order and spelling. */
  ghost predicate SameRoles(request: Request, decode: Decoder, roles: seq<string>) {
    forall token :: Carries(request, token) ==> decode(token).Some? && NameSet(decode(token).value.roles) == NameSet(roles)
  }

  predicate Carries(request: Request, token: string) {
    || request.access == Some(token)
    || (request.authorization.Some? && "Bearer " <= request.authorization.value && token == request.authorization.value[7..])
  }

  lemma SessionIsUsersRole(request: Request, now: real, decode: Decoder, roles: seq<string>)
    requires SameRoles(request, decode, roles)
    ensures Session(request, now, decode) in {None, Some(GetPrimaryRole(roles))}
  {
    var token := GetAccessToken(request);
    if token.Some? && Session(request, now, decode).Some? {
      assert Carries(request, token.value);
      var held := decode(token.value).value.roles;
      PrimaryRolesAgree(held);
      PrimaryRolesAgree(roles);
      hide GetUserPrimaryRole, GetPrimaryRole, IsPrimary, NameSet;
    }
  }

  lemma MoveIsNext(s: Stop, now: real, decode: Decoder, x: Setting)
    ensures var next := Next(Session(s.request, now, decode), x, VisitOf(s));
      var moved := Move(s, now, decode, x);
      && moved.Some? == next.Some?
      && (moved.Some? ==>
            && VisitOf(moved.value) == next.value
            && moved.value.request.authorization == s.request.authorization
            && moved.value.request.access in {None, s.request.access}
            && (s.request.path != "/logout" ==> moved.value.request == s.request.(path := next.value.path)))
  {
    hide Session, Destination, IsMatched, MayStay, RoleHome, IsProtected, GuardRuns, Shown;
  }

  /** How many moves can still follow for a visitor with one role. */
  function MovesLeft(next: Option<Visit>, path: string): nat {
    if next.None? then 0
    else if path == "/logout" then 3
    else if next.value.path == "/login" then 1
    else 2
  }

  /** Each move uses up one of those left, also when the token expires on the way. */
  lemma MovesRunOut(before: Option<PrimaryRole>, after: Option<PrimaryRole>, role: PrimaryRole, x: Setting, v: Visit)
    requires Placed(x.layoutOf) && x.visitor == Some(role) && before in {None, Some(role)} && after in {None, Some(role)}
    requires v.path != "/logout" && before == None ==> after == None
    requires Next(before, x, v).Some?
    ensures var n := Next(before, x, v).value; MovesLeft(Next(after, x, n), n.path) < MovesLeft(Some(n), v.path)
  {
    var n := Next(before, x, v).value;
    WhereNext(before, role, x, v);
    if Next(after, x, n).Some? {
      WhereNext(after, role, x, n);
    }
    HomeIsRedirectedOrAllowed(None, x);
    ProxyRedirects(None, RoleHome(role));
    if n.path == "/login" {
      LoginStays(x, n);
    } else {
      OneMoveLeadsHome(x, role, n);
    }
    hide Next, MayStay, RoleHome, Placed, Redirected, LetsIn, Decide;
  }

  lemma WhereNext(session: Option<PrimaryRole>, role: PrimaryRole, x: Setting, v: Visit)
    requires Placed(x.layoutOf) && x.visitor == Some(role) && session in {None, Some(role)} && Next(session, x, v).Some?
    ensures var at := Next(session, x, v).value.path;
      && at in {"/login", RoleHome(role)}
      && (at == "/login" && v.path != "/logout" ==> session == None)
      && (session == None && v.path == RoleHome(role) ==> at == "/login")
  {
    ProxyRedirects(session, v.path);
    HomeIsRedirectedOrAllowed(session, x);
    assert RoleHome(role) != "/login";
    if !Redirected(session, v.path) {
      GuardSends(x, v.path);
    }
    hide Redirected, MayStay, RoleHome, Allows, Placed;
  }

  /** With the same roles in token and store the visitor comes to rest after at most three moves, on
      every path, from every screen, with every token and every clock that never goes back. */
  lemma {:induction false} AtMostThreeMoves(stops: seq<Stop>, times: seq<real>, decode: Decoder, roles: seq<string>, x: Setting)
    requires Placed(x.layoutOf) && x.visitor == Some(GetPrimaryRole(roles)) && IsTrail(stops, times, decode, x)
    requires SameRoles(stops[0].request, decode, roles)
    ensures var session := Session(stops[0].request, times[0], decode);
      |stops| - 1 <= MovesLeft(Next(session, x, VisitOf(stops[0])), stops[0].request.path) <= 3
    decreases |stops|
  {
    if |stops| > 1 {
      var role := GetPrimaryRole(roles);
      var rest, later := stops[1..], times[1..];
      var first, second := stops[0].request, stops[1].request;
      assert Move(stops[0], times[0], decode, x) == Some(stops[1]);
      forall i | 0 <= i < |rest| - 1
        ensures Move(rest[i], later[i], decode, x) == Some(rest[i + 1])
      {
        assert rest[i] == stops[i + 1] && later[i] == times[i + 1] && rest[i + 1] == stops[i + 2];
      }
      MoveIsNext(stops[0], times[0], decode, x);
      hide Move, GetPrimaryRole, NameSet, Placed;
      assert SameRoles(second, decode, roles) by {
        assert forall token :: Carries(second, token) ==> Carries(first, token);
      }
      AtMostThreeMoves(rest, later, decode, roles, x);
      SessionIsUsersRole(first, times[0], decode, roles);
      SessionIsUsersRole(second, times[1], decode, roles);
      if first.path != "/logout" {
        SessionOnlyExpires(first, second.path, times[0], times[1], decode);
      }
      hide Session, Next, MovesLeft;
      MovesRunOut(Session(first, times[0], decode), Session(second, times[1], decode), role, x, VisitOf(stops[0]));
    }
  }
}
