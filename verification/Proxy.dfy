/** The dashboard's proxy: which requests it lets through and where it sends the others. What a token
    says is given by `decode`, since its signature is not checked here. */
module Proxy {
  import opened Common
  import opened Roles

  /** `exp` is in seconds; an absent or zero one never expires. */
  datatype Payload = Payload(exp: Option<real>, roles: seq<string>)

  type Decoder = string -> Option<Payload>

  /** A request as far as the proxy looks: its path, its two cookies and its Authorization header. */
  datatype Request = Request(path: string, access: Option<string>, refresh: Option<string>, authorization: Option<string>)

  datatype Response =
    | Pass
    | Redirect(path: string, callback: Option<string>, dropCookies: bool)

  function IsTokenExpired(payload: Payload, now: real): bool {
    payload.exp.Some? && payload.exp.value != 0.0 && now >= payload.exp.value * 1000.0
  }

  /** The cookie if there is one, else what follows "Bearer " in the header. */
  function GetAccessToken(request: Request): Option<string> {
    if request.access.Some? && request.access.value != "" then request.access
    else if request.authorization.Some? && "Bearer " <= request.authorization.value
    then Some(request.authorization.value[7..])
    else None
  }

  // ----- Kinds of path -----

  predicate IsAuthPage(path: string) { "/login" <= path || "/register" <= path || "/auth/callback" <= path }
  predicate IsSuperAdminRoute(path: string) { "/super-admin" <= path }
  predicate IsClientRoute(path: string) { "/client" <= path }
  predicate IsAgentRoute(path: string) { "/agent" <= path }
  predicate IsEmployeeRoute(path: string) {
    "/employee" <= path || "/attendance" <= path || "/leave" <= path || "/payslips" <= path
  }
  predicate IsSalesRoute(path: string) { "/crm" <= path || "/leads-inbox" <= path }
  predicate IsSupportRoute(path: string) { "/tickets" <= path }
  predicate IsHrRoute(path: string) { "/hr" <= path || "/payroll" <= path }
  predicate IsAdminDashboardRoute(path: string) {
    || "/dashboard" <= path || "/analytics" <= path || "/projects" <= path || "/clients" <= path
    || "/billing" <= path || "/finance" <= path || "/automation" <= path || "/ai" <= path
    || "/developer" <= path || "/erp" <= path || "/settings" <= path
  }

  predicate IsProtected(path: string) {
    || IsSuperAdminRoute(path) || IsClientRoute(path) || IsAgentRoute(path) || IsEmployeeRoute(path)
    || IsSalesRoute(path) || IsSupportRoute(path) || IsHrRoute(path) || IsAdminDashboardRoute(path)
  }

  predicate IsFavicon(path: string) {
    "/favicon" <= path && |path| >= 12 && path[9..12] in {"ico", "png"}
  }

  /** The matcher of the proxy: everything but the API, the framework's files and paths with a dot.
      The dot in its two favicon names is a wild card. */
  predicate IsMatched(path: string) {
    && "/" <= path && '.' !in path && !IsFavicon(path)
    && !("/api" <= path) && !("/_next/static" <= path) && !("/_next/image" <= path)
  }

  // ----- The decision, as a table -----

  /** Who the request is from: nobody without a token or with an expired one, and an employee with a
      token that cannot be read. */
  function Session(request: Request, now: real, decode: Decoder): Option<PrimaryRole> {
    var token := GetAccessToken(request);
    if token.None? || token.value == "" then None
    else
      var payload := decode(token.value);
      if payload.Some? && IsTokenExpired(payload.value, now) then None
      else Some(GetUserPrimaryRole(if payload.Some? then payload.value.roles else []))
  }

  /** The pages each role may see. */
  predicate Permits(role: PrimaryRole, path: string) {
    match role
    case SuperAdmin => true
    case Admin => !IsSuperAdminRoute(path)
    case Client => IsClientRoute(path)
    case Employee => IsEmployeeRoute(path)
    case SalesAgent => IsSalesRoute(path) || IsAgentRoute(path)
    case SupportAgent => IsSupportRoute(path) || IsAgentRoute(path)
    case HrAgent => IsHrRoute(path) || IsAgentRoute(path)
    case Agent => IsAgentRoute(path) || IsSupportRoute(path) || IsSalesRoute(path)
  }

  predicate IsEntry(path: string) { "/login" <= path || "/register" <= path || path == "/" }

  /** Where someone may be: the signed-in on the pages of their role, others on pages that are not
      protected, nobody on /logout. */
  predicate MayStay(session: Option<PrimaryRole>, path: string) {
    path != "/logout" &&
    match session
    case Some(role) => !IsEntry(path) && Permits(role, path)
    case None => !IsProtected(path) && path != "/"
  }

  /** Whoever may not stay goes home, or to the login page. */
  function Decide(session: Option<PrimaryRole>, path: string): Response {
    if MayStay(session, path) then Pass
    else if path == "/logout" then Redirect("/login", None, true)
    else if session.Some? then Redirect(RoleHome(session.value), None, false)
    else Redirect("/login", if IsProtected(path) then Some(path) else None, false)
  }

  /** `proxy` as it is written. */
  method Handle(request: Request, now: real, decode: Decoder) returns (response: Response)
    ensures response == Decide(Session(request, now, decode), request.path)
    ensures request.path == "/logout" ==> response == Redirect("/login", None, true)
    ensures response.Redirect? && response.dropCookies ==> request.path == "/logout"
  {
    var path := request.path;
    var accessToken := GetAccessToken(request);
    var token: Option<string> := None;
    var tokenExpired := false;
    if accessToken.Some? && accessToken.value != "" {
      token := accessToken;
      var payload := decode(accessToken.value);
      if payload.Some? {
        tokenExpired := IsTokenExpired(payload.value, now);
        if tokenExpired {
          token := None;
        }
      }
    }
    var isAuthPage := IsAuthPage(path);
    ghost var session := Session(request, now, decode);
    assert session.Some? <==> token.Some?;
    if path == "/logout" {
      return Redirect("/login", None, true);
    }
    if token.None? && IsProtected(path) {
      return Redirect("/login", Some(path), false);
    }
    if token.Some? && !tokenExpired {
      var payload := decode(token.value);
      var roles := if payload.Some? then payload.value.roles else [];
      var primaryRole := GetUserPrimaryRole(roles);
      var homeRoute := RoleHome(primaryRole);
      assert session == Some(primaryRole);
      hide Session, GetUserPrimaryRole, GetAccessToken;
      if isAuthPage && !("/auth/callback" <= path) {
        return Redirect(homeRoute, None, false);
      }
      if path == "/" {
        return Redirect(homeRoute, None, false);
      }
      NotEntry(path);
      if primaryRole == SuperAdmin {
        return Pass;
      }
      if IsSuperAdminRoute(path) {
        SuperAdminRouteIsOnlyThat(path);
        return Redirect(homeRoute, None, false);
      }
      if primaryRole == Admin {
        return Pass;
      }
      if primaryRole == Client {
        if !IsClientRoute(path) { return Redirect("/client/dashboard", None, false); }
        return Pass;
      }
      if primaryRole == Employee {
        if !IsEmployeeRoute(path) { return Redirect("/attendance", None, false); }
        return Pass;
      }
      if primaryRole == SalesAgent {
        if !IsSalesRoute(path) && !IsAgentRoute(path) { return Redirect("/crm", None, false); }
        return Pass;
      }
      if primaryRole == SupportAgent {
        if !IsSupportRoute(path) && !IsAgentRoute(path) { return Redirect("/tickets", None, false); }
        return Pass;
      }
      if primaryRole == HrAgent {
        if !IsHrRoute(path) && !IsAgentRoute(path) { return Redirect("/hr", None, false); }
        return Pass;
      }
      if !IsAgentRoute(path) && !IsSupportRoute(path) && !IsSalesRoute(path) {
        return Redirect("/agent/dashboard", None, false);
      }
      return Pass;
    } else {
      if path == "/" {
        return Redirect("/login", None, false);
      }
    }
    return Pass;
  }

  /** "/auth/callback" is the one auth page that the signed-in may open. */
  lemma NotEntry(path: string)
    requires !(IsAuthPage(path) && !("/auth/callback" <= path)) && path != "/"
    ensures !IsEntry(path)
  {
    assert "/auth/callback"[1] == 'a' && "/login"[1] == 'l' && "/register"[1] == 'r';
  }

  lemma SuperAdminRouteIsOnlyThat(path: string)
    requires IsSuperAdminRoute(path)
    ensures forall role :: role != SuperAdmin ==> !Permits(role, path)
  {
    assert path[..12] == "/super-admin";
    assert path[1] == 's' && path[2] == 'u';
    assert "/client"[1] == 'c' && "/agent"[1] == 'a' && "/employee"[1] == 'e' && "/attendance"[1] == 'a' && "/leave"[1] == 'l';
    assert "/payslips"[1] == 'p' && "/crm"[1] == 'c' && "/leads-inbox"[1] == 'l' && "/tickets"[1] == 't' && "/hr"[1] == 'h' && "/payroll"[1] == 'p';
  }

  // ----- Redirect chains -----

  /** Following a redirect: a new path, without the cookies if they were dropped. */
  function Follow(request: Request, response: Response): Request
    requires response.Redirect?
  {
    if response.dropCookies then Request(response.path, None, None, request.authorization) else request.(path := response.path)
  }

  function Respond(request: Request, now: real, decode: Decoder): Response {
    if IsMatched(request.path) then Decide(Session(request, now, decode), request.path) else Pass
  }

  /** Each request of the chain but the last is redirected to the next, on a clock that never goes back. */
  ghost predicate IsChain(requests: seq<Request>, times: seq<real>, decode: Decoder) {
    && |requests| == |times| > 0
    && (forall i, j :: 0 <= i < j < |times| ==> times[i] <= times[j])
    && (forall i :: 0 <= i < |requests| - 1 ==>
          && Respond(requests[i], times[i], decode).Redirect?
          && requests[i + 1] == Follow(requests[i], Respond(requests[i], times[i], decode)))
  }

  /** How many redirects can still follow. */
  function RedirectsLeft(request: Request, now: real, decode: Decoder): nat {
    if Respond(request, now, decode).Pass? then 0
    else if request.path == "/logout" then 3
    else if Session(request, now, decode).Some? then 2
    else 1
  }

  /** Everyone may stay at their home, and anyone at the login page who is not signed in. */
  lemma HomeIsReached(role: PrimaryRole)
    ensures MayStay(Some(role), RoleHome(role))
    ensures RoleHome(role) != "/logout" && MayStay(None, "/login")
  {
    var home := RoleHome(role);
    assert "/super-admin"[..12] == "/super-admin" && "/crm"[..4] == "/crm" && "/tickets"[..8] == "/tickets" && "/hr"[..3] == "/hr";
    assert "/agent/dashboard"[..6] == "/agent" && "/attendance"[..11] == "/attendance" && "/client/dashboard"[..7] == "/client";
    assert home[1] != 'r' && (home[1] != 'l');
    assert "/login"[1] == 'l' && "/register"[1] == 'r';
    LoginIsOpen();
  }

  lemma LoginIsOpen()
    ensures !IsProtected("/login") && "/login" != "/logout" && "/login" != "/"
  {
    var p := "/login";
    assert p[1] == 'l' && p[2] == 'o';
    assert "/leave"[2] == 'e' && "/leads-inbox"[2] == 'e';
    assert "/super-admin"[1] == 's' && "/client"[1] == 'c' && "/agent"[1] == 'a' && "/employee"[1] == 'e' && "/attendance"[1] == 'a';
    assert "/payslips"[1] == 'p' && "/crm"[1] == 'c' && "/tickets"[1] == 't' && "/hr"[1] == 'h' && "/payroll"[1] == 'p';
    assert "/dashboard"[1] == 'd' && "/analytics"[1] == 'a' && "/projects"[1] == 'p' && "/clients"[1] == 'c' && "/billing"[1] == 'b';
    assert "/finance"[1] == 'f' && "/automation"[1] == 'a' && "/ai"[1] == 'a' && "/developer"[1] == 'd' && "/erp"[1] == 'e' && "/settings"[1] == 's';
  }

  /** Time only takes a session away. */
  lemma SessionOnlyExpires(request: Request, path: string, now: real, later: real, decode: Decoder)
    requires now <= later
    ensures var s, t := Session(request, now, decode), Session(request.(path := path), later, decode); t.None? || t == s
  {
  }

  /** Each redirect uses up one of those left, whatever the clock did in between. */
  lemma RedirectsRunOut(request: Request, now: real, later: real, decode: Decoder)
    requires now <= later && Respond(request, now, decode).Redirect?
    ensures RedirectsLeft(Follow(request, Respond(request, now, decode)), later, decode) < RedirectsLeft(request, now, decode)
  {
    var r := Respond(request, now, decode);
    var next := Follow(request, r);
    var s := Session(request, now, decode);
    LoginIsOpen();
    if s.Some? { HomeIsReached(s.value); }
    hide IsProtected, IsEntry, Permits;
    if request.path != "/logout" {
      SessionOnlyExpires(request, next.path, now, later, decode);
    }
    hide Session;
  }

  /** A chain of redirects ends after at most three, for every path, every cookies and header, every
      token and every clock that never goes back. */
  lemma {:induction false} AtMostThreeRedirects(requests: seq<Request>, times: seq<real>, decode: Decoder)
    requires IsChain(requests, times, decode)
    ensures |requests| - 1 <= RedirectsLeft(requests[0], times[0], decode) <= 3
    decreases |requests|
  {
    if |requests| > 1 {
      var rest, later := requests[1..], times[1..];
      forall i | 0 <= i < |rest| - 1
        ensures Respond(rest[i], later[i], decode).Redirect? && rest[i + 1] == Follow(rest[i], Respond(rest[i], later[i], decode))
      {
        assert rest[i] == requests[i + 1] && later[i] == times[i + 1] && rest[i + 1] == requests[i + 2];
      }
      AtMostThreeRedirects(rest, later, decode);
      RedirectsRunOut(requests[0], times[0], times[1], decode);
      hide RedirectsLeft;
      hide Respond;
    }
  }

  /** A request that carries its token in the header only. */
  function Bearing(path: string, token: string): Request {
    Request(path, None, None, Some("Bearer " + token))
  }

  lemma BearingSession(path: string, token: string, now: real, decode: Decoder)
    requires token != "" && decode(token).Some?
    ensures Session(Bearing(path, token), now, decode) ==
      if IsTokenExpired(decode(token).value, now) then None else Some(GetUserPrimaryRole(decode(token).value.roles))
  {
    assert ("Bearer " + token)[7..] == token;
  }

  /** Three do happen: logging out with a token in the header that expires on the way home. */
  lemma ThreeRedirectsHappen(token: string, exp: real, roles: seq<string>, decode: Decoder)
    requires token != "" && exp > 0.0 && decode(token) == Some(Payload(Some(exp), roles))
    ensures var home := RoleHome(GetUserPrimaryRole(roles));
      IsChain([Bearing("/logout", token), Bearing("/login", token), Bearing(home, token), Bearing("/login", token)],
              [0.0, 0.0, exp * 1000.0, exp * 1000.0], decode)
  {
    hide GetUserPrimaryRole, RoleHome, Respond, IsChain;
    var home := RoleHome(GetUserPrimaryRole(roles));
    FirstThree(token, exp, roles, decode);
    var end := exp * 1000.0;
    var last, third, second, first := Bearing("/login", token), Bearing(home, token), Bearing("/login", token), Bearing("/logout", token);
    ChainOfOne(last, end, decode);
    ChainCons(third, end, [last], [end], decode);
    ChainCons(second, 0.0, [third] + [last], [end] + [end], decode);
    ChainCons(first, 0.0, [second] + ([third] + [last]), [0.0] + ([end] + [end]), decode);
    assert [first] + ([second] + ([third] + [last])) == [first, second, third, last];
    assert [0.0] + ([0.0] + ([end] + [end])) == [0.0, 0.0, end, end];
  }

  lemma ChainOfOne(request: Request, time: real, decode: Decoder)
    ensures IsChain([request], [time], decode)
  {
  }

  lemma ChainCons(request: Request, time: real, rest: seq<Request>, later: seq<real>, decode: Decoder)
    requires IsChain(rest, later, decode) && time <= later[0]
    requires Respond(request, time, decode).Redirect? && rest[0] == Follow(request, Respond(request, time, decode))
    ensures IsChain([request] + rest, [time] + later, decode)
  {
    hide Respond, Follow;
    var requests, times := [request] + rest, [time] + later;
    forall i | 0 <= i < |requests| - 1
      ensures Respond(requests[i], times[i], decode).Redirect?
        && requests[i + 1] == Follow(requests[i], Respond(requests[i], times[i], decode))
    {
      if i > 0 {
        assert requests[i] == rest[i - 1] && times[i] == later[i - 1] && requests[i + 1] == rest[i];
      }
    }
  }

  lemma FirstThree(token: string, exp: real, roles: seq<string>, decode: Decoder)
    requires token != "" && exp > 0.0 && decode(token) == Some(Payload(Some(exp), roles))
    ensures var home := RoleHome(GetUserPrimaryRole(roles));
      && Respond(Bearing("/logout", token), 0.0, decode) == Redirect("/login", None, true)
      && Respond(Bearing("/login", token), 0.0, decode) == Redirect(home, None, false)
      && Respond(Bearing(home, token), exp * 1000.0, decode) == Redirect("/login", Some(home), false)
  {
    hide GetUserPrimaryRole, RoleHome, Session, IsMatched, IsProtected, Permits;
    var role := GetUserPrimaryRole(roles);
    var home := RoleHome(role);
    HomeIsReached(role);
    HomeIsProtected(role);
    HomeIsMatched(role);
    LoginIsMatched();
    BearingSession("/login", token, 0.0, decode);
    BearingSession(home, token, exp * 1000.0, decode);
    assert IsEntry("/login");
    hide IsEntry;
  }

  lemma LoginIsMatched()
    ensures IsMatched("/logout") && IsMatched("/login")
  {
    assert "/logout"[0] == '/' && "/login"[0] == '/';
    assert "/logout"[1] == 'l' && "/login"[1] == 'l';
    assert "/api"[1] == 'a' && "/_next/static"[1] == '_' && "/_next/image"[1] == '_' && "/favicon"[1] == 'f';
  }

  lemma HomeIsMatched(role: PrimaryRole)
    ensures IsMatched(RoleHome(role))
  {
    var home := RoleHome(role);
    assert home[0] == '/' && '.' !in home;
    assert "/api"[1] == 'a' && "/_next/static"[1] == '_' && "/_next/image"[1] == '_' && "/favicon"[1] == 'f';
    assert home[1] != '_' && home[1] != 'f' && (home[1] == 'a' ==> home[2] != 'p');
    assert "/api"[2] == 'p';
  }

  lemma HomeIsProtected(role: PrimaryRole)
    ensures IsProtected(RoleHome(role))
  {
    assert "/super-admin"[..12] == "/super-admin" && "/crm"[..4] == "/crm" && "/tickets"[..8] == "/tickets" && "/hr"[..3] == "/hr";
    assert "/dashboard"[..10] == "/dashboard";
    assert "/agent/dashboard"[..6] == "/agent" && "/attendance"[..11] == "/attendance" && "/client/dashboard"[..7] == "/client";
  }
}
