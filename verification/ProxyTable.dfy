/** The proxy's answers in plain text: whom a token stands for and until when, and which pages each sees. */
module ProxyTable {
  import opened Common
  import opened Roles
  import opened Proxy

  // ----- Whom a request is from -----

  /** The token of the access cookie, or without one that of the header. */
  ghost predicate Carries(request: Request, token: string) {
    || request.access == Some(token)
    || ((request.access.None? || request.access == Some("")) && request.authorization == Some("Bearer " + token))
  }

  lemma TokenIs(request: Request, token: string)
    requires token != "" && Carries(request, token)
    ensures GetAccessToken(request) == Some(token)
  {
    if request.access != Some(token) {
      assert ("Bearer " + token)[..7] == "Bearer " && ("Bearer " + token)[7..] == token;
    }
  }

  /** A token with an expiry stands for its roles until exp * 1000 milliseconds, and from then on for nobody. */
  lemma SessionEndsAtExp(request: Request, token: string, exp: real, roles: seq<string>, now: real, decode: Decoder)
    requires token != "" && Carries(request, token) && decode(token) == Some(Payload(Some(exp), roles)) && exp != 0.0
    ensures Session(request, now, decode) == if now < exp * 1000.0 then Some(GetUserPrimaryRole(roles)) else None
  {
    TokenIs(request, token);
    hide GetUserPrimaryRole, GetAccessToken;
  }

  /** One without an expiry, or with a zero one, never ends; one that cannot be read is an employee's. */
  lemma SessionWithoutExp(request: Request, token: string, now: real, decode: Decoder)
    requires token != "" && Carries(request, token)
    ensures decode(token).Some? && decode(token).value.exp in {None, Some(0.0)} ==>
      Session(request, now, decode) == Some(GetUserPrimaryRole(decode(token).value.roles))
    ensures decode(token).None? ==> Session(request, now, decode) == Some(Employee)
  {
    TokenIs(request, token);
    hide GetAccessToken;
  }

  lemma NobodyWithoutToken(request: Request, now: real, decode: Decoder)
    requires request.access.None? || request.access == Some("")
    requires request.authorization.None? || !("Bearer " <= request.authorization.value) || request.authorization.value == "Bearer "
    ensures Session(request, now, decode) == None
  {
  }

  // ----- The home of a role -----

  lemma Homes()
    ensures RoleHome(SuperAdmin) == "/super-admin" && RoleHome(Admin) == "/dashboard" && RoleHome(SalesAgent) == "/crm"
    ensures RoleHome(SupportAgent) == "/tickets" && RoleHome(HrAgent) == "/hr" && RoleHome(Agent) == "/agent/dashboard"
    ensures RoleHome(Employee) == "/attendance" && RoleHome(Client) == "/client/dashboard"
  {
  }

  /** Whoever carries a token with an expiry may stay at their home exactly as long as it has not come, and is sent to
      the login page from then on. */
  lemma HomeUntilExp(request: Request, token: string, exp: real, roles: seq<string>, now: real, decode: Decoder)
    requires token != "" && Carries(request, token) && decode(token) == Some(Payload(Some(exp), roles)) && exp != 0.0
    ensures var home := RoleHome(GetUserPrimaryRole(roles));
      Respond(request.(path := home), now, decode) == if now < exp * 1000.0 then Pass else Redirect("/login", Some(home), false)
  {
    var role := GetUserPrimaryRole(roles);
    SessionEndsAtExp(request.(path := RoleHome(role)), token, exp, roles, now, decode);
    HomeIsReached(role);
    HomeIsMatched(role);
    HomeIsProtected(role);
    hide GetUserPrimaryRole, RoleHome, Session, IsMatched, IsProtected, Permits, IsEntry;
  }

  /** And at any time if there is none. */
  lemma HomeForever(request: Request, token: string, now: real, decode: Decoder)
    requires token != "" && Carries(request, token) && decode(token).Some? && decode(token).value.exp in {None, Some(0.0)}
    ensures Respond(request.(path := RoleHome(GetUserPrimaryRole(decode(token).value.roles))), now, decode) == Pass
  {
    var role := GetUserPrimaryRole(decode(token).value.roles);
    SessionWithoutExp(request.(path := RoleHome(role)), token, now, decode);
    HomeIsReached(role);
    hide GetUserPrimaryRole, RoleHome, Session, IsMatched, IsProtected, Permits, IsEntry;
  }

  /** What the proxy does not see passes; a browser follows a redirect with what it carries, but for the cookies that the
      redirect deletes. */
  lemma SeenAndFollowed(request: Request, now: real, decode: Decoder, to: string, callback: Option<string>)
    ensures Respond(request, now, decode) == if IsMatched(request.path) then Decide(Session(request, now, decode), request.path) else Pass
    ensures Follow(request, Redirect(to, callback, false)) == Request(to, request.access, request.refresh, request.authorization)
    ensures Follow(request, Redirect(to, callback, true)) == Request(to, None, None, request.authorization)
  {
    hide Session, IsMatched, Decide;
  }

  // ----- Which pages -----

  /** The pages that take the signed-in home. */
  lemma EntryPages(role: PrimaryRole, path: string)
    requires path == "/" || "/login" <= path || "/register" <= path
    ensures Decide(Some(role), path) == Redirect(RoleHome(role), None, false)
  {
    if "/login" <= path { assert path[4] == 'i' && "/logout"[4] == 'o'; }
  }

  /** Where each role stays; from everywhere else it is sent home. */
  lemma RolePages(role: PrimaryRole, path: string)
    requires path != "/" && path != "/logout" && !("/login" <= path) && !("/register" <= path)
    ensures role == SuperAdmin ==> Decide(Some(role), path) == Pass
    ensures role == Admin ==>
      Decide(Some(role), path) == if "/super-admin" <= path then Redirect("/dashboard", None, false) else Pass
    ensures role == Client ==>
      Decide(Some(role), path) == if "/client" <= path then Pass else Redirect("/client/dashboard", None, false)
    ensures role == Employee ==>
      Decide(Some(role), path) ==
        (if "/employee" <= path || "/attendance" <= path || "/leave" <= path || "/payslips" <= path then Pass
         else Redirect("/attendance", None, false))
    ensures role == SalesAgent ==>
      Decide(Some(role), path) ==
        (if "/crm" <= path || "/leads-inbox" <= path || "/agent" <= path then Pass else Redirect("/crm", None, false))
    ensures role == SupportAgent ==>
      Decide(Some(role), path) == if "/tickets" <= path || "/agent" <= path then Pass else Redirect("/tickets", None, false)
    ensures role == HrAgent ==>
      Decide(Some(role), path) ==
        (if "/hr" <= path || "/payroll" <= path || "/agent" <= path then Pass else Redirect("/hr", None, false))
    ensures role == Agent ==>
      Decide(Some(role), path) ==
        (if "/agent" <= path || "/tickets" <= path || "/crm" <= path || "/leads-inbox" <= path then Pass
         else Redirect("/agent/dashboard", None, false))
  {
  }

  /** Without a session: the protected pages lead to the login page and back, the root to the login page. */
  lemma SignedOutPages(path: string)
    requires path != "/logout"
    ensures Decide(None, path) ==
      (if "/super-admin" <= path || "/client" <= path || "/agent" <= path || "/employee" <= path || "/attendance" <= path
          || "/leave" <= path || "/payslips" <= path || "/crm" <= path || "/leads-inbox" <= path || "/tickets" <= path
          || "/hr" <= path || "/payroll" <= path || "/dashboard" <= path || "/analytics" <= path || "/projects" <= path
          || "/billing" <= path || "/finance" <= path || "/automation" <= path || "/ai" <= path || "/developer" <= path
          || "/erp" <= path || "/settings" <= path
       then Redirect("/login", Some(path), false)
       else if path == "/" then Redirect("/login", None, false)
       else Pass)
  {
    if "/clients" <= path { assert path[..7] == "/clients"[..7]; }
  }

  /** Logging out, in whatever state. */
  lemma LogoutPage(session: Option<PrimaryRole>)
    ensures Decide(session, "/logout") == Redirect("/login", None, true)
  {
  }

  /** Which requests the proxy sees: not those of the API and the framework, nor any with a dot in its path, nor the
      favicons, whose dot is a wild card. */
  lemma Unseen(path: string, any: char, rest: string)
    ensures "/api" <= path || "/_next/static" <= path || "/_next/image" <= path || '.' in path ==> !IsMatched(path)
    ensures !IsMatched("/favicon" + [any] + "ico" + rest) && !IsMatched("/favicon" + [any] + "png" + rest)
  {
    assert ("/favicon" + [any] + "ico" + rest)[9..12] == "ico" && ("/favicon" + [any] + "png" + rest)[9..12] == "png";
  }

  lemma Seen(path: string)
    requires "/" <= path && '.' !in path && !("/api" <= path) && !("/_next/static" <= path) && !("/_next/image" <= path)
    requires "/favicon" <= path && |path| >= 12 ==> path[9..12] != "ico" && path[9..12] != "png"
    ensures IsMatched(path)
  {
  }
}
