/** The authorization context built from a verified access token. */
module ActorContext {
  import opened Common

  datatype JwtPayload = JwtPayload(
    sub: Option<string>,
    orgId: Option<string>,
    roles: Option<seq<string>>,
    permissions: Option<seq<string>>,
    linkedClientId: Option<string>,
    email: Option<string>)

  datatype Actor = Actor(
    userId: string,
    organizationId: string,
    roles: seq<string>,
    permissions: seq<string>,
    linkedClientId: Option<string>,
    isSuperAdmin: bool,
    isAdmin: bool,
    isAgent: bool,
    isClient: bool,
    email: string)

  const SUPER_ADMIN_ROLES := {"superadmin", "super_admin"}
  const ADMIN_ROLES := {"admin"} + SUPER_ADMIN_ROLES
  const AGENT_ROLES := {"agent", "support_agent", "sales_agent", "hr_agent"} + ADMIN_ROLES
  const CLIENT_ROLES := {"client"}

  function GetOr<T>(o: Option<T>, default: T): T {
    if o.Some? then o.value else default
  }

  predicate HasRole(roles: seq<string>, candidates: set<string>) {
    exists i :: 0 <= i < |roles| && ToLower(roles[i]) in candidates
  }

  /** The token claims a role of this name, in whatever letter case. */
  predicate Claims(payload: JwtPayload, name: string) {
    payload.roles.Some? && exists i :: 0 <= i < |payload.roles.value| && ToLower(payload.roles.value[i]) == name
  }

  /** Letter by letter. */
  lemma ClaimsAre(payload: JwtPayload, name: string)
    requires IsSmall(name)
    ensures Claims(payload, name) <==>
      payload.roles.Some? && exists i :: 0 <= i < |payload.roles.value| && Spells(payload.roles.value[i], name)
  {
    if payload.roles.Some? {
      forall i | 0 <= i < |payload.roles.value|
        ensures ToLower(payload.roles.value[i]) == name <==> Spells(payload.roles.value[i], name)
      {
        LowerSpells(payload.roles.value[i], name);
      }
    }
  }

  /** Which role names set which flag. */
  lemma FlagsAre(payload: JwtPayload)
    ensures var a := BuildActor(payload);
      && (a.isSuperAdmin <==> Claims(payload, "superadmin") || Claims(payload, "super_admin"))
      && (a.isAdmin <==> Claims(payload, "admin") || a.isSuperAdmin)
      && (a.isAgent <==> a.isAdmin || exists name :: name in {"agent", "support_agent", "sales_agent", "hr_agent"} && Claims(payload, name))
      && (a.isClient <==> Claims(payload, "client"))
      && a.userId == (if payload.sub.Some? then payload.sub.value else "")
      && a.organizationId == (if payload.orgId.Some? then payload.orgId.value else "")
      && a.roles == (if payload.roles.Some? then payload.roles.value else [])
      && a.permissions == (if payload.permissions.Some? then payload.permissions.value else [])
      && a.email == (if payload.email.Some? then payload.email.value else "") && a.linkedClientId == payload.linkedClientId
  {
    var roles := GetOr(payload.roles, []);
    HasRoleIs(payload, SUPER_ADMIN_ROLES);
    HasRoleIs(payload, ADMIN_ROLES);
    HasRoleIs(payload, AGENT_ROLES);
    HasRoleIs(payload, CLIENT_ROLES);
    hide HasRole, Claims;
    assert "superadmin" in SUPER_ADMIN_ROLES && "super_admin" in SUPER_ADMIN_ROLES && "admin" in ADMIN_ROLES;
    assert "agent" in AGENT_ROLES && "support_agent" in AGENT_ROLES && "sales_agent" in AGENT_ROLES && "hr_agent" in AGENT_ROLES;
    assert "client" in CLIENT_ROLES;
  }

  lemma HasRoleIs(payload: JwtPayload, names: set<string>)
    ensures HasRole(GetOr(payload.roles, []), names) <==> exists name :: name in names && Claims(payload, name)
  {
    var roles := GetOr(payload.roles, []);
    if HasRole(roles, names) {
      var i :| 0 <= i < |roles| && ToLower(roles[i]) in names;
      assert Claims(payload, ToLower(roles[i]));
    }
  }

  /** A missing claim becomes the empty string or the empty list. */
  function BuildActor(payload: JwtPayload): (a: Actor)
    ensures a.isSuperAdmin ==> a.isAdmin
    ensures a.isAdmin ==> a.isAgent
  {
    var roles := GetOr(payload.roles, []);
    Actor(
      GetOr(payload.sub, ""),
      GetOr(payload.orgId, ""),
      roles,
      GetOr(payload.permissions, []),
      payload.linkedClientId,
      HasRole(roles, SUPER_ADMIN_ROLES),
      HasRole(roles, ADMIN_ROLES),
      HasRole(roles, AGENT_ROLES),
      HasRole(roles, CLIENT_ROLES),
      GetOr(payload.email, ""))
  }
}
