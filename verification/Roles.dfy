/** The one role that decides where a user goes, as the proxy and the auth store each compute it. */
module Roles {
  import opened Common

  datatype PrimaryRole = SuperAdmin | Admin | SalesAgent | SupportAgent | HrAgent | Agent | Employee | Client

  function Normalise(role: string): string {
    Trim(ToLower(role))
  }

  function NormaliseAll(roles: seq<string>): (r: seq<string>)
    ensures |r| == |roles|
    ensures forall i :: 0 <= i < |r| ==> r[i] == Normalise(roles[i])
  {
    seq(|roles|, i requires 0 <= i < |roles| => Normalise(roles[i]))
  }

  /** getUserPrimaryRole of the proxy. */
  function GetUserPrimaryRole(roles: seq<string>): PrimaryRole {
    var normalized := NormaliseAll(roles);
    if "super_admin" in normalized || "superadmin" in normalized then SuperAdmin
    else if "admin" in normalized then Admin
    else if "sales_agent" in normalized || "sales" in normalized then SalesAgent
    else if "support_agent" in normalized || "support" in normalized then SupportAgent
    else if "hr_agent" in normalized || "hr" in normalized then HrAgent
    else if "agent" in normalized then Agent
    else if "employee" in normalized || "worker" in normalized || "staff" in normalized then Employee
    else if "client" in normalized then Client
    else Employee
  }

  /** getPrimaryRole of the auth store. */
  function GetPrimaryRole(roles: seq<string>): PrimaryRole {
    var normalized := NormaliseAll(roles);
    if "super_admin" in normalized || "superadmin" in normalized then SuperAdmin
    else if "admin" in normalized && "super_admin" !in normalized && "superadmin" !in normalized then Admin
    else if "sales_agent" in normalized || "sales" in normalized then SalesAgent
    else if "support_agent" in normalized || "support" in normalized then SupportAgent
    else if "hr_agent" in normalized || "hr" in normalized then HrAgent
    else if "agent" in normalized then Agent
    else if "employee" in normalized || "worker" in normalized || "staff" in normalized then Employee
    else if "client" in normalized then Client
    else Employee
  }

  function RoleHome(role: PrimaryRole): string {
    match role
    case SuperAdmin => "/super-admin"
    case Admin => "/dashboard"
    case SalesAgent => "/crm"
    case SupportAgent => "/tickets"
    case HrAgent => "/hr"
    case Agent => "/agent/dashboard"
    case Employee => "/attendance"
    case Client => "/client/dashboard"
  }

  /** The names a role goes by. */
  function Names(role: PrimaryRole): set<string> {
    match role
    case SuperAdmin => {"super_admin", "superadmin"}
    case Admin => {"admin"}
    case SalesAgent => {"sales_agent", "sales"}
    case SupportAgent => {"support_agent", "support"}
    case HrAgent => {"hr_agent", "hr"}
    case Agent => {"agent"}
    case Employee => {"employee", "worker", "staff"}
    case Client => {"client"}
  }

  function Rank(role: PrimaryRole): nat {
    match role
    case SuperAdmin => 0
    case Admin => 1
    case SalesAgent => 2
    case SupportAgent => 3
    case HrAgent => 4
    case Agent => 5
    case Employee => 6
    case Client => 7
  }

  ghost predicate Named(names: set<string>, role: PrimaryRole) {
    exists n :: n in Names(role) && n in names
  }

  /** The strongest role with a name in the set; someone without any is an employee. */
  ghost predicate IsPrimary(names: set<string>, role: PrimaryRole) {
    if exists r :: Named(names, r)
    then Named(names, role) && forall r :: Named(names, r) ==> Rank(role) <= Rank(r)
    else role == Employee
  }

  function NameSet(roles: seq<string>): set<string> {
    set r | r in roles :: Normalise(r)
  }

  lemma NameSetIs(roles: seq<string>, name: string)
    ensures name in NormaliseAll(roles) <==> name in NameSet(roles)
  {
    if name in NameSet(roles) {
      var r :| r in roles && Normalise(r) == name;
      var i :| 0 <= i < |roles| && roles[i] == r;
      assert NormaliseAll(roles)[i] == name;
    }
  }

  lemma NamedIs(names: set<string>, role: PrimaryRole)
    ensures Named(names, role) <==>
      match role
      case SuperAdmin => "super_admin" in names || "superadmin" in names
      case Admin => "admin" in names
      case SalesAgent => "sales_agent" in names || "sales" in names
      case SupportAgent => "support_agent" in names || "support" in names
      case HrAgent => "hr_agent" in names || "hr" in names
      case Agent => "agent" in names
      case Employee => "employee" in names || "worker" in names || "staff" in names
      case Client => "client" in names
  {
    match role
    case SuperAdmin => assert "super_admin" in Names(role) && "superadmin" in Names(role);
    case Admin => assert "admin" in Names(role);
    case SalesAgent => assert "sales_agent" in Names(role) && "sales" in Names(role);
    case SupportAgent => assert "support_agent" in Names(role) && "support" in Names(role);
    case HrAgent => assert "hr_agent" in Names(role) && "hr" in Names(role);
    case Agent => assert "agent" in Names(role);
    case Employee => assert "employee" in Names(role) && "worker" in Names(role) && "staff" in Names(role);
    case Client => assert "client" in Names(role);
  }

  /** The roles in order of strength, down to the first that is named. */
  ghost function FirstNamed(names: set<string>): PrimaryRole {
    if Named(names, SuperAdmin) then SuperAdmin
    else if Named(names, Admin) then Admin
    else if Named(names, SalesAgent) then SalesAgent
    else if Named(names, SupportAgent) then SupportAgent
    else if Named(names, HrAgent) then HrAgent
    else if Named(names, Agent) then Agent
    else if Named(names, Employee) then Employee
    else if Named(names, Client) then Client
    else Employee
  }

  lemma FirstNamedIsPrimary(names: set<string>)
    ensures IsPrimary(names, FirstNamed(names))
    ensures forall other :: IsPrimary(names, other) ==> other == FirstNamed(names)
  {
    hide Named;
    hide Names;
    var first := FirstNamed(names);
    forall r | Named(names, r)
      ensures Named(names, first) && Rank(first) <= Rank(r)
    {
      match r
      case SuperAdmin =>
      case Admin =>
      case SalesAgent =>
      case SupportAgent =>
      case HrAgent =>
      case Agent =>
      case Employee =>
      case Client =>
    }
  }

  lemma BothAreFirstNamed(roles: seq<string>)
    ensures GetUserPrimaryRole(roles) == GetPrimaryRole(roles) == FirstNamed(NameSet(roles))
  {
    var names := NameSet(roles);
    forall name: string
      ensures name in NormaliseAll(roles) <==> name in names
    {
      NameSetIs(roles, name);
    }
    NamedIs(names, SuperAdmin);
    NamedIs(names, Admin);
    NamedIs(names, SalesAgent);
    NamedIs(names, SupportAgent);
    NamedIs(names, HrAgent);
    NamedIs(names, Agent);
    NamedIs(names, Employee);
    NamedIs(names, Client);
    hide Named;
    hide NameSet;
  }

  /** The proxy and the store agree on every list of roles: both name the strongest role in the set
      of normalised names, so order and repetition do not matter. */
  lemma PrimaryRolesAgree(roles: seq<string>)
    ensures GetUserPrimaryRole(roles) == GetPrimaryRole(roles)
    ensures IsPrimary(NameSet(roles), GetPrimaryRole(roles))
    ensures forall other :: IsPrimary(NameSet(roles), other) ==> other == GetPrimaryRole(roles)
  {
    BothAreFirstNamed(roles);
    FirstNamedIsPrimary(NameSet(roles));
    hide GetUserPrimaryRole;
    hide GetPrimaryRole;
    hide FirstNamed;
    hide IsPrimary;
  }
}
