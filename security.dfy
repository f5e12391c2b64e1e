/** Role-based access control of the route handlers (app/security.py). The
    caller's identity comes from the login service, which is outside the
    model: a handler receives it as a `CurrentUser` value. */
module Security {
  import opened Base

  /** The roles a login-service user can hold. */
  datatype Role = SuperAdmin | AgencyAdmin | CaAccountant | CaTeam | ClientAdmin | ClientUser

  /** The string value of each role, as the login service reports it. */
  function RoleValue(r: Role): string {
    match r
    case SuperAdmin => "SUPER_ADMIN"
    case AgencyAdmin => "AGENCY_ADMIN"
    case CaAccountant => "CA_ACCOUNTANT"
    case CaTeam => "CA_TEAM"
    case ClientAdmin => "CLIENT_ADMIN"
    case ClientUser => "CLIENT_USER"
  }

  /** The user record returned for the bearer token: its `id`, and its
      `role` string, which may be missing from the record. */
  datatype CurrentUser = CurrentUser(id: Uuid, role: Option<string>)

  /** The roles that may create, update or delete catalogue rows, settings
      and service links. */
  const WriteRoles: seq<Role> := [SuperAdmin, AgencyAdmin, CaAccountant]

  /** The roles that may list them: the writers and the CA team. */
  const ReadRoles: seq<Role> := [SuperAdmin, AgencyAdmin, CaAccountant, CaTeam]

  const PermissionDenied := "You don't have permission to perform this action."

  /** The values of the required roles, in order. */
  function RoleValues(required: seq<Role>): (values: seq<string>)
    ensures |values| == |required|
    ensures forall i :: 0 <= i < |required| ==> values[i] == RoleValue(required[i])
  {
    if required == [] then [] else [RoleValue(required[0])] + RoleValues(required[1..])
  }

  /** The membership test of the role checker: a role string that is one of the values. */
  predicate HasRole(userRole: Option<string>, required: seq<Role>) {
    userRole.Some? && userRole.value in RoleValues(required)
  }

  /** The dependency `has_role(required)`: it lets the request through exactly
      when the user's role is the value of one of the required roles, and
      otherwise stops it with 403 and the fixed message. */
  function CheckRole(user: CurrentUser, required: seq<Role>): (c: Check)
    ensures c.Pass? <==> exists i :: 0 <= i < |required| && user.role == Some(RoleValue(required[i]))
    ensures c.Fail? ==> c == Fail(StatusForbidden, PermissionDenied)
    ensures user.role.None? ==> c.Fail?
  {
    if HasRole(user.role, required) then Pass else Fail(StatusForbidden, PermissionDenied)
  }

  /** Distinct roles have distinct values, so a role string names one role. */
  lemma RoleValueInjective(a: Role, b: Role)
    ensures RoleValue(a) == RoleValue(b) ==> a == b
  {
    if a != b {
      match a
      case SuperAdmin => assert RoleValue(a)[0] == 'S';
      case AgencyAdmin => assert RoleValue(a)[0] == 'A';
      case CaAccountant => assert RoleValue(a)[3] == 'A';
      case CaTeam => assert RoleValue(a)[3] == 'T';
      case ClientAdmin => assert RoleValue(a)[7] == 'A';
      case ClientUser => assert RoleValue(a)[7] == 'U';
    }
  }

  /** With the role lists the routers use, a client administrator or client
      user is refused by every role-checked route. */
  lemma ClientRolesAlwaysRefused(r: Role)
    requires r == ClientAdmin || r == ClientUser
    ensures !HasRole(Some(RoleValue(r)), WriteRoles)
    ensures !HasRole(Some(RoleValue(r)), ReadRoles)
  {
    forall q | q in ReadRoles ensures RoleValue(q) != RoleValue(r) {
      RoleValueInjective(q, r);
    }
    assert RoleValues(ReadRoles) == [RoleValue(SuperAdmin), RoleValue(AgencyAdmin), RoleValue(CaAccountant), RoleValue(CaTeam)];
    assert RoleValues(WriteRoles) == [RoleValue(SuperAdmin), RoleValue(AgencyAdmin), RoleValue(CaAccountant)];
  }

  /** The CA team passes the listing routes and nothing else. */
  lemma CaTeamOnlyReads()
    ensures HasRole(Some(RoleValue(CaTeam)), ReadRoles)
    ensures !HasRole(Some(RoleValue(CaTeam)), WriteRoles)
  {
    assert RoleValues(ReadRoles)[3] == RoleValue(CaTeam);
    forall q | q in WriteRoles ensures RoleValue(q) != RoleValue(CaTeam) {
      RoleValueInjective(q, CaTeam);
    }
    assert RoleValues(WriteRoles) == [RoleValue(SuperAdmin), RoleValue(AgencyAdmin), RoleValue(CaAccountant)];
  }

  /** Whoever may write may also list. */
  lemma WritersCanRead(role: Option<string>)
    ensures HasRole(role, WriteRoles) ==> HasRole(role, ReadRoles)
  {
    assert RoleValues(ReadRoles) == RoleValues(WriteRoles) + [RoleValue(CaTeam)];
  }
}
