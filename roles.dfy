/** The two role hierarchies of the app access-control service: the role a user
    holds in an organization and the role a user holds in one app. Both are small
    closed enumerations with an explicit rank. */
module Roles {

  /** Organization role, in ascending privilege: USER < ADMINISTRATOR < OWNER. */
  datatype OrgRole = OrgUser | OrgAdministrator | OrgOwner

  /** App role, in ascending privilege: USER < OWNER. */
  datatype AppRole = AppUser | AppOwner

  function OrgRank(r: OrgRole): nat
  {
    match r
    case OrgUser => 0
    case OrgAdministrator => 1
    case OrgOwner => 2
  }

  function AppRank(r: AppRole): nat
  {
    match r
    case AppUser => 0
    case AppOwner => 1
  }

  /** The organization roles that may change any app of their organization
      (the `writeRoles` fixture of the service's tests). */
  const WriteRoles: set<OrgRole> := {OrgOwner, OrgAdministrator}

  /** The organization roles that see only the apps they were given a role on
      (the `readRoles` fixture). */
  const ReadRoles: set<OrgRole> := {OrgUser}

  /** Org write access: ADMINISTRATOR or OWNER. */
  predicate HasOrgWriteAccess(r: OrgRole)
  {
    r == OrgAdministrator || r == OrgOwner
  }

  /** The two fixtures split the organization roles, and write access is
      exactly "at least ADMINISTRATOR" in the rank order. */
  lemma WriteAccessIsRankAtLeastAdministrator(r: OrgRole)
    ensures HasOrgWriteAccess(r) <==> r in WriteRoles
    ensures !HasOrgWriteAccess(r) <==> r in ReadRoles
    ensures HasOrgWriteAccess(r) <==> OrgRank(r) >= OrgRank(OrgAdministrator)
  {
  }
}
