/** The authorization rules and the validation of a proposed app state. Every
    function here is pure: the service calls them on the state it has loaded
    before anything is written, and a failing verdict names the one error the
    operation raises. */
module Access {
  import opened Roles
  import opened Entities

  // ---------------------------------------------------------------------------
  // Caller gates
  // ---------------------------------------------------------------------------

  /** The caller's organization role, absent for a non-member. */
  function OrgRoleOf(org: Organization, u: UserId): Option<OrgRole>
  {
    if u in org.members then Some(org.members[u]) else None
  }

  /** The gate of getApp, updateApp and getAppUsers: a member with org write
      access, or a member holding any role on this app. */
  function ReadGate(org: Organization, app: App, caller: UserId): Outcome
  {
    match OrgRoleOf(org, caller)
    case None => Fail(UserDoesNotBelongToOrganization)
    case Some(r) =>
      if HasOrgWriteAccess(r) || caller in app.roles then Pass else Fail(InsufficientPrivileges)
  }

  /** The gate of regenerateApiKey and deleteApp: a member with org write access,
      or a member who is this app's OWNER. */
  function WriteGate(org: Organization, app: App, caller: UserId): Outcome
  {
    match OrgRoleOf(org, caller)
    case None => Fail(UserDoesNotBelongToOrganization)
    case Some(r) =>
      if HasOrgWriteAccess(r) || (caller in app.roles && app.roles[caller] == AppOwner) then Pass
      else Fail(InsufficientPrivileges)
  }

  /** The gate of createApp and inviteUser: a member with org write access. */
  function OrgWriteGate(org: Organization, caller: UserId): Outcome
  {
    match OrgRoleOf(org, caller)
    case None => Fail(UserDoesNotBelongToOrganization)
    case Some(r) => if HasOrgWriteAccess(r) then Pass else Fail(InsufficientPrivileges)
  }

  /** A caller with no organization role is turned away by every gate, whatever
      app role they may hold. */
  lemma GatesRejectNonMembers(org: Organization, app: App, caller: UserId)
    requires caller !in org.members
    ensures ReadGate(org, app, caller) == Fail(UserDoesNotBelongToOrganization)
    ensures WriteGate(org, app, caller) == Fail(UserDoesNotBelongToOrganization)
    ensures OrgWriteGate(org, caller) == Fail(UserDoesNotBelongToOrganization)
  {
  }

  /** A member fails a gate only with InsufficientPrivileges; an org write role
      passes all three whatever its app role; an org USER passes the read gate
      exactly when holding some app role and the write gate exactly when holding
      the app's OWNER role. */
  lemma GatesForMembers(org: Organization, app: App, caller: UserId)
    requires caller in org.members
    ensures HasOrgWriteAccess(org.members[caller]) ==>
      ReadGate(org, app, caller) == Pass && WriteGate(org, app, caller) == Pass &&
      OrgWriteGate(org, caller) == Pass
    ensures org.members[caller] == OrgUser ==>
      OrgWriteGate(org, caller) == Fail(InsufficientPrivileges) &&
      (ReadGate(org, app, caller) == Pass <==> caller in app.roles) &&
      (WriteGate(org, app, caller) == Pass <==> caller in app.roles && app.roles[caller] == AppOwner)
    ensures ReadGate(org, app, caller) in {Pass, Fail(InsufficientPrivileges)}
    ensures WriteGate(org, app, caller) in {Pass, Fail(InsufficientPrivileges)}
  {
  }

  /** Each gate is stricter than the next: whoever may create in the organization
      may regenerate or delete any of its apps, and whoever may do that may read. */
  lemma GateHierarchy(org: Organization, app: App, caller: UserId)
    ensures OrgWriteGate(org, caller) == Pass ==> WriteGate(org, app, caller) == Pass
    ensures WriteGate(org, app, caller) == Pass ==> ReadGate(org, app, caller) == Pass
  {
  }

  /** Raising the caller's organization role (in rank order) never takes access away. */
  lemma GatesMonotoneInOrgRank(org: Organization, app: App, caller: UserId, higher: OrgRole)
    requires caller in org.members && OrgRank(org.members[caller]) <= OrgRank(higher)
    ensures var promoted := org.(members := org.members[caller := higher]);
      (ReadGate(org, app, caller) == Pass ==> ReadGate(promoted, app, caller) == Pass) &&
      (WriteGate(org, app, caller) == Pass ==> WriteGate(promoted, app, caller) == Pass) &&
      (OrgWriteGate(org, caller) == Pass ==> OrgWriteGate(promoted, caller) == Pass)
  {
  }

  /** Giving the caller an app role, or raising theirs in rank order, never takes
      access away: the app OWNER role gives at least what the app USER role gives. */
  lemma GatesMonotoneInAppRank(org: Organization, app: App, caller: UserId, higher: AppRole)
    requires caller in app.roles ==> AppRank(app.roles[caller]) <= AppRank(higher)
    ensures var promoted := app.(roles := app.roles[caller := higher]);
      (ReadGate(org, app, caller) == Pass ==> ReadGate(org, promoted, caller) == Pass) &&
      (WriteGate(org, app, caller) == Pass ==> WriteGate(org, promoted, caller) == Pass)
    ensures caller in org.members ==>
      ReadGate(org, app.(roles := app.roles[caller := higher]), caller) == Pass
  {
  }

  // ---------------------------------------------------------------------------
  // Role-map invariants
  // ---------------------------------------------------------------------------

  /** The users holding the OWNER app role. */
  function Owners(roles: map<UserId, AppRole>): set<UserId>
  {
    set u | u in roles && roles[u] == AppOwner
  }

  /** How many entries of the map carry the OWNER role (the count the service
      compares against one). */
  function OwnerCount(roles: map<UserId, AppRole>): nat
  {
    |Owners(roles)|
  }

  /** The single-owner invariant, stated without counting. */
  ghost predicate SingleOwner(roles: map<UserId, AppRole>)
  {
    forall u, v :: u in roles && v in roles && roles[u] == AppOwner && roles[v] == AppOwner ==> u == v
  }

  lemma TwoOwnersCountTwice(roles: map<UserId, AppRole>, u: UserId, v: UserId)
    requires u != v && u in roles && v in roles && roles[u] == AppOwner && roles[v] == AppOwner
    ensures OwnerCount(roles) >= 2
  {
    var s := Owners(roles);
    var rest := s - {u};
    assert u in s && v in rest;
    assert |rest| == |s| - 1;
    assert rest != {};
  }

  lemma SingleOwnerCountsAtMostOne(roles: map<UserId, AppRole>)
    requires SingleOwner(roles)
    ensures OwnerCount(roles) <= 1
  {
    var s := Owners(roles);
    if s != {} {
      var u :| u in s;
      assert s == {u};
    }
  }

  /** The owner count check of the service is exactly the single-owner invariant. */
  lemma {:induction false} OwnerCountAtMostOne(roles: map<UserId, AppRole>)
    ensures OwnerCount(roles) <= 1 <==> SingleOwner(roles)
  {
    if SingleOwner(roles) {
      SingleOwnerCountsAtMostOne(roles);
    } else {
      var u, v :| u in roles && v in roles && roles[u] == AppOwner && roles[v] == AppOwner && u != v;
      TwoOwnersCountTwice(roles, u, v);
    }
  }

  /** The caller changes their own role when the proposed map gives them a role
      other than the one they hold now (including a role where they had none).
      Leaving the caller out of the proposed map is not a self role change. */
  predicate IsSelfRoleChange(current: map<UserId, AppRole>, proposed: map<UserId, AppRole>, caller: UserId)
  {
    caller in proposed && (caller !in current || current[caller] != proposed[caller])
  }

  /** Every user named in the role map is a member of the organization. */
  predicate BelongToOrg(org: Organization, roles: map<UserId, AppRole>)
  {
    roles.Keys <= org.members.Keys
  }

  /** Some app of the organization already carries this name (plain equality). */
  predicate NameTaken(apps: map<AppId, App>, orgGuid: string, name: string)
  {
    exists id :: id in apps && apps[id].orgGuid == orgGuid && apps[id].name == name
  }

  // ---------------------------------------------------------------------------
  // updateApp
  // ---------------------------------------------------------------------------

  /** The stored app after a successful update: a non-empty name overwrites the
      stored one, a non-empty role map replaces the stored one wholesale, and
      the id, guid and organization stay as they were. */
  function Patched(stored: App, upd: AppPayload): App
  {
    stored.(name := if upd.name != "" then upd.name else stored.name,
            roles := if |upd.roles| > 0 then upd.roles else stored.roles)
  }

  /** The checks of updateApp, in the order they fire. The name is checked
      against the organization's other apps; the role checks apply to the
      proposed map, and only when the payload carries one. */
  function UpdateVerdict(org: Organization, apps: map<AppId, App>, stored: App, upd: AppPayload, caller: UserId): Outcome
  {
    var gate := ReadGate(org, stored, caller);
    if gate.Fail? then gate
    else if upd.name != "" && NameTaken(apps - {stored.id}, stored.orgGuid, upd.name) then Fail(NameIsNotUnique)
    else if |upd.roles| == 0 then Pass
    else if OwnerCount(upd.roles) > 1 then Fail(MultipleOwners)
    else if IsSelfRoleChange(stored.roles, upd.roles, caller) then Fail(SelfRoleChange)
    else if !BelongToOrg(org, upd.roles) then Fail(UserDoesNotBelongToOrganization)
    else Pass
  }

  /** An update is accepted exactly when the caller passes the read gate, the new
      name is free among the organization's other apps, and a proposed role map
      has a single owner, leaves the caller's own role alone and names only
      organization members. */
  lemma {:induction false} UpdateAcceptedIff(org: Organization, apps: map<AppId, App>, stored: App, upd: AppPayload, caller: UserId)
    ensures UpdateVerdict(org, apps, stored, upd, caller) == Pass <==>
      && ReadGate(org, stored, caller) == Pass
      && !(upd.name != "" && NameTaken(apps - {stored.id}, stored.orgGuid, upd.name))
      && (|upd.roles| > 0 ==>
            SingleOwner(upd.roles) && !IsSelfRoleChange(stored.roles, upd.roles, caller) && BelongToOrg(org, upd.roles))
  {
    OwnerCountAtMostOne(upd.roles);
  }

  /** What an accepted update produces: the guid, id and organization are kept,
      and a replaced role map keeps the single-owner and org-membership
      invariants and the caller's own role. */
  lemma {:induction false} AcceptedUpdateKeepsInvariants(org: Organization, apps: map<AppId, App>, stored: App, upd: AppPayload, caller: UserId)
    requires UpdateVerdict(org, apps, stored, upd, caller) == Pass
    requires BelongToOrg(org, stored.roles)
    ensures var a := Patched(stored, upd);
      && a.id == stored.id && a.guid == stored.guid && a.orgGuid == stored.orgGuid
      && BelongToOrg(org, a.roles)
      && (a.name == stored.name || !NameTaken(apps - {stored.id}, stored.orgGuid, a.name))
      && (|upd.roles| > 0 ==> a.roles == upd.roles && SingleOwner(a.roles))
      && (|upd.roles| == 0 ==> a.roles == stored.roles)
      && (caller in a.roles ==> caller in stored.roles && a.roles[caller] == stored.roles[caller])
  {
    OwnerCountAtMostOne(upd.roles);
  }

  /** The order of the update's rejections: a failed gate is reported as it is,
      then a name taken by another app of the organization; past both, two
      owners are reported before the self role change and before the membership
      of the named users is looked at, and a self role change before the
      membership check. */
  lemma {:induction false} UpdateRejections(org: Organization, apps: map<AppId, App>, stored: App, upd: AppPayload, caller: UserId, u: UserId, v: UserId)
    ensures ReadGate(org, stored, caller).Fail? ==>
      UpdateVerdict(org, apps, stored, upd, caller) == ReadGate(org, stored, caller)
    ensures ReadGate(org, stored, caller) == Pass && upd.name != "" && NameTaken(apps - {stored.id}, stored.orgGuid, upd.name) ==>
      UpdateVerdict(org, apps, stored, upd, caller) == Fail(NameIsNotUnique)
    ensures var checked := ReadGate(org, stored, caller) == Pass && !(upd.name != "" && NameTaken(apps - {stored.id}, stored.orgGuid, upd.name));
      checked && u != v && u in upd.roles && v in upd.roles && upd.roles[u] == AppOwner && upd.roles[v] == AppOwner ==>
      UpdateVerdict(org, apps, stored, upd, caller) == Fail(MultipleOwners)
    ensures var checked := ReadGate(org, stored, caller) == Pass && !(upd.name != "" && NameTaken(apps - {stored.id}, stored.orgGuid, upd.name));
      checked && SingleOwner(upd.roles) && IsSelfRoleChange(stored.roles, upd.roles, caller) ==>
      UpdateVerdict(org, apps, stored, upd, caller) == Fail(SelfRoleChange)
    ensures var checked := ReadGate(org, stored, caller) == Pass && !(upd.name != "" && NameTaken(apps - {stored.id}, stored.orgGuid, upd.name));
      checked && SingleOwner(upd.roles) && !IsSelfRoleChange(stored.roles, upd.roles, caller) && u in upd.roles && u !in org.members ==>
      UpdateVerdict(org, apps, stored, upd, caller) == Fail(UserDoesNotBelongToOrganization)
  {
    OwnerCountAtMostOne(upd.roles);
    if u != v && u in upd.roles && v in upd.roles && upd.roles[u] == AppOwner && upd.roles[v] == AppOwner {
      TwoOwnersCountTwice(upd.roles, u, v);
    }
  }

  // ---------------------------------------------------------------------------
  // createApp
  // ---------------------------------------------------------------------------

  /** The checks of createApp, in the order they fire. The draft's role map is
      taken as given and held to the single-owner and membership rules. */
  function CreateVerdict(org: Organization, apps: map<AppId, App>, draft: AppPayload, caller: UserId): Outcome
  {
    var gate := OrgWriteGate(org, caller);
    if gate.Fail? then gate
    else if draft.name == "" then Fail(EmptyRequiredField)
    else if NameTaken(apps, org.guid, draft.name) then Fail(NameIsNotUnique)
    else if OwnerCount(draft.roles) > 1 then Fail(MultipleOwners)
    else if !BelongToOrg(org, draft.roles) then Fail(UserDoesNotBelongToOrganization)
    else Pass
  }

  /** A creation is accepted exactly when the caller has org write access, the
      name is non-empty and unused in the organization, and the draft's role map
      has a single owner and names only members. */
  lemma {:induction false} CreateAcceptedIff(org: Organization, apps: map<AppId, App>, draft: AppPayload, caller: UserId)
    ensures CreateVerdict(org, apps, draft, caller) == Pass <==>
      && caller in org.members && HasOrgWriteAccess(org.members[caller])
      && draft.name != "" && !NameTaken(apps, org.guid, draft.name)
      && SingleOwner(draft.roles) && BelongToOrg(org, draft.roles)
  {
    OwnerCountAtMostOne(draft.roles);
  }

  /** The rejections of createApp, each for the input that provokes it. */
  lemma CreateRejections(org: Organization, apps: map<AppId, App>, draft: AppPayload, caller: UserId)
    ensures caller !in org.members ==> CreateVerdict(org, apps, draft, caller) == Fail(UserDoesNotBelongToOrganization)
    ensures caller in org.members && org.members[caller] == OrgUser ==>
      CreateVerdict(org, apps, draft, caller) == Fail(InsufficientPrivileges)
    ensures OrgWriteGate(org, caller) == Pass && draft.name == "" ==>
      CreateVerdict(org, apps, draft, caller) == Fail(EmptyRequiredField)
    ensures OrgWriteGate(org, caller) == Pass && draft.name != "" && NameTaken(apps, org.guid, draft.name) ==>
      CreateVerdict(org, apps, draft, caller) == Fail(NameIsNotUnique)
  {
  }

  // ---------------------------------------------------------------------------
  // getAppUsers and inviteUser
  // ---------------------------------------------------------------------------

  /** The checks of getAppUsers: membership, then the app must belong to the
      organization named in the request, then the read gate. */
  function ListUsersVerdict(org: Organization, app: App, orgGuid: string, caller: UserId): Outcome
  {
    if caller !in org.members then Fail(UserDoesNotBelongToOrganization)
    else if app.orgGuid != orgGuid then Fail(AppDoesNotBelongToOrg)
    else ReadGate(org, app, caller)
  }

  /** The checks of inviteUser: membership, the app's organization, org write
      access, then the invitee (looked up by email) must exist, be a member and
      hold no role on the app yet. */
  function InviteVerdict(org: Organization, app: App, orgGuid: string, directory: map<string, User>, email: string, caller: UserId): Outcome
  {
    if caller !in org.members then Fail(UserDoesNotBelongToOrganization)
    else if app.orgGuid != orgGuid then Fail(AppDoesNotBelongToOrg)
    else if !HasOrgWriteAccess(org.members[caller]) then Fail(InsufficientPrivileges)
    else if email !in directory then Fail(UserNotFound)
    else if directory[email].id !in org.members then Fail(UserDoesNotBelongToOrganization)
    else if directory[email].id in app.roles then Fail(UserAlreadyHasAccessToApp)
    else Pass
  }

  /** An accepted invitation adds exactly one entry, for a member who had none, so
      the app's role map still names only members and grows by one. */
  lemma AcceptedInviteAddsOneMember(org: Organization, app: App, orgGuid: string, directory: map<string, User>, email: string, caller: UserId, role: AppRole)
    requires InviteVerdict(org, app, orgGuid, directory, email, caller) == Pass
    requires BelongToOrg(org, app.roles)
    ensures email in directory
    ensures var grown := app.roles[directory[email].id := role];
      BelongToOrg(org, grown) && |grown| == |app.roles| + 1 && grown.Keys == app.roles.Keys + {directory[email].id}
  {
  }

  /** inviteUser does not count owners: an OWNER invitation accepted on an app
      that already has an owner leaves the app with two. */
  lemma InviteMayAddSecondOwner(org: Organization, app: App, orgGuid: string, directory: map<string, User>, email: string, caller: UserId, owner: UserId)
    requires InviteVerdict(org, app, orgGuid, directory, email, caller) == Pass
    requires owner in app.roles && app.roles[owner] == AppOwner
    ensures email in directory && directory[email].id != owner
    ensures !SingleOwner(app.roles[directory[email].id := AppOwner])
  {
    var grown := app.roles[directory[email].id := AppOwner];
    assert grown[owner] == AppOwner && grown[directory[email].id] == AppOwner;
  }

  /** An app of another organization is refused before the invitee is looked at;
      an invitee unknown to the directory or outside the organization is refused,
      and so is one who already holds any role, whatever that role. */
  lemma InviteRejections(org: Organization, app: App, orgGuid: string, directory: map<string, User>, email: string, caller: UserId)
    ensures caller in org.members && app.orgGuid != orgGuid ==>
      InviteVerdict(org, app, orgGuid, directory, email, caller) == Fail(AppDoesNotBelongToOrg)
    ensures caller in org.members && app.orgGuid == orgGuid && org.members[caller] == OrgUser ==>
      InviteVerdict(org, app, orgGuid, directory, email, caller) == Fail(InsufficientPrivileges)
    ensures OrgWriteGate(org, caller) == Pass && app.orgGuid == orgGuid && email in directory &&
            directory[email].id in org.members && directory[email].id in app.roles ==>
      InviteVerdict(org, app, orgGuid, directory, email, caller) == Fail(UserAlreadyHasAccessToApp)
    ensures OrgWriteGate(org, caller) == Pass && app.orgGuid == orgGuid && email in directory &&
            directory[email].id !in org.members ==>
      InviteVerdict(org, app, orgGuid, directory, email, caller) == Fail(UserDoesNotBelongToOrganization)
    ensures OrgWriteGate(org, caller) == Pass && app.orgGuid == orgGuid && email !in directory ==>
      InviteVerdict(org, app, orgGuid, directory, email, caller) == Fail(UserNotFound)
  {
  }
}
