/** The app access-control service over its stores: the organization directory
    (read-only here), the user directory (read-only here) and the app store,
    indexed by id and by guid. Each operation loads what it needs, runs the
    validation of module Access on it and only then writes; a failing check
    leaves every field as it was. */
module Service {
  import opened Roles
  import opened Entities
  import opened Access
  import opened Search
  import opened Guids

  // ---------------------------------------------------------------------------
  // The store invariant, in parts
  // ---------------------------------------------------------------------------

  /** The external directories: organizations keyed by their guid, users keyed by
      id and by email, and every organization member known to the user directory. */
  ghost predicate DirectoryValid(orgs: map<string, Organization>, users: map<UserId, User>, usersByEmail: map<string, User>)
  {
    && (forall g :: g in orgs ==> orgs[g].guid == g)
    && (forall u :: u in users ==> users[u].id == u)
    && (forall e :: e in usersByEmail ==>
          usersByEmail[e].email == e && usersByEmail[e].id in users && users[usersByEmail[e].id] == usersByEmail[e])
    && (forall g, u :: g in orgs && u in orgs[g].members ==> u in users)
  }

  /** The guid index is a bijection onto the stored apps, every guid ever handed
      out is remembered, and ids below `nextId` are the only ones in use. */
  ghost predicate Indexed(apps: map<AppId, App>, index: map<string, AppId>, issued: set<string>, nextId: AppId)
  {
    && (forall id :: id in apps ==>
          apps[id].id == id && id < nextId && apps[id].guid != "" &&
          apps[id].guid in index && index[apps[id].guid] == id)
    && (forall g :: g in index ==> index[g] in apps && apps[index[g]].guid == g)
    && index.Keys <= issued
  }

  /** Every app belongs to a known organization, and every user holding a role on
      it is a member of that organization (app access is a subset of organization
      access). */
  ghost predicate Placed(orgs: map<string, Organization>, apps: map<AppId, App>)
  {
    forall id :: id in apps ==> apps[id].orgGuid in orgs && BelongToOrg(orgs[apps[id].orgGuid], apps[id].roles)
  }

  /** App names are unique within an organization. */
  ghost predicate NamesUnique(apps: map<AppId, App>)
  {
    forall i, j :: i in apps && j in apps && i != j && apps[i].orgGuid == apps[j].orgGuid ==> apps[i].name != apps[j].name
  }

  ghost predicate StoreValid(orgs: map<string, Organization>, apps: map<AppId, App>, index: map<string, AppId>, issued: set<string>, nextId: AppId)
  {
    Indexed(apps, index, issued, nextId) && Placed(orgs, apps) && NamesUnique(apps)
  }

  // ---------------------------------------------------------------------------
  // The four ways the store changes, each shown to keep the invariant
  // ---------------------------------------------------------------------------

  /** Saving a changed app under its old id and guid. */
  lemma {:induction false} ReplaceKeepsStore(orgs: map<string, Organization>, apps: map<AppId, App>, index: map<string, AppId>, issued: set<string>, nextId: AppId, a: App)
    requires StoreValid(orgs, apps, index, issued, nextId)
    requires a.id in apps && a.guid == apps[a.id].guid && a.orgGuid == apps[a.id].orgGuid
    requires BelongToOrg(orgs[a.orgGuid], a.roles)
    requires a.name == apps[a.id].name || !NameTaken(apps - {a.id}, a.orgGuid, a.name)
    ensures StoreValid(orgs, apps[a.id := a], index, issued, nextId)
  {
    var apps' := apps[a.id := a];
    forall i, j | i in apps' && j in apps' && i != j && apps'[i].orgGuid == apps'[j].orgGuid
      ensures apps'[i].name != apps'[j].name
    {
      if i == a.id && a.name != apps[a.id].name {
        assert j in apps - {a.id};
      } else if j == a.id && a.name != apps[a.id].name {
        assert i in apps - {a.id};
      }
    }
  }

  /** Saving a new app under a fresh id and a never issued guid. */
  lemma {:induction false} InsertKeepsStore(orgs: map<string, Organization>, apps: map<AppId, App>, index: map<string, AppId>, issued: set<string>, nextId: AppId, a: App)
    requires StoreValid(orgs, apps, index, issued, nextId)
    requires a.id == nextId && a.guid != "" && a.guid !in issued
    requires a.orgGuid in orgs && BelongToOrg(orgs[a.orgGuid], a.roles)
    requires !NameTaken(apps, a.orgGuid, a.name)
    ensures StoreValid(orgs, apps[a.id := a], index[a.guid := a.id], issued + {a.guid}, nextId + 1)
  {
    var apps', index' := apps[a.id := a], index[a.guid := a.id];
    forall g | g in index' ensures index'[g] in apps' && apps'[index'[g]].guid == g {
      if g != a.guid {
        assert index[g] in apps;
      }
    }
  }

  /** Giving an app a never issued guid; its old guid leaves the index. */
  lemma {:induction false} RegenerateKeepsStore(orgs: map<string, Organization>, apps: map<AppId, App>, index: map<string, AppId>, issued: set<string>, nextId: AppId, id: AppId, g: string)
    requires StoreValid(orgs, apps, index, issued, nextId)
    requires id in apps && g != "" && g !in issued
    ensures StoreValid(orgs, apps[id := apps[id].(guid := g)], (index - {apps[id].guid})[g := id], issued + {g}, nextId)
  {
    var a := apps[id];
    var apps', index' := apps[id := a.(guid := g)], (index - {a.guid})[g := id];
    forall k | k in apps' ensures apps'[k].guid in index' && index'[apps'[k].guid] == k {
      if k != id {
        assert apps[k].guid != a.guid;
      }
    }
    forall h | h in index' ensures index'[h] in apps' && apps'[index'[h]].guid == h {
      if h != g {
        assert index[h] != id;
      }
    }
  }

  /** Removing an app and its guid. */
  lemma {:induction false} RemoveKeepsStore(orgs: map<string, Organization>, apps: map<AppId, App>, index: map<string, AppId>, issued: set<string>, nextId: AppId, id: AppId)
    requires StoreValid(orgs, apps, index, issued, nextId)
    requires id in apps
    ensures StoreValid(orgs, apps - {id}, index - {apps[id].guid}, issued, nextId)
  {
    var apps', index' := apps - {id}, index - {apps[id].guid};
    forall k | k in apps' ensures apps'[k].guid in index' && index'[apps'[k].guid] == k {
      assert apps[k].guid != apps[id].guid;
    }
  }

  // ---------------------------------------------------------------------------
  // The service
  // ---------------------------------------------------------------------------

  class AppService {
    /** Organization lookup by guid (an external service; never changed here). */
    var orgs: map<string, Organization>
    /** User lookup by id and by email (an external service; never changed here). */
    var users: map<UserId, User>
    var usersByEmail: map<string, User>
    /** The app repository, by id and by guid. */
    var apps: map<AppId, App>
    var appIdByGuid: map<string, AppId>
    /** Every guid ever given to an app; a new guid is never one of these. */
    var issuedGuids: set<string>
    /** The id the repository gives the next app it saves. */
    var nextId: AppId

    ghost predicate Valid()
      reads this
    {
      DirectoryValid(orgs, users, usersByEmail) && StoreValid(orgs, apps, appIdByGuid, issuedGuids, nextId)
    }

    constructor (orgs: map<string, Organization>, users: map<UserId, User>, usersByEmail: map<string, User>)
      requires DirectoryValid(orgs, users, usersByEmail)
      ensures Valid()
      ensures this.orgs == orgs && this.users == users && this.usersByEmail == usersByEmail
      ensures apps == map[] && appIdByGuid == map[] && issuedGuids == {} && nextId == 0
    {
      this.orgs, this.users, this.usersByEmail := orgs, users, usersByEmail;
      apps, appIdByGuid, issuedGuids, nextId := map[], map[], {}, 0;
    }

    /** The organization an app belongs to. */
    function OrgOf(a: App): Organization
      reads this
      requires Valid() && a.id in apps && apps[a.id] == a
    {
      orgs[a.orgGuid]
    }

    // --- reads ---------------------------------------------------------------

    /** getApp: the app with this guid, for a caller who passes the read gate. */
    function GetApp(appGuid: string, caller: UserId): (r: Result<App>)
      reads this
      requires Valid()
      ensures appGuid !in appIdByGuid ==> r == Failure(AppNotFound)
      ensures appGuid in appIdByGuid ==>
        var a := apps[appIdByGuid[appGuid]];
        var org := orgs[a.orgGuid];
        && (caller !in org.members ==> r == Failure(UserDoesNotBelongToOrganization))
        && (caller in org.members && HasOrgWriteAccess(org.members[caller]) ==> r == Success(a))
        && (caller in org.members && org.members[caller] == OrgUser ==>
              r == if caller in a.roles then Success(a) else Failure(InsufficientPrivileges))
      ensures r.Success? ==> r.value.guid == appGuid && r.value.id in apps && apps[r.value.id] == r.value
    {
      if appGuid !in appIdByGuid then Failure(AppNotFound)
      else
        var a := apps[appIdByGuid[appGuid]];
        match ReadGate(OrgOf(a), a, caller)
        case Pass => Success(a)
        case Fail(e) => Failure(e)
    }

    /** getApps: all apps of the organization for a write role, only the apps the
        caller holds a role on for an org USER. */
    function GetApps(orgGuid: string, caller: UserId): (r: Result<set<App>>)
      reads this
      requires Valid()
      ensures orgGuid !in orgs ==> r == Failure(OrganizationNotFound)
      ensures orgGuid in orgs && caller !in orgs[orgGuid].members ==> r == Failure(UserDoesNotBelongToOrganization)
      ensures orgGuid in orgs && caller in orgs[orgGuid].members ==>
        r.Success? &&
        forall a :: a in r.value <==>
          a in apps.Values && a.orgGuid == orgGuid && (HasOrgWriteAccess(orgs[orgGuid].members[caller]) || caller in a.roles)
    {
      if orgGuid !in orgs then Failure(OrganizationNotFound)
      else
        match OrgRoleOf(orgs[orgGuid], caller)
        case None => Failure(UserDoesNotBelongToOrganization)
        case Some(role) =>
          if HasOrgWriteAccess(role) then Success(set id | id in apps && apps[id].orgGuid == orgGuid :: apps[id])
          else Success(set id | id in apps && apps[id].orgGuid == orgGuid && caller in apps[id].roles :: apps[id])
    }

    /** The list of getApps is exactly the set of the organization's apps that
        getApp would hand to the same caller. */
    lemma {:induction false} GetAppsAgreesWithGetApp(orgGuid: string, caller: UserId, id: AppId)
      requires Valid()
      requires orgGuid in orgs && caller in orgs[orgGuid].members
      requires id in apps && apps[id].orgGuid == orgGuid
      ensures apps[id] in GetApps(orgGuid, caller).value <==> GetApp(apps[id].guid, caller) == Success(apps[id])
    {
      var a := apps[id];
      assert appIdByGuid[a.guid] == id;
      assert a in apps.Values;
    }

    /** getAppUsers: the app's role entries matching the search term, for a member
        of the app's organization who names that organization and passes the
        read gate. */
    function GetAppUsers(term: string, orgGuid: string, appGuid: string, caller: UserId): (r: Result<set<UserAppRole>>)
      reads this
      requires Valid()
      ensures appGuid !in appIdByGuid ==> r == Failure(AppNotFound)
      ensures appGuid in appIdByGuid ==>
        var a := apps[appIdByGuid[appGuid]];
        var org := orgs[a.orgGuid];
        && (caller !in org.members ==> r == Failure(UserDoesNotBelongToOrganization))
        && (caller in org.members && a.orgGuid != orgGuid ==> r == Failure(AppDoesNotBelongToOrg))
        && (caller in org.members && a.orgGuid == orgGuid && !HasOrgWriteAccess(org.members[caller]) && caller !in a.roles ==>
              r == Failure(InsufficientPrivileges))
        && (r.Success? <==>
              caller in org.members && a.orgGuid == orgGuid && (HasOrgWriteAccess(org.members[caller]) || caller in a.roles))
        && (r.Success? ==> r.value == MemberEntries(users, a, term))
        && (r.Success? && term == "" ==> |r.value| == |a.roles|)
    {
      if appGuid !in appIdByGuid then Failure(AppNotFound)
      else
        var a := apps[appIdByGuid[appGuid]];
        match ListUsersVerdict(OrgOf(a), a, orgGuid, caller)
        case Fail(e) => Failure(e)
        case Pass =>
          EmptyTermListsEveryone(users, a);
          Success(MemberEntries(users, a, term))
    }

    // --- writes --------------------------------------------------------------

    /** createApp: validates the draft, then saves it under a fresh id and a guid
        never issued before. */
    method CreateApp(orgGuid: string, draft: AppPayload, caller: UserId) returns (r: Result<App>)
      requires Valid()
      modifies this`apps, this`appIdByGuid, this`issuedGuids, this`nextId
      ensures Valid()
      ensures r.Failure? ==> unchanged(this)
      ensures orgGuid !in old(orgs) ==> r == Failure(OrganizationNotFound)
      ensures orgGuid in old(orgs) ==>
        var verdict := CreateVerdict(orgs[orgGuid], old(apps), draft, caller);
        && (verdict.Fail? ==> r == Failure(verdict.error))
        && (verdict == Pass ==>
              && r.Success?
              && r.value == App(old(nextId), draft.name, r.value.guid, orgGuid, draft.roles)
              && r.value.guid != "" && r.value.guid !in old(issuedGuids)
              && apps == old(apps)[r.value.id := r.value]
              && appIdByGuid == old(appIdByGuid)[r.value.guid := r.value.id]
              && issuedGuids == old(issuedGuids) + {r.value.guid}
              && nextId == old(nextId) + 1)
      ensures r.Success? ==> SingleOwner(r.value.roles) && GetApp(r.value.guid, caller) == Success(r.value)
    {
      if orgGuid !in orgs {
        return Failure(OrganizationNotFound);
      }
      var org := orgs[orgGuid];
      var verdict := CreateVerdict(org, apps, draft, caller);
      if verdict.Fail? {
        return Failure(verdict.error);
      }
      CreateAcceptedIff(org, apps, draft, caller);
      FreshGuidExists(issuedGuids);
      var guid :| guid !in issuedGuids && guid != "";
      var a := App(nextId, draft.name, guid, orgGuid, draft.roles);
      InsertKeepsStore(orgs, apps, appIdByGuid, issuedGuids, nextId, a);
      apps, appIdByGuid, issuedGuids, nextId := apps[a.id := a], appIdByGuid[guid := a.id], issuedGuids + {guid}, nextId + 1;
      return Success(a);
    }

    /** updateApp: validates the payload against the stored app, then overwrites
        the name (when one is given) and replaces the role map wholesale (when one
        is given); the stored guid is kept. */
    method UpdateApp(appGuid: string, upd: AppPayload, caller: UserId) returns (r: Result<App>)
      requires Valid()
      modifies this`apps
      ensures Valid()
      ensures r.Failure? ==> unchanged(this)
      ensures appGuid !in old(appIdByGuid) ==> r == Failure(AppNotFound)
      ensures appGuid in old(appIdByGuid) ==>
        var stored := old(apps)[appIdByGuid[appGuid]];
        var verdict := UpdateVerdict(orgs[stored.orgGuid], old(apps), stored, upd, caller);
        && (verdict.Fail? ==> r == Failure(verdict.error))
        && (verdict == Pass ==> r == Success(Patched(stored, upd)) && apps == old(apps)[stored.id := Patched(stored, upd)])
      ensures r.Success? ==>
        var stored := old(apps)[r.value.id];
        && r.value.guid == appGuid && r.value.guid == stored.guid
        && (upd.name != "" ==> r.value.name == upd.name)
        && (|upd.roles| > 0 ==> r.value.roles == upd.roles && SingleOwner(r.value.roles))
        && (|upd.roles| == 0 ==> r.value.roles == stored.roles)
        && (caller in r.value.roles ==> caller in stored.roles && r.value.roles[caller] == stored.roles[caller])
    {
      if appGuid !in appIdByGuid {
        return Failure(AppNotFound);
      }
      var stored := apps[appIdByGuid[appGuid]];
      var org := OrgOf(stored);
      var verdict := UpdateVerdict(org, apps, stored, upd, caller);
      if verdict.Fail? {
        return Failure(verdict.error);
      }
      var updated := Patched(stored, upd);
      AcceptedUpdateKeepsInvariants(org, apps, stored, upd, caller);
      ReplaceKeepsStore(orgs, apps, appIdByGuid, issuedGuids, nextId, updated);
      apps := apps[stored.id := updated];
      return Success(updated);
    }

    /** regenerateApiKey: gives the app a guid never issued before; the old guid
        stops resolving and can never be handed out again. */
    method RegenerateApiKey(appGuid: string, caller: UserId) returns (r: Result<App>)
      requires Valid()
      modifies this`apps, this`appIdByGuid, this`issuedGuids
      ensures Valid()
      ensures r.Failure? ==> unchanged(this)
      ensures appGuid !in old(appIdByGuid) ==> r == Failure(AppNotFound)
      ensures appGuid in old(appIdByGuid) ==>
        var a := old(apps)[old(appIdByGuid)[appGuid]];
        var verdict := WriteGate(orgs[a.orgGuid], a, caller);
        && (verdict.Fail? ==> r == Failure(verdict.error))
        && (verdict == Pass ==>
              && r.Success? && r.value == a.(guid := r.value.guid)
              && r.value.guid != "" && r.value.guid !in old(issuedGuids)
              && apps == old(apps)[a.id := r.value]
              && appIdByGuid == (old(appIdByGuid) - {appGuid})[r.value.guid := a.id]
              && issuedGuids == old(issuedGuids) + {r.value.guid})
      ensures r.Success? ==>
        && GetApp(r.value.guid, caller) == Success(r.value)
        && GetApp(appGuid, caller) == Failure(AppNotFound)
        && appGuid in issuedGuids
    {
      if appGuid !in appIdByGuid {
        return Failure(AppNotFound);
      }
      var a := apps[appIdByGuid[appGuid]];
      var verdict := WriteGate(OrgOf(a), a, caller);
      if verdict.Fail? {
        return Failure(verdict.error);
      }
      GateHierarchy(OrgOf(a), a, caller);
      FreshGuidExists(issuedGuids);
      var guid :| guid !in issuedGuids && guid != "";
      RegenerateKeepsStore(orgs, apps, appIdByGuid, issuedGuids, nextId, a.id, guid);
      var renewed := a.(guid := guid);
      apps, appIdByGuid, issuedGuids := apps[a.id := renewed], (appIdByGuid - {appGuid})[guid := a.id], issuedGuids + {guid};
      return Success(renewed);
    }

    /** deleteApp: removes the app, and its role entries with it, by id. */
    method DeleteApp(appGuid: string, caller: UserId) returns (r: Outcome)
      requires Valid()
      modifies this`apps, this`appIdByGuid
      ensures Valid()
      ensures r.Fail? ==> unchanged(this)
      ensures appGuid !in old(appIdByGuid) ==> r == Fail(AppNotFound)
      ensures appGuid in old(appIdByGuid) ==>
        var a := old(apps)[old(appIdByGuid)[appGuid]];
        var verdict := WriteGate(orgs[a.orgGuid], a, caller);
        && r == verdict
        && (verdict == Pass ==> apps == old(apps) - {a.id} && appIdByGuid == old(appIdByGuid) - {appGuid})
      ensures r == Pass ==> GetApp(appGuid, caller) == Failure(AppNotFound)
    {
      if appGuid !in appIdByGuid {
        return Fail(AppNotFound);
      }
      var a := apps[appIdByGuid[appGuid]];
      r := WriteGate(OrgOf(a), a, caller);
      if r.Fail? {
        return;
      }
      RemoveKeepsStore(orgs, apps, appIdByGuid, issuedGuids, nextId, a.id);
      apps, appIdByGuid := apps - {a.id}, appIdByGuid - {appGuid};
    }

    /** inviteUser: gives an organization member who holds no role on the app the
        requested role, and returns the new entry. */
    method InviteUser(email: string, role: AppRole, orgGuid: string, appGuid: string, caller: UserId) returns (r: Result<UserAppRole>)
      requires Valid()
      modifies this`apps
      ensures Valid()
      ensures r.Failure? ==> unchanged(this)
      ensures appGuid !in old(appIdByGuid) ==> r == Failure(AppNotFound)
      ensures appGuid in old(appIdByGuid) ==>
        var a := old(apps)[appIdByGuid[appGuid]];
        var verdict := InviteVerdict(orgs[a.orgGuid], a, orgGuid, usersByEmail, email, caller);
        && (verdict.Fail? ==> r == Failure(verdict.error))
        && (verdict == Pass ==>
              && r == Success(UserAppRole(usersByEmail[email], a.id, role))
              && apps == old(apps)[a.id := a.(roles := a.roles[usersByEmail[email].id := role])])
      ensures r.Success? ==>
        && r.value.user.email == email && r.value.role == role
        && r.value.user.id !in old(apps)[r.value.appId].roles
        && GetApp(appGuid, r.value.user.id).Success?
    {
      if appGuid !in appIdByGuid {
        return Failure(AppNotFound);
      }
      var a := apps[appIdByGuid[appGuid]];
      var org := OrgOf(a);
      var verdict := InviteVerdict(org, a, orgGuid, usersByEmail, email, caller);
      if verdict.Fail? {
        return Failure(verdict.error);
      }
      var invitee := usersByEmail[email];
      AcceptedInviteAddsOneMember(org, a, orgGuid, usersByEmail, email, caller, role);
      var grown := a.(roles := a.roles[invitee.id := role]);
      ReplaceKeepsStore(orgs, apps, appIdByGuid, issuedGuids, nextId, grown);
      apps := apps[a.id := grown];
      return Success(UserAppRole(invitee, a.id, role));
    }
  }
}
