/** The fixtures of the service's unit tests, replayed on the model, followed by
    two consequences of the model that no test exercises (InviteSecondOwner,
    RenameKeepsTwoOwners). The caller is user 3 and the organization's guid is
    "org-guid"; a lemma over `role` with `requires role in WriteRoles` stands for
    a test run once per write role. */
module Scenarios {
  import opened Roles
  import opened Entities
  import opened Access
  import opened Search

  const Caller: UserId := 3

  function RepoApp(roles: map<UserId, AppRole>): App
  {
    App(1, "name", "app-guid", "org-guid", roles)
  }

  /** An update by a write role that renames the app and hands ownership to user 4:
      the name is overwritten, the guid in the payload is ignored and the role map
      becomes exactly the payload's, with the caller dropping out of it. */
  lemma UpdateHandsOverOwnership(role: OrgRole)
    requires role in WriteRoles
    ensures var org := Organization("org-guid", map[Caller := role, 4 := OrgUser]);
      var stored := RepoApp(map[Caller := AppOwner]);
      var upd := AppPayload("new_name", "new_guid", map[4 := AppOwner]);
      var a := Patched(stored, upd);
      && UpdateVerdict(org, map[1 := stored], stored, upd, Caller) == Pass
      && a.name == "new_name" && a.guid == "app-guid" && a.roles == map[4 := AppOwner] && |a.roles| == 1
  {
    var stored := RepoApp(map[Caller := AppOwner]);
    assert (map[1 := stored] - {1}) == map[];
    assert OwnerCount(map[4 := AppOwner]) == 1 by {
      assert Owners(map[4 := AppOwner]) == {4};
    }
  }

  /** Two owners in the payload are refused even though neither is a member. */
  lemma UpdateWithTwoOwners(role: OrgRole)
    requires role in WriteRoles
    ensures var org := Organization("org-guid", map[Caller := role]);
      var stored := RepoApp(map[Caller := AppOwner]);
      var upd := AppPayload("", "", map[4 := AppOwner, 5 := AppOwner]);
      UpdateVerdict(org, map[1 := stored], stored, upd, Caller) == Fail(MultipleOwners)
  {
    var org := Organization("org-guid", map[Caller := role]);
    var stored := RepoApp(map[Caller := AppOwner]);
    var upd := AppPayload("", "", map[4 := AppOwner, 5 := AppOwner]);
    UpdateRejections(org, map[1 := stored], stored, upd, Caller, 4, 5);
  }

  /** The owner demoting themselves to USER is a self role change. */
  lemma UpdateDemotingSelf(role: OrgRole)
    requires role in WriteRoles
    ensures var org := Organization("org-guid", map[Caller := role]);
      var stored := RepoApp(map[Caller := AppOwner]);
      var upd := AppPayload("", "", map[Caller := AppUser]);
      UpdateVerdict(org, map[1 := stored], stored, upd, Caller) == Fail(SelfRoleChange)
  {
    assert Owners(map[Caller := AppUser]) == {};
  }

  /** A payload naming user 2, who is not in the organization, is refused. */
  lemma UpdateWithStranger(role: OrgRole)
    requires role in WriteRoles
    ensures var org := Organization("org-guid", map[Caller := role]);
      var stored := App(1, "name", "app-guid", "org-guid", map[]);
      var upd := AppPayload("", "", map[2 := AppUser]);
      UpdateVerdict(org, map[1 := stored], stored, upd, Caller) == Fail(UserDoesNotBelongToOrganization)
  {
    assert Owners(map[2 := AppUser]) == {};
  }

  /** A new name already used by another app of the organization is refused. */
  lemma UpdateToTakenName(role: OrgRole)
    requires role in WriteRoles
    ensures var org := Organization("org-guid", map[Caller := role]);
      var stored := RepoApp(map[Caller := AppOwner]);
      var other := App(2, "new_name", "other-guid", "org-guid", map[]);
      var upd := AppPayload("new_name", "", map[]);
      UpdateVerdict(org, map[1 := stored, 2 := other], stored, upd, Caller) == Fail(NameIsNotUnique)
  {
    var stored := RepoApp(map[Caller := AppOwner]);
    var other := App(2, "new_name", "other-guid", "org-guid", map[]);
    assert 2 in map[1 := stored, 2 := other] - {1};
  }

  /** An org USER without an app role may neither update, regenerate nor delete. */
  lemma OrgUserWithoutAppRole(upd: AppPayload)
    ensures var org := Organization("org-guid", map[Caller := OrgUser]);
      var stored := App(1, "", "app-guid", "org-guid", map[]);
      && UpdateVerdict(org, map[1 := stored], stored, upd, Caller) == Fail(InsufficientPrivileges)
      && WriteGate(org, stored, Caller) == Fail(InsufficientPrivileges)
  {
  }

  /** The members of the search test. */
  const Will := User(1, "Will", "Smith", "ws@example.com")
  const Maria := User(2, "Maria", "Smith", "sj@example.com")
  const Steve := User(3, "Steve", "Jobs", "sj@example.com")

  /** Searching "smith" lists the two Smiths and not Steve Jobs; "SMITH" lists the same. */
  lemma SearchForSmith(users: map<UserId, User>, app: App)
    requires users == map[1 := Will, 2 := Maria, 3 := Steve]
    requires app == App(1, "", "app-guid", "org-guid", map[1 := AppOwner, 2 := AppUser, 3 := AppUser])
    ensures MemberEntries(users, app, "smith") == {UserAppRole(Will, 1, AppOwner), UserAppRole(Maria, 1, AppUser)}
    ensures MemberEntries(users, app, "SMITH") == MemberEntries(users, app, "smith")
  {
    SmithsMatch();
    ListingOfTwo(users, app, "smith");
    UpperCaseTerm(users, app, "smith", "SMITH");
  }

  lemma UpperCaseTerm(users: map<UserId, User>, app: App, term: string, upper: string)
    requires term == "smith" && upper == "SMITH"
    requires app.roles.Keys <= users.Keys
    ensures MemberEntries(users, app, upper) == MemberEntries(users, app, term)
  {
    SearchIgnoresTermCase(users, app, term);
    assert UpperAll(term) == upper;
  }

  /** Of three role holders 1, 2 and 3, the first two match and the third does
      not: the listing is exactly the first two entries. */
  lemma ListingOfTwo(users: map<UserId, User>, app: App, term: string)
    requires app.roles.Keys == {1, 2, 3} && app.roles.Keys <= users.Keys
    requires Matches(users[1], term) && Matches(users[2], term) && !Matches(users[3], term)
    ensures MemberEntries(users, app, term) == {Entry(users, app, 1), Entry(users, app, 2)}
  {
    var listed := MemberEntries(users, app, term);
    assert Entry(users, app, 1) in listed;
    assert Entry(users, app, 2) in listed;
    forall x | x in listed ensures x == Entry(users, app, 1) || x == Entry(users, app, 2) {
      var u :| u in app.roles && Matches(users[u], term) && x == Entry(users, app, u);
      assert u != 3;
    }
  }

  lemma SmithsMatch()
    ensures Matches(Will, "smith") && Matches(Maria, "smith") && !Matches(Steve, "smith")
  {
    LowerAllOfLowerCase("smith");
    assert LowerAll("Smith") == "smith";
    assert Contains("smith", "smith");
    LowerAllOfLowerCase("sj@example.com");
    assert LowerAll("Steve") == "steve";
    assert LowerAll("Jobs") == "jobs";
    NotContainsSmith("steve");
    NotContainsSmith("jobs");
    NotContainsSmith("sj@example.com");
  }

  lemma NotContainsSmith(s: string)
    requires s in {"steve", "jobs", "sj@example.com"}
    ensures !Contains(s, "smith")
  {
    assert "smith"[4] == 'h';
    LacksLetter(s, "smith", 4);
  }

  /** A string in which the letter `t[j]` does not occur does not contain `t`. */
  lemma LacksLetter(s: string, t: string, j: nat)
    requires j < |t| && forall i :: 0 <= i < |s| ==> s[i] != t[j]
    ensures !Contains(s, t)
  {
    ContainsIff(s, t);
    OccurrenceHoldsLetter(s, t, j);
  }

  /** Wherever `t` occurs in `s`, each of its letters is found at the matching offset. */
  lemma OccurrenceHoldsLetter(s: string, t: string, j: nat)
    requires j < |t|
    ensures forall i :: OccursAt(s, t, i) ==> s[i + j] == t[j]
  {
    forall i | OccursAt(s, t, i) ensures s[i + j] == t[j] {
      assert s[i..i + |t|][j] == s[i + j];
    }
  }

  /** An app of another organization is refused to getAppUsers, even when the
      caller is its owner and a member of that organization. */
  lemma ListingAnotherOrgsApp(role: OrgRole)
    ensures var org2 := Organization("org-guid-3", map[Caller := role]);
      var app := App(1, "", "app-guid", "org-guid-3", map[Caller := AppOwner]);
      ListUsersVerdict(org2, app, "org-guid", Caller) == Fail(AppDoesNotBelongToOrg)
  {
  }

  /** Inviting into another organization's name is refused before any invitee is
      looked up (the test passes no email at all). */
  lemma InviteNamingAnotherOrg(role: OrgRole, directory: map<string, User>)
    requires role in WriteRoles
    ensures var org := Organization("org-guid", map[Caller := role]);
      var app := App(1, "", "app-guid", "org-guid", map[]);
      InviteVerdict(org, app, "org-guid-2", directory, "", Caller) == Fail(AppDoesNotBelongToOrg)
  {
  }

  /** Not a replay of a test but a consequence of the model: a write role
      inviting member 4 as OWNER of an app whose OWNER is user 5 is accepted, and
      the app then has two owners. */
  lemma InviteSecondOwner(role: OrgRole)
    requires role in WriteRoles
    ensures var org := Organization("org-guid", map[Caller := role, 4 := OrgUser, 5 := OrgUser]);
      var app := App(1, "", "app-guid", "org-guid", map[5 := AppOwner]);
      var directory := map["email" := User(4, "", "", "email")];
      && InviteVerdict(org, app, "org-guid", directory, "email", Caller) == Pass
      && !SingleOwner(app.roles[4 := AppOwner])
  {
    var org := Organization("org-guid", map[Caller := role, 4 := OrgUser, 5 := OrgUser]);
    var app := App(1, "", "app-guid", "org-guid", map[5 := AppOwner]);
    var directory := map["email" := User(4, "", "", "email")];
    InviteMayAddSecondOwner(org, app, "org-guid", directory, "email", Caller, 5);
  }

  /** Not a replay of a test but a consequence of the model: an update that
      carries no role map is not held to the owner rule. After an
      invitation gave the app a second owner, a rename still passes and the two
      owners stay. */
  lemma RenameKeepsTwoOwners(role: OrgRole)
    requires role in WriteRoles
    ensures var org := Organization("org-guid", map[Caller := role, 4 := OrgUser, 5 := OrgUser]);
      var stored := App(1, "name", "app-guid", "org-guid", map[4 := AppOwner, 5 := AppOwner]);
      var upd := AppPayload("renamed", "", map[]);
      && UpdateVerdict(org, map[1 := stored], stored, upd, Caller) == Pass
      && !SingleOwner(Patched(stored, upd).roles)
  {
    var stored := App(1, "name", "app-guid", "org-guid", map[4 := AppOwner, 5 := AppOwner]);
    assert (map[1 := stored] - {1}) == map[];
    var kept := Patched(stored, AppPayload("renamed", "", map[])).roles;
    assert kept == stored.roles;
    assert 4 in kept && 5 in kept && kept[4] == AppOwner && kept[5] == AppOwner;
  }
}
