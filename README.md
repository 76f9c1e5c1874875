# App access control, modelled in Dafny

This project models the app access-control service of the face-recognition
management application (`AppService`). An app belongs to one organization and
carries a map from user to app role (`USER` / `OWNER`). An organization
carries a map from user to organization role (`USER` / `ADMINISTRATOR` /
`OWNER`). The service decides whether a caller may read, create, update,
delete, rotate the API key (guid) of an app, list its members or invite a
member. Both createApp and updateApp hold the role map they store to two
rules: at most one owner, and only organization members. Only updateApp also
refuses a self role change. App names are unique within an organization. inviteUser is the exception to
the owner rule: it counts no owners, so an invitation can give an app a second
owner.

Class `AppService` of module `Service` is the model of the service. It
follows the behaviour fixed by the service's unit test, `AppServiceTest.java`,
which fixes the outcome of every operation for an organization
`OWNER`/`ADMINISTRATOR` (the `writeRoles` fixture) and an organization `USER`
(the `readRoles` fixture). Where those tests leave a choice open, the model
makes the following choices:

- The checks fire in this order: app or organization lookup (not-found
  error), the caller's organization membership, then the app's organization
  against the one named in the request (getAppUsers, inviteUser), then the
  privilege gate. The operation-specific checks come last. No test separates
  the membership check from the organization-guid check: in the
  AppDoesNotBelongToOrg tests the caller is a member, and in the membership
  tests the organizations agree. The model checks membership first, as in
  every other operation.
- **Read gate** (getApp, updateApp, getAppUsers): org write role, or any app
  role. **Write gate** (regenerateApiKey, deleteApp): org write role, or the
  app's `OWNER` role. **Org write gate** (createApp, inviteUser): org write
  role only.
- updateApp first uses the read gate. It then checks the new name: a
  non-empty name must be unused among the organization's *other* apps. Then,
  only when the payload carries a non-empty role map, the checks are: two
  owners (`MultipleOwners`), the caller's own role (`SelfRoleChange`), and
  membership of every named user. The map then replaces the stored one
  wholesale. The payload's guid is ignored.
- A self role change means the proposed map gives the caller a role other
  than the one they hold, including a role where they held none. Leaving the
  caller out is allowed.
- createApp takes the draft's role map as given and holds it to the
  single-owner and membership rules. The draft's guid is replaced by a fresh
  one, and the app gets the next free id.
- inviteUser has no owner-count check. So "at most one owner" is proved for
  every role map createApp stores and every role map updateApp installs. It is
  not an invariant of the whole store. An OWNER invitation on an app that
  already has an owner leaves it with two (`Access.InviteMayAddSecondOwner`).
  An update without a role map leaves the stored map as it is, two owners
  included.

Structure:

- `roles.dfy` (module `Roles`): the two role enumerations, with ranks and the
  write/read role fixtures.
- `entities.dfy` (module `Entities`): users, organizations, apps, the request
  payload, role entries, and the error kinds.
- `access.dfy` (module `Access`): the gates and the validation of a proposed
  app state, as pure functions, with their lemmas.
- `search.dfy` (module `Search`): the case-insensitive substring search of
  getAppUsers.
- `guids.dfy` (module `Guids`): a never-issued guid always exists.
- `service.dfy` (module `Service`): class `AppService`. Its map fields are the
  organization and user directories (read-only) and the app store (by id and
  by guid). Its `Valid()` invariant covers the guid index being a bijection,
  apps placed in existing organizations, members belonging to the
  organization, and unique names. The read operations are functions of its
  fields. The write operations are methods that run a validation verdict and
  only then change the fields; every failure leaves the object unchanged.
- `scenarios.dfy` (module `Scenarios`): the fixtures of the unit tests,
  replayed on the model, and two consequences of the model that no test
  exercises (`InviteSecondOwner`, `RenameKeepsTwoOwners`).

## Model

| member | source | states |
|---|---|---|
| Roles.WriteAccessIsRankAtLeastAdministrator | apps/frs-crud-app/src/test/java/com/exadel/frs/AppServiceTest.java:63-70 | write access holds exactly for the `writeRoles` fixture (OWNER, ADMINISTRATOR), is refused exactly for `readRoles` (USER), and means "rank at least ADMINISTRATOR" |
| Access.GatesRejectNonMembers | apps/frs-crud-app/src/test/java/com/exadel/frs/AppServiceTest.java:93-106 | a caller with no organization role fails all three gates with UserDoesNotBelongToOrganization, whatever app role they hold |
| Access.GatesForMembers | apps/frs-crud-app/src/test/java/com/exadel/frs/AppServiceTest.java:72-147 | an org write role passes every gate with no app role; an org USER passes the read gate exactly when holding some app role, the write gate exactly when holding OWNER, and never the org write gate; a member is only ever refused with InsufficientPrivileges |
| Access.GateHierarchy | apps/frs-crud-app/src/test/java/com/exadel/frs/AppServiceTest.java:449-530 | passing the org write gate implies passing the write gate, and passing the write gate implies passing the read gate |
| Access.GatesMonotoneInOrgRank | apps/frs-crud-app/src/test/java/com/exadel/frs/AppServiceTest.java:63-70 | raising the caller's organization role in rank order never takes away access through any gate |
| Access.GatesMonotoneInAppRank | apps/frs-crud-app/src/test/java/com/exadel/frs/AppServiceTest.java:108-147 | giving the caller an app role, or raising theirs from USER to OWNER, never takes read or write-gate access away, and any app role opens the read gate to a member |
| Access.OwnerCountAtMostOne | apps/frs-crud-app/src/test/java/com/exadel/frs/AppServiceTest.java:359-383 | the owner count the service compares against one is at most one exactly when no two distinct users hold OWNER |
| Access.UpdateAcceptedIff | apps/frs-crud-app/src/test/java/com/exadel/frs/AppServiceTest.java:302-447 | an update is accepted iff the caller passes the read gate, a non-empty new name is unused by the organization's other apps, and a non-empty proposed role map has a single owner, names only members, and either keeps the caller's stored role or drops the caller from the map |
| Access.AcceptedUpdateKeepsInvariants | apps/frs-crud-app/src/test/java/com/exadel/frs/AppServiceTest.java:302-334 | an accepted update keeps id, guid and organization; its role map names only members; a replaced map is exactly the payload's and has a single owner; without a role map the stored map is kept; the caller keeps the role they held or drops out of the map; a changed name is free in the organization |
| Access.UpdateRejections | apps/frs-crud-app/src/test/java/com/exadel/frs/AppServiceTest.java:336-447 | a failed read gate gives its own error; past it, a non-empty name used by another app of the organization gives NameIsNotUnique; past both: two owners give MultipleOwners before membership or self role are looked at; then a self role change gives SelfRoleChange; then a non-member in the map gives UserDoesNotBelongToOrganization |
| Access.CreateAcceptedIff | apps/frs-crud-app/src/test/java/com/exadel/frs/AppServiceTest.java:206-300 | a creation is accepted iff the caller is a member with org write access, the name is non-empty and unused in the organization, and the draft's role map has a single owner and names only members |
| Access.CreateRejections | apps/frs-crud-app/src/test/java/com/exadel/frs/AppServiceTest.java:229-300 | a non-member gets UserDoesNotBelongToOrganization, an org USER InsufficientPrivileges, a write role with an empty name EmptyRequiredField, and with a used name NameIsNotUnique |
| Access.AcceptedInviteAddsOneMember | apps/frs-crud-app/src/test/java/com/exadel/frs/AppServiceTest.java:641-672 | an accepted invitation found the invitee, adds exactly one new key (the invitee's) to the role map, and the map still names only members |
| Access.InviteMayAddSecondOwner | apps/frs-crud-app/src/test/java/com/exadel/frs/AppServiceTest.java:641-672 | an accepted OWNER invitation on an app that already has an OWNER leaves its role map with two owners: inviteUser does not keep the single-owner rule |
| Access.InviteRejections | apps/frs-crud-app/src/test/java/com/exadel/frs/AppServiceTest.java:674-756 | another organization's guid gives AppDoesNotBelongToOrg before the invitee is looked at; an org USER gets InsufficientPrivileges; for a write role, an unknown email gives UserNotFound, an invitee outside the organization UserDoesNotBelongToOrganization, and an invitee already holding any role UserAlreadyHasAccessToApp |
| Search.ContainsIff | apps/frs-crud-app/src/test/java/com/exadel/frs/AppServiceTest.java:554-599 | the substring test holds exactly when the term occurs at some position of the string |
| Search.LowerAllOfLowerCase | apps/frs-crud-app/src/test/java/com/exadel/frs/AppServiceTest.java:554-599 | folding a string without upper-case letters leaves it unchanged |
| Search.ListedEntriesAreMembers | apps/frs-crud-app/src/test/java/com/exadel/frs/AppServiceTest.java:554-599 | every listed entry is for this app, names a user holding a role on it with that very role, and that user matches the term |
| Search.SearchIgnoresTermCase | apps/frs-crud-app/src/test/java/com/exadel/frs/AppServiceTest.java:554-599 | the upper-case and lower-case spellings of a term list the same entries as the term itself |
| Search.EntriesCount | apps/frs-crud-app/src/test/java/com/exadel/frs/AppServiceTest.java:532-552 | different members give different entries, so a set of members and its entries have the same size |
| Search.EmptyTermListsEveryone | apps/frs-crud-app/src/test/java/com/exadel/frs/AppServiceTest.java:532-552 | an empty term lists every role entry of the app, one per user, so the listing has as many entries as the role map |
| Guids.LongestLength | apps/frs-crud-app/src/test/java/com/exadel/frs/AppServiceTest.java:206-227 | no issued guid is longer than the returned length |
| Guids.FreshGuidExists | apps/frs-crud-app/src/test/java/com/exadel/frs/AppServiceTest.java:449-470 | whatever guids were issued, a non-empty guid not among them exists |
| Service.ReplaceKeepsStore | apps/frs-crud-app/src/test/java/com/exadel/frs/AppServiceTest.java:302-334 | saving a changed app under its id and guid, with members only and a name free in the organization, keeps the store invariant |
| Service.InsertKeepsStore | apps/frs-crud-app/src/test/java/com/exadel/frs/AppServiceTest.java:206-227 | saving a new app under the next id and a never-issued guid, with members only and an unused name, keeps the store invariant |
| Service.RegenerateKeepsStore | apps/frs-crud-app/src/test/java/com/exadel/frs/AppServiceTest.java:449-470 | replacing an app's guid by a never-issued one and dropping the old guid from the index keeps the store invariant |
| Service.RemoveKeepsStore | apps/frs-crud-app/src/test/java/com/exadel/frs/AppServiceTest.java:491-511 | removing an app by id together with its guid keeps the store invariant |
| Service.AppService.constructor | apps/frs-crud-app/src/test/java/com/exadel/frs/AppServiceTest.java:43-48 | the service starts over the given directories with an empty, valid app store |
| Service.AppService.GetApp | apps/frs-crud-app/src/test/java/com/exadel/frs/AppServiceTest.java:72-147 | unknown guid: AppNotFound; non-member: UserDoesNotBelongToOrganization; write role: the app, with no app role; org USER: the app if holding some app role, else InsufficientPrivileges; a returned app is the stored one with that guid |
| Service.AppService.GetApps | apps/frs-crud-app/src/test/java/com/exadel/frs/AppServiceTest.java:149-204 | unknown organization: OrganizationNotFound; non-member: UserDoesNotBelongToOrganization; otherwise exactly the organization's stored apps, for a write role all of them and for an org USER those where they hold a role |
| Service.AppService.GetAppsAgreesWithGetApp | apps/frs-crud-app/src/test/java/com/exadel/frs/AppServiceTest.java:72-204 | an app of the organization is listed by getApps exactly when getApp hands it to the same caller |
| Service.AppService.GetAppUsers | apps/frs-crud-app/src/test/java/com/exadel/frs/AppServiceTest.java:532-639 | unknown guid: AppNotFound; non-member: UserDoesNotBelongToOrganization; app of another organization: AppDoesNotBelongToOrg, even for its owner; an org USER without an app role: InsufficientPrivileges; success exactly for a read-gate pass; the result is the matching entries, and for an empty term one per role entry |
| Service.AppService.CreateApp | apps/frs-crud-app/src/test/java/com/exadel/frs/AppServiceTest.java:206-300 | unknown organization: OrganizationNotFound; a failed verdict gives its error and changes nothing; on success the draft is saved under the next id with a non-empty, never-issued guid, has a single owner, and getApp finds it by that guid |
| Service.AppService.UpdateApp | apps/frs-crud-app/src/test/java/com/exadel/frs/AppServiceTest.java:302-447 | unknown guid: AppNotFound; a failed verdict gives its error and changes nothing; on success only this app changes, to the patched one: guid kept, a supplied name taken, a supplied role map taken wholesale with a single owner, the caller keeping the role they held or dropping out of the map; without a role map the stored map is kept as it is |
| Service.AppService.RegenerateApiKey | apps/frs-crud-app/src/test/java/com/exadel/frs/AppServiceTest.java:449-489 | unknown guid: AppNotFound; a failed write gate gives its error and changes nothing; on success only the guid changes, to a never-issued one; getApp finds the app by the new guid and returns AppNotFound for the old one, which stays issued and so is never handed out again |
| Service.AppService.DeleteApp | apps/frs-crud-app/src/test/java/com/exadel/frs/AppServiceTest.java:491-530 | unknown guid: AppNotFound; the result is the write gate's verdict; on success the app and its guid are removed, role entries with it, and getApp no longer finds it |
| Service.AppService.InviteUser | apps/frs-crud-app/src/test/java/com/exadel/frs/AppServiceTest.java:641-756 | unknown guid: AppNotFound; a failed verdict gives its error and changes nothing; on success the invitee (found by email) gets the requested role on the app, the returned entry carries that email and role, the invitee held no role before, and getApp now lets the invitee read the app |
| Scenarios.UpdateHandsOverOwnership | apps/frs-crud-app/src/test/java/com/exadel/frs/AppServiceTest.java:302-334 | a write role renaming to "new_name" with payload `{4: OWNER}` is accepted; the name is overwritten, guid "app-guid" is kept, and the role map becomes exactly `{4: OWNER}` (size 1) |
| Scenarios.UpdateWithTwoOwners | apps/frs-crud-app/src/test/java/com/exadel/frs/AppServiceTest.java:359-383 | owners 4 and 5, neither a member, give MultipleOwners |
| Scenarios.UpdateDemotingSelf | apps/frs-crud-app/src/test/java/com/exadel/frs/AppServiceTest.java:336-357 | the app owner demoting themselves to USER gives SelfRoleChange |
| Scenarios.UpdateWithStranger | apps/frs-crud-app/src/test/java/com/exadel/frs/AppServiceTest.java:427-447 | a payload naming non-member user 2 gives UserDoesNotBelongToOrganization |
| Scenarios.UpdateToTakenName | apps/frs-crud-app/src/test/java/com/exadel/frs/AppServiceTest.java:385-408 | a new name used by another app of the organization gives NameIsNotUnique |
| Scenarios.OrgUserWithoutAppRole | apps/frs-crud-app/src/test/java/com/exadel/frs/AppServiceTest.java:410-530 | an org USER with no app role is refused update, regenerate and delete with InsufficientPrivileges |
| Scenarios.SearchForSmith | apps/frs-crud-app/src/test/java/com/exadel/frs/AppServiceTest.java:554-599 | "smith" over Will Smith, Maria Smith and Steve Jobs lists exactly the two Smiths' entries, and "SMITH" lists the same |
| Scenarios.SmithsMatch | apps/frs-crud-app/src/test/java/com/exadel/frs/AppServiceTest.java:561-578 | both Smiths match "smith" and Steve Jobs (name and email) does not |
| Scenarios.NotContainsSmith | apps/frs-crud-app/src/test/java/com/exadel/frs/AppServiceTest.java:575-578 | none of "steve", "jobs" and "sj@example.com" contains "smith" |
| Scenarios.ListingAnotherOrgsApp | apps/frs-crud-app/src/test/java/com/exadel/frs/AppServiceTest.java:616-639 | listing an app of organization "org-guid-3" under "org-guid" gives AppDoesNotBelongToOrg, even for its owner |
| Scenarios.InviteSecondOwner | apps/frs-crud-app/src/test/java/com/exadel/frs/AppServiceTest.java:641-672 | inviting member 4 as OWNER of an app owned by user 5 is accepted for a write role and leaves two owners |
| Scenarios.RenameKeepsTwoOwners | apps/frs-crud-app/src/test/java/com/exadel/frs/AppServiceTest.java:302-334 | a rename without a role map on an app with owners 4 and 5 is accepted, and the app keeps both owners |
| Scenarios.InviteNamingAnotherOrg | apps/frs-crud-app/src/test/java/com/exadel/frs/AppServiceTest.java:693-710 | inviting under "org-guid-2" gives AppDoesNotBelongToOrg whatever the directory holds and with no email at all |

## Left out

- `frs/src/main/java/com/exadel/frs/controller/ClientController.java` only forwards HTTP requests to a client service. That service is not part of this model.
- The Mockito mocks and `verify(...)` calls are left out. The app repository is modelled as the class's map fields, and "save"/"deleteById" as updates of those fields.
- The repository's query mechanics are left out, including the case rules of the name-uniqueness query. Name uniqueness is plain string equality among the organization's apps.
- Guid generation by a random UUID is left out. A new guid is any string (chosen without determinism) that was never issued before, and nothing more is said about it.
- Organizations and users are looked up in partial maps. An absent key gives OrganizationNotFound or UserNotFound. The directories themselves are never changed by this service.
- createApp's lookup of the caller by id (the `getUser` stub in the creation tests) is left out. The tests assert nothing about what it is used for, and the creator is not added as owner automatically.
- Transactions, durability and concurrent requests belong to the store and are not modelled. Each operation is one atomic step.
- A missing (`null`) name and an empty name are the same empty string. `null` arguments elsewhere (role, email) are not modelled separately.
- Case folding covers the ASCII letters only. Java's locale-aware lower-casing of other letters is not modelled.
- Service.AppService.GetApps: returns a set of apps rather than the repository's list, so the order of the list is not modelled.
- Service.AppService.GetAppUsers: returns a set of entries rather than a list, so the order of the list is not modelled.
- Role maps are maps, so a payload cannot list the same user twice. A request that does so is not modelled.
- Service.AppService.InviteUser: does not keep "at most one OWNER per app". An OWNER invitation on an app that already has an owner yields two owners (`Access.InviteMayAddSecondOwner`, `Scenarios.InviteSecondOwner`). This is a modelling choice: no test and no stated rule of inviteUser counts owners (the tests make no OWNER invitation), so the model adds no such check.
- Apps are values, not shared objects. The service sets the generated guid on the caller's own draft object in createApp, and in updateApp it overwrites the stored object in place. The model instead builds a new `App` value and stores it in the map, so aliasing between the caller's object and the stored one is not captured.
