/** The entities the app access-control service works on, and its typed errors. */
module Entities {
  import opened Roles

  type UserId = nat
  type AppId = nat

  datatype Option<T> = None | Some(value: T)

  /** A user as the user directory knows it. */
  datatype User = User(id: UserId, firstName: string, lastName: string, email: string)

  /** An organization: its external guid and the map from member to organization role.
      A user with no entry is not a member ("no role" is absence, never a default). */
  datatype Organization = Organization(guid: string, members: map<UserId, OrgRole>)

  /** A stored app: internal id, name, external guid (the API key), the guid of the
      owning organization, and the map from user to app role. */
  datatype App = App(id: AppId, name: string, guid: string, orgGuid: string, roles: map<UserId, AppRole>)

  /** The app object a client sends to createApp or updateApp. A missing name is the
      empty string; the guid it carries is never used. */
  datatype AppPayload = AppPayload(name: string, guid: string, roles: map<UserId, AppRole>)

  /** One (user, app, role) association, as listed by getAppUsers and created by inviteUser. */
  datatype UserAppRole = UserAppRole(user: User, appId: AppId, role: AppRole)

  datatype Error =
    | AppNotFound
    | OrganizationNotFound
    | UserNotFound
    | UserDoesNotBelongToOrganization
    | InsufficientPrivileges
    | EmptyRequiredField
    | NameIsNotUnique
    | SelfRoleChange
    | MultipleOwners
    | AppDoesNotBelongToOrg
    | UserAlreadyHasAccessToApp

  /** What an operation returns: a value, or the one error it raised. */
  datatype Result<T> = Success(value: T) | Failure(error: Error)

  /** The verdict of a validation step that returns nothing on success. */
  datatype Outcome = Pass | Fail(error: Error)
}
