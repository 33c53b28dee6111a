/** The permission hook (src/hooks/usePermissions.js). Everything reads the
    acting user as it stands at call time, so during impersonation the
    impersonated role applies. */
module Permissions {
  import opened Wrappers
  import opened Domain
  import opened Text
  import A = AppActions

  /** `isAdmin()` */
  function IsAdmin(user: Option<User>): (r: bool)
    ensures r ==> user.Some?
  {
    user.Some? && user.value.role == Some(AdminRole)
  }

  /** `canCreateProject()` */
  function CanCreateProject(user: Option<User>): bool {
    IsAdmin(user)
  }

  /** `canUpdateProject()` */
  function CanUpdateProject(user: Option<User>): bool {
    IsAdmin(user)
  }

  /** `canDeleteProject()` */
  function CanDeleteProject(user: Option<User>): bool {
    IsAdmin(user)
  }

  /** `canManageProjectMembers()` */
  function CanManageProjectMembers(user: Option<User>): bool {
    IsAdmin(user)
  }

  /** `isProjectMember(projectId)`: a placeholder that admits every project. */
  function IsProjectMember(projectId: int): bool {
    true
  }

  /** `canCreateTask(projectId)`; it takes a project id, not a task. */
  function CanCreateTask(user: Option<User>, projectId: int): bool {
    IsAdmin(user) || IsProjectMember(projectId)
  }

  /** `canUpdateTask(projectId)` */
  function CanUpdateTask(user: Option<User>, projectId: int): bool {
    IsAdmin(user) || IsProjectMember(projectId)
  }

  /** `canDeleteTask(projectId)` */
  function CanDeleteTask(user: Option<User>, projectId: int): bool {
    IsAdmin(user) || IsProjectMember(projectId)
  }

  /** `canViewProject(projectId)` */
  function CanViewProject(user: Option<User>, projectId: int): bool {
    IsAdmin(user) || IsProjectMember(projectId)
  }

  /** The project-level permissions are all the store's admin test: the role is
      exactly "ADMIN", and there is no admin without a user. */
  lemma ProjectPermissionsAreAdmin(user: Option<User>)
    ensures IsAdmin(user) <==> HasAdminRole(user)
    ensures IsAdmin(user) == A.IsAdmin(user)
    ensures CanCreateProject(user) == CanUpdateProject(user) == CanDeleteProject(user) == IsAdmin(user)
    ensures CanManageProjectMembers(user) == A.CanManageProjectMembers(user)
    ensures user.None? ==> !CanCreateProject(user)
  {
  }

  /** With membership a placeholder, every task-level permission of the hook
      holds for every project, even with no user at all. */
  lemma TaskPermissionsAlwaysGranted(user: Option<User>, projectId: int)
    ensures IsProjectMember(projectId)
    ensures CanCreateTask(user, projectId) && CanUpdateTask(user, projectId)
    ensures CanDeleteTask(user, projectId) && CanViewProject(user, projectId)
  {
  }

  /** The hook's `canUpdateTask` and the store's disagree: with no user the store
      refuses every task while the hook grants every project. */
  lemma HookAndStoreDisagreeWithoutUser(projectId: int, t: Task)
    ensures CanUpdateTask(None, projectId)
    ensures !A.CanUpdateTask(None, Some(t))
  {
  }

  /** `getUserRole()`: `user?.role || 'USER'`, so an empty role also reads as
      "USER". The answer is never empty. */
  function GetUserRole(user: Option<User>): (r: string)
    ensures r != ""
    ensures user.Some? && user.value.role.Some? && user.value.role.value != "" ==> r == user.value.role.value
    ensures user.None? || user.value.role.None? || user.value.role.value == "" ==> r == "USER"
  {
    if user.Some? && user.value.role.Some? && user.value.role.value != "" then user.value.role.value else "USER"
  }

  /** `getRoleDisplayName(role)`: switches on the upper-cased role; the USER case
      and the default give the same name. */
  function GetRoleDisplayName(role: Option<string>): (r: string)
    ensures r == "Administrator" <==> role.Some? && Upper(role.value) == "ADMIN"
    ensures r == "Administrator" || r == "User"
  {
    match role
    case None => "User"
    case Some(name) =>
      var key := Upper(name);
      if key == "ADMIN" then "Administrator"
      else if key == "USER" then "User"
      else "User"
  }

  /** Every admin is displayed as "Administrator", and so is any role spelled
      "admin" in another letter case. */
  lemma AdminsDisplayAsAdministrator(user: Option<User>)
    ensures IsAdmin(user) ==> GetRoleDisplayName(Some(GetUserRole(user))) == "Administrator"
    ensures GetRoleDisplayName(Some("admin")) == "Administrator"
    ensures GetRoleDisplayName(None) == "User"
  {
    assert Upper("ADMIN") == "ADMIN";
    assert Upper("admin") == "ADMIN";
  }
}
