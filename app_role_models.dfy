/** The application-role records exchanged with the application roles API. */
module ApplicationRoleModels {
  import opened CoreModels

  datatype PermissionItem = PermissionItem(name: string)

  /** A role of an application with the permissions it grants (`RoleListItemInterface`). */
  datatype RoleListItem = RoleListItem(name: string, permissions: seq<PermissionItem>)

  /** One page of an application's roles. */
  datatype ApplicationRolesResponse = ApplicationRolesResponse(links: seq<Link>, roles: seq<RoleListItem>)

  /** The body of a role update: the role's name and the permissions to add and to remove. */
  datatype UpdateRolePayload = UpdateRolePayload(
    name: string,
    addedPermissions: seq<PermissionItem>,
    removedPermissions: seq<PermissionItem>)

  /** `names.map(name => ({ name }))`. */
  function AsPermissionItems(names: seq<string>): seq<PermissionItem>
  {
    seq(|names|, i requires 0 <= i < |names| => PermissionItem(names[i]))
  }

  function PermissionNames(items: seq<PermissionItem>): seq<string>
  {
    seq(|items|, i requires 0 <= i < |items| => items[i].name)
  }
}
