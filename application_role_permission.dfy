/**
 * The permission picker of the new-role wizard: the authorized APIs of the application with their
 * permissions, a plain assigned-permission toggle, and the hand-off of the assigned names on submit.
 */
module ApplicationRolePermission {
  import opened Wrappers
  import opened AssignmentDiff
  import opened AuthorizedApis

  class PermissionList {
    var isPermissionsLoading: bool
    var authorizedApiResourceList: seq<AuthorizedApi>
    var filteredAuthorizedApiResourceList: seq<AuthorizedApi>
    var expandedApis: seq<string>
    var assignedPermissions: seq<string>

    /** The `initialValues` prop is accepted and never read: the assigned list always starts empty. */
    constructor(initialValues: seq<string>)
      ensures isPermissionsLoading
      ensures authorizedApiResourceList == [] && filteredAuthorizedApiResourceList == []
      ensures expandedApis == [] && assignedPermissions == []
    {
      isPermissionsLoading := true;
      authorizedApiResourceList := [];
      filteredAuthorizedApiResourceList := [];
      expandedApis := [];
      assignedPermissions := [];
    }

    /**
     * The authorized API request made on mount: on success both lists take the response and every
     * API is expanded; a failure without a description empties the lists; loading ends on every path.
     */
    method ReceiveAuthorizedApis(response: Fetch<seq<AuthorizedApi>>)
      modifies this
      ensures response.Loaded? ==>
        && authorizedApiResourceList == response.value
        && filteredAuthorizedApiResourceList == response.value
        && expandedApis == ApiIds(response.value)
      ensures response == Failed(true) ==>
        && authorizedApiResourceList == old(authorizedApiResourceList)
        && filteredAuthorizedApiResourceList == old(filteredAuthorizedApiResourceList)
        && expandedApis == old(expandedApis)
      ensures response == Failed(false) ==>
        authorizedApiResourceList == [] && filteredAuthorizedApiResourceList == [] && expandedApis == []
      ensures !isPermissionsLoading
      ensures assignedPermissions == old(assignedPermissions)
    {
      isPermissionsLoading := false;
      match response
      case Loaded(list) =>
        authorizedApiResourceList := list;
        filteredAuthorizedApiResourceList := list;
        expandedApis := DefaultExpandedApis(list);
      case Failed(hasDescription) =>
        if !hasDescription {
          authorizedApiResourceList := [];
          filteredAuthorizedApiResourceList := [];
          expandedApis := [];
        }
    }

    /** `handleAccordionTitleClick`. */
    method HandleAccordionTitleClick(apiId: string)
      modifies this
      ensures expandedApis == ToggleMember(old(expandedApis), apiId)
      ensures assignedPermissions == old(assignedPermissions)
      ensures authorizedApiResourceList == old(authorizedApiResourceList)
      ensures filteredAuthorizedApiResourceList == old(filteredAuthorizedApiResourceList)
      ensures isPermissionsLoading == old(isPermissionsLoading)
    {
      expandedApis := ToggleMember(expandedApis, apiId);
    }

    /** `handleCheckboxChange`: a present name leaves the assigned list entirely, an absent one is appended. */
    method HandleCheckboxChange(permissionName: string)
      modifies this
      ensures assignedPermissions == ToggleMember(old(assignedPermissions), permissionName)
      ensures expandedApis == old(expandedApis)
      ensures authorizedApiResourceList == old(authorizedApiResourceList)
      ensures filteredAuthorizedApiResourceList == old(filteredAuthorizedApiResourceList)
      ensures isPermissionsLoading == old(isPermissionsLoading)
    {
      if permissionName in assignedPermissions {
        assignedPermissions := Seqs.RemoveAll(assignedPermissions, permissionName);
      } else {
        assignedPermissions := assignedPermissions + [permissionName];
      }
    }

    /** `handleSearchFieldChange` over the authorized API list. */
    method HandleSearchFieldChange(query: string)
      modifies this
      ensures |query| > 0 ==>
        && filteredAuthorizedApiResourceList == KeptAll(authorizedApiResourceList, query, authorizedApiResourceList)
        && expandedApis == ExpandedAll(query, authorizedApiResourceList)
      ensures |query| == 0 ==>
        && filteredAuthorizedApiResourceList == authorizedApiResourceList
        && expandedApis == ApiIds(authorizedApiResourceList)
      ensures assignedPermissions == old(assignedPermissions)
      ensures authorizedApiResourceList == old(authorizedApiResourceList)
      ensures isPermissionsLoading == old(isPermissionsLoading)
    {
      if |query| > 0 {
        var result := SearchFilter(authorizedApiResourceList, query);
        filteredAuthorizedApiResourceList, expandedApis := result.value.filtered, result.value.expanded;
      } else {
        filteredAuthorizedApiResourceList := authorizedApiResourceList;
        expandedApis := DefaultExpandedApis(authorizedApiResourceList);
      }
    }

    /** The form's submit passes exactly the assigned names to `onSubmit`. */
    method Submit() returns (permissions: seq<string>)
      ensures permissions == assignedPermissions
    {
      permissions := assignedPermissions;
    }
  }
}
