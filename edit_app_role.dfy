/**
 * The modal that edits the permissions of an application role. Opening it loads the role's
 * permission names into the checkboxes; clicks are recorded as added and removed permission names
 * against that list; saving sends both lists with the role's name.
 */
module EditAppRole {
  import opened Wrappers
  import opened Seqs
  import opened AssignmentDiff
  import opened AuthorizedApis
  import opened ApplicationRoleModels

  /** The permission names of the role, in order (the push loop of the modal-open effect). */
  method CheckedPermissionsOf(selectedRole: Option<RoleListItem>) returns (names: seq<string>)
    ensures selectedRole.None? ==> names == []
    ensures selectedRole.Some? ==>
      && |names| == |selectedRole.value.permissions|
      && forall i :: 0 <= i < |names| ==> names[i] == selectedRole.value.permissions[i].name
  {
    names := [];
    if selectedRole.Some? && |selectedRole.value.permissions| > 0 {
      var permissions := selectedRole.value.permissions;
      for i := 0 to |permissions|
        invariant |names| == i
        invariant forall j :: 0 <= j < i ==> names[j] == permissions[j].name
      {
        names := names + [permissions[i].name];
      }
    }
  }

  /**
   * `updateRolePermissionsList`: the role's name with the added and removed names, one permission
   * item per name and in order; `None` when no role is selected (the code would throw).
   */
  function UpdatePayload(selectedRole: Option<RoleListItem>, added: seq<string>, removed: seq<string>): (p: Option<UpdateRolePayload>)
    ensures p.Some? <==> selectedRole.Some?
    ensures p.Some? ==>
      && p.value.name == selectedRole.value.name
      && PermissionNames(p.value.addedPermissions) == added
      && PermissionNames(p.value.removedPermissions) == removed
  {
    match selectedRole
    case None => None
    case Some(role) => Some(UpdateRolePayload(role.name, AsPermissionItems(added), AsPermissionItems(removed)))
  }

  // ---- reopening the modal ----

  /** What opening the modal does to the three name lists: only `checked` is replaced. */
  function Reopen(d: Diff, permissionNames: seq<string>): Diff
  {
    Diff(permissionNames, d.added, d.removed)
  }

  /**
   * The added names of an earlier session survive a reopen: after checking "p" on a role without
   * permissions, closing, and opening another role without permissions, the untouched modal would
   * save "p" as added to the second role.
   */
  lemma ReopenKeepsStaleAdded()
    ensures Reopen(Toggle(Start([]), "p"), []).added == ["p"]
    ensures !Consistent(Reopen(Toggle(Start([]), "p"), []), {})
  {
    var d := Reopen(Toggle(Start([]), "p"), []);
    assert "p" in d.added;
  }

  /** The intended reopen: the diffs start empty against the opened role's permissions. */
  function ReopenWithReset(permissionNames: seq<string>): (d: Diff)
    ensures d.checked == permissionNames && d.added == [] && d.removed == []
  {
    Start(permissionNames)
  }

  /** After a reopen with reset, every click sequence keeps the diffs exact against the opened role. */
  lemma ReopenWithResetConsistent(permissionNames: seq<string>, clicks: seq<string>)
    ensures Consistent(ToggleAll(ReopenWithReset(permissionNames), clicks), set k | k in permissionNames)
  {
    FromStartConsistent(permissionNames, clicks);
  }

  // ---- the component ----

  class RoleEditor {
    var selectedRole: Option<RoleListItem>
    var expandedApis: seq<string>
    var checkedPermissions: seq<string>
    var addedPermissions: seq<string>
    var removedPermissions: seq<string>
    var authorizedApiResourceList: seq<AuthorizedApi>
    var filteredAuthorizedApiResourceList: seq<AuthorizedApi>
    var isPermissionsLoading: bool

    function Names(): Diff
      reads this
    {
      Diff(checkedPermissions, addedPermissions, removedPermissions)
    }

    constructor(selectedRole: Option<RoleListItem>)
      ensures this.selectedRole == selectedRole
      ensures expandedApis == [] && Names() == Diff([], [], [])
      ensures authorizedApiResourceList == [] && filteredAuthorizedApiResourceList == []
      ensures isPermissionsLoading
    {
      this.selectedRole := selectedRole;
      expandedApis := [];
      checkedPermissions := [];
      addedPermissions := [];
      removedPermissions := [];
      authorizedApiResourceList := [];
      filteredAuthorizedApiResourceList := [];
      isPermissionsLoading := true;
    }

    /**
     * The effect on the selected role and the modal flag: when the modal is shown, the checkboxes
     * take the permission names of the selected role; added and removed names are kept as they are.
     * (The request for the authorized APIs it starts is answered by `ReceiveAuthorizedApis`.)
     */
    method OnSelectedRoleOrShow(role: Option<RoleListItem>, showEditRoleModal: bool)
      modifies this
      ensures selectedRole == role
      ensures showEditRoleModal ==> Names() == Reopen(old(Names()), PermissionNames(if role.Some? then role.value.permissions else []))
      ensures !showEditRoleModal ==> Names() == old(Names())
      ensures expandedApis == old(expandedApis)
      ensures authorizedApiResourceList == old(authorizedApiResourceList)
      ensures filteredAuthorizedApiResourceList == old(filteredAuthorizedApiResourceList)
      ensures isPermissionsLoading == old(isPermissionsLoading)
    {
      selectedRole := role;
      if showEditRoleModal {
        checkedPermissions := CheckedPermissionsOf(role);
      }
    }

    /**
     * The authorized API request: on success both lists take the response and every API is
     * expanded; a failure with a description leaves the lists alone; any other failure empties the
     * list, the filtered list and the expanded list. Loading ends on every path.
     */
    method ReceiveAuthorizedApis(response: Fetch<seq<AuthorizedApi>>)
      modifies this
      ensures response.Loaded? ==>
        && authorizedApiResourceList == response.value
        && filteredAuthorizedApiResourceList == response.value
        && expandedApis == ApiIds(response.value)
      ensures response == Failed(true) ==>
        && authorizedApiResourceList == old(authorizedApiResourceList)
        && filteredAuthorizedApiResourceList == old(filteredAuthorizedApiResourceList)
        && expandedApis == old(expandedApis)
      ensures response == Failed(false) ==>
        authorizedApiResourceList == [] && filteredAuthorizedApiResourceList == [] && expandedApis == []
      ensures !isPermissionsLoading
      ensures selectedRole == old(selectedRole) && Names() == old(Names())
    {
      isPermissionsLoading := false;
      match response
      case Loaded(list) =>
        authorizedApiResourceList := list;
        filteredAuthorizedApiResourceList := list;
        expandedApis := DefaultExpandedApis(list);
      case Failed(hasDescription) =>
        if !hasDescription {
          authorizedApiResourceList := [];
          filteredAuthorizedApiResourceList := [];
          expandedApis := [];
        }
    }

    /** `handleAccordionTitleClick`. */
    method HandleAccordionTitleClick(apiId: string)
      modifies this
      ensures expandedApis == ToggleMember(old(expandedApis), apiId)
      ensures selectedRole == old(selectedRole) && Names() == old(Names())
      ensures authorizedApiResourceList == old(authorizedApiResourceList)
      ensures filteredAuthorizedApiResourceList == old(filteredAuthorizedApiResourceList)
      ensures isPermissionsLoading == old(isPermissionsLoading)
    {
      expandedApis := ToggleMember(expandedApis, apiId);
    }

    /** `handleCheckboxChange`: the permission name is toggled in the three name lists. */
    method HandleCheckboxChange(permissionName: string)
      modifies this
      ensures Names() == Toggle(old(Names()), permissionName)
      ensures selectedRole == old(selectedRole) && expandedApis == old(expandedApis)
      ensures authorizedApiResourceList == old(authorizedApiResourceList)
      ensures filteredAuthorizedApiResourceList == old(filteredAuthorizedApiResourceList)
      ensures isPermissionsLoading == old(isPermissionsLoading)
    {
      if permissionName in checkedPermissions {
        checkedPermissions := RemoveAll(checkedPermissions, permissionName);
        if permissionName in addedPermissions {
          addedPermissions := RemoveAll(addedPermissions, permissionName);
        } else {
          removedPermissions := removedPermissions + [permissionName];
        }
      } else {
        checkedPermissions := checkedPermissions + [permissionName];
        if permissionName in removedPermissions {
          removedPermissions := RemoveAll(removedPermissions, permissionName);
        } else {
          addedPermissions := addedPermissions + [permissionName];
        }
      }
    }

    /** `handleSearchFieldChange` over the authorized API list. */
    method HandleSearchFieldChange(query: string)
      modifies this
      ensures |query| > 0 ==>
        && filteredAuthorizedApiResourceList == KeptAll(authorizedApiResourceList, query, authorizedApiResourceList)
        && expandedApis == ExpandedAll(query, authorizedApiResourceList)
      ensures |query| == 0 ==>
        && filteredAuthorizedApiResourceList == authorizedApiResourceList
        && expandedApis == ApiIds(authorizedApiResourceList)
      ensures selectedRole == old(selectedRole) && Names() == old(Names())
      ensures authorizedApiResourceList == old(authorizedApiResourceList)
      ensures isPermissionsLoading == old(isPermissionsLoading)
    {
      if |query| > 0 {
        var result := SearchFilter(authorizedApiResourceList, query);
        filteredAuthorizedApiResourceList, expandedApis := result.value.filtered, result.value.expanded;
      } else {
        filteredAuthorizedApiResourceList := authorizedApiResourceList;
        expandedApis := DefaultExpandedApis(authorizedApiResourceList);
      }
    }

    /** `handleCloseEditRoleModal`: the next opening shows the loader again. */
    method HandleCloseEditRoleModal()
      modifies this
      ensures isPermissionsLoading
      ensures selectedRole == old(selectedRole) && Names() == old(Names()) && expandedApis == old(expandedApis)
      ensures authorizedApiResourceList == old(authorizedApiResourceList)
      ensures filteredAuthorizedApiResourceList == old(filteredAuthorizedApiResourceList)
    {
      isPermissionsLoading := true;
    }

    /** The payload that saving sends. */
    method UpdateRolePermissionsList() returns (payload: Option<UpdateRolePayload>)
      ensures payload == UpdatePayload(selectedRole, addedPermissions, removedPermissions)
    {
      if selectedRole.None? {
        return None;
      }
      var added := [];
      for i := 0 to |addedPermissions|
        invariant added == AsPermissionItems(addedPermissions[..i])
      {
        added := added + [PermissionItem(addedPermissions[i])];
      }
      var removed := [];
      for i := 0 to |removedPermissions|
        invariant removed == AsPermissionItems(removedPermissions[..i])
      {
        removed := removed + [PermissionItem(removedPermissions[i])];
      }
      assert addedPermissions[..|addedPermissions|] == addedPermissions;
      assert removedPermissions[..|removedPermissions|] == removedPermissions;
      payload := Some(UpdateRolePayload(selectedRole.value.name, added, removed));
    }
  }
}
