# Admin console assignment, pagination and wizard rules

This project is a Dafny model of the small sequential rules spread through the identity server's
admin console (a React and TypeScript application). They are:

- **Assignment editors.**
  - The group roles tab, the application-role permission editor and the new-role permission picker keep the clicked checkboxes.
  - The first two keep a `checked` list and `added`/`removed` diffs against the stored assignment.
  - The picker keeps a plain assigned list.
  - All three have accordion expansion lists and a two-level search over application (or API) names and role (or permission) names.
- **Consumer user groups.**
  - The user's groups are indexed by display name.
  - A selection list of the user store's primary groups has its own search.
  - Saving sends one SCIM bulk request (section 3.7 of RFC 7644). Its PATCH operations (section 3.5.2 of RFC 7644) first remove the user from the unselected groups and then add the user to every selected group.
- **Cursor pagination.**
  - The application roles tab and the API resources page read `after`/`before` cursors from a response's links.
  - They turn page changes, filters and deletes into list requests.
  - They clear their cursors by different rules.
- **Event publishing configuration.** The distinct categories and the initial selection are extracted, and submitting the form rewrites every event's `publish` flag.
- **Password history connector.** Connector properties become form values. A submitted form becomes an update payload, and an enabled count of 0 is sent as 1.
- **Form validators.** The duplicate identity-provider name check and the required fields of two create wizards.
- **Decision rules.**
  - The group editor's read-only and remote flags and its tabs.
  - The error-code classification of the API resource pages and the danger-zone gating.
- **Wizard help panels.** A step counter per identity-provider template, moved by previous and next buttons, that selects the panel shown.

React component state is modelled as the fields of a class, and each event handler as one atomic
method that `modifies this`. An effect that runs because a state changed is folded into the
handler or the request outcome that changes it. Loops inside handlers are separate methods proved
against specification functions, and pure helpers are functions. HTTP requests are not modelled:
their outcomes (`Fetch`: a response, or a failure with or without a server description) are
parameters of the handlers that receive them. Alerts are an enumeration or a flag, and navigation
is a returned path. Shared parts live in their own modules:

- `Wrappers`: `Option`, which stands for `undefined`, and `Fetch`;
- `Seqs`: `filter`, `splice`, the distinct-value loop and reversal;
- `Strings`:
  - ASCII `toLowerCase` and the literal case-insensitive substring test;
  - `split` and `join` by a literal separator;
  - JavaScript `parseInt` (with `None` for NaN) and integer `toString`;
- `AssignmentDiff`: the checkbox toggle and its invariant, and the membership toggle;
- `AuthorizedApis`: the API and permission search, which two components share;
- `CoreModels`: links and cursors;
- `AppRoleModels`, `IdpModels` and `ApiResourcesConstants`: records, constants and the error-code classification.

## Model

| member | source | states |
|---|---|---|
| AssignmentDiff.Toggle | apps/console/src/extensions/components/groups/edit-group/edit-group-roles.tsx:466-500 | clicking a checked key takes every copy of it out of `checked`, then drops it from `added` if it was there and otherwise appends it to `removed`; clicking an unchecked key appends it to `checked`, then drops it from `removed` if there and otherwise appends it to `added` |
| AssignmentDiff.StartConsistent | apps/console/src/extensions/components/groups/edit-group/edit-group-roles.tsx:99-101 | the state right after the stored assignment is loaded (empty diffs) describes the checkboxes exactly |
| AssignmentDiff.ConsistentDisjoint | apps/console/src/extensions/components/groups/edit-group/edit-group-roles.tsx:99-101 | while the diffs describe the checkboxes, no key is both added and removed |
| AssignmentDiff.ToggleKeepsConsistent | apps/console/src/extensions/components/groups/edit-group/edit-group-roles.tsx:466-500 | one click keeps `added` = `checked` minus the stored assignment and `removed` = the stored assignment minus `checked`, as sets |
| AssignmentDiff.ToggleKeepsNoDuplicates | apps/console/src/extensions/components/groups/edit-group/edit-group-roles.tsx:466-500 | one click on a consistent state never puts a key into a list twice |
| AssignmentDiff.ToggleAllConsistent | apps/console/src/extensions/components/groups/edit-group/edit-group-roles.tsx:466-500 | every click sequence preserves that invariant |
| AssignmentDiff.FromStartConsistent | apps/console/src/extensions/components/groups/edit-group/edit-group-roles.tsx:466-500 | from the loaded assignment with empty diffs, every click sequence ends in a consistent state |
| AssignmentDiff.ToggleTwiceRestoresSets | apps/console/src/extensions/components/groups/edit-group/edit-group-roles.tsx:466-500 | two clicks on one key restore all three lists as sets |
| AssignmentDiff.ToggleTwiceFreshKey | apps/console/src/extensions/components/groups/edit-group/edit-group-roles.tsx:466-500 | two clicks on a key none of the lists holds restore the three lists exactly |
| AssignmentDiff.ToggleMember | apps/console/src/extensions/components/groups/edit-group/edit-group-roles.tsx:443-458 | the accordion click: the key ends up present exactly when it was absent, and no other key changes membership |
| AssignmentDiff.ToggleMemberTwice | apps/console/src/extensions/components/groups/edit-group/edit-group-roles.tsx:443-458 | two clicks restore membership, and restore the list itself when the key was absent |
| AssignmentDiff.ToggleMemberKeepsNoDup | apps/console/src/extensions/components/application/components/application-roles/application-role-permission.tsx:158-169 | a list without duplicates has none after a toggle |
| AssignmentDiff.ToggleMemberAllParity | apps/console/src/extensions/components/application/components/application-roles/application-role-permission.tsx:158-169 | from the empty assigned list, a name is present exactly when it was clicked an odd number of times, and never twice |
| EditGroupRoles.AppsWithId | apps/console/src/extensions/components/groups/edit-group/edit-group-roles.tsx:232-234 | the filter keeps only applications with the given id |
| EditGroupRoles.ApplicationNameOfUniqueId | apps/console/src/extensions/components/groups/edit-group/edit-group-roles.tsx:230-241 | an id that exactly one listed application carries resolves to that application's name |
| EditGroupRoles.ApplicationNameFallsBackToId | apps/console/src/extensions/components/groups/edit-group/edit-group-roles.tsx:230-241 | an id that no application carries, or that two or more carry, resolves to the id itself |
| EditGroupRoles.DefaultExpandedApps | apps/console/src/extensions/components/groups/edit-group/edit-group-roles.tsx:250-260 | every application id of the list, in list order |
| EditGroupRoles.AddCheckedRoles | apps/console/src/extensions/components/groups/edit-group/edit-group-roles.tsx:267-278 | the loop yields the "appId:roleName" keys of the list, application by application and role by role |
| EditGroupRoles.QualifiedKeysCover | apps/console/src/extensions/components/groups/edit-group/edit-group-roles.tsx:267-278 | there is one key per role, and every role's key is among them |
| EditGroupRoles.FindApp | apps/console/src/extensions/components/groups/edit-group/edit-group-roles.tsx:384-385 | `findIndex`: the first entry of that application, or none when no entry has it |
| EditGroupRoles.GetOrderedRoleList | apps/console/src/extensions/components/groups/edit-group/edit-group-roles.tsx:376-401 | the push-and-rewrite loop computes the grouping function `GroupByApp` |
| EditGroupRoles.GroupByAppCharacterized | apps/console/src/extensions/components/groups/edit-group/edit-group-roles.tsx:376-401 | one entry per distinct text before the first ':', in first-occurrence order, each holding the segments between the first and second ':' of that application's keys, in key order |
| EditGroupRoles.GroupByAppCount | apps/console/src/extensions/components/groups/edit-group/edit-group-roles.tsx:376-401 | the total number of roles in the grouping equals the number of keys |
| EditGroupRoles.SplitQualifiedKey | apps/console/src/extensions/components/groups/edit-group/edit-group-roles.tsx:380-381 | splitting a key built from a colon-free id and name at ':' gives the id and the name back |
| EditGroupRoles.GroupByAppOfQualifiedKeys | apps/console/src/extensions/components/groups/edit-group/edit-group-roles.tsx:376-401 | regrouping the keys of a role list with distinct, colon-free ids and non-empty roles gives the list back |
| EditGroupRoles.MatchedRoles | apps/console/src/extensions/components/groups/edit-group/edit-group-roles.tsx:329-331 | the kept roles are exactly the roles whose name contains the query ignoring case |
| EditGroupRoles.PushNameMatches | apps/console/src/extensions/components/groups/edit-group/edit-group-roles.tsx:344-348 | an application without matching roles is pushed once per name-matching entry with its id; one with matches is not pushed here |
| EditGroupRoles.SearchFilter | apps/console/src/extensions/components/groups/edit-group/edit-group-roles.tsx:313-355 | an empty query sets nothing; otherwise the result is the specified filtered list and expanded list |
| EditGroupRoles.SearchWithUniqueApps | apps/console/src/extensions/components/groups/edit-group/edit-group-roles.tsx:313-355 | with distinct ids, an application keeps only its matching roles when it has any, is kept whole when only its name matches, and is dropped otherwise; order is kept |
| EditGroupRoles.ExpandedCharacterized | apps/console/src/extensions/components/groups/edit-group/edit-group-roles.tsx:333-336 | expanded are exactly the applications with a matching role, each once |
| EditGroupRoles.KeptRolesAreOriginal | apps/console/src/extensions/components/groups/edit-group/edit-group-roles.tsx:328-349 | every kept entry belongs to a listed application and holds only roles it had |
| EditGroupRoles.PendingApplicationListHidesTab | apps/console/src/extensions/components/groups/edit-group/edit-group-roles.tsx:107-131 | while the application list has not arrived, no sequence of role requests, role answers, group-details changes or application failures lowers its flag, so neither the role lists (778-780) nor the assign modal (879-880) render |
| EditGroupRoles.FailedApplicationListNeverRenders | apps/console/src/extensions/components/groups/edit-group/edit-group-roles.tsx:107-131 | as written: a mount whose application request fails and whose other requests all settle shows neither the role lists nor the assign modal |
| EditGroupRoles.SettledMountRendersWithFinally | apps/console/src/extensions/components/groups/edit-group/edit-group-roles.tsx:176-178 | the intended application request, with its flag lowered in `finally` like the role requests: a mount whose requests all settle shows both, whatever the application outcome |
| EditGroupRoles.FinallyOnlyChangesApplicationOutcome | apps/console/src/extensions/components/groups/edit-group/edit-group-roles.tsx:107-131 | the two versions agree on every event sequence without a failed application request |
| EditGroupRoles.RefetchAfterSaveKeepsStaleAdded | apps/console/src/extensions/components/groups/edit-group/edit-group-roles.tsx:133-180 | as written: after a role is added and saved, the refetched assignment contains it while `added` still holds it, so the state is inconsistent with the baseline and unchecking the role sends no removal |
| EditGroupRoles.RefetchWithResetConsistent | apps/console/src/extensions/components/groups/edit-group/edit-group-roles.tsx:142-180 | the intended refetch, which starts the diffs empty: every click sequence afterwards keeps `added` and `removed` consistent with the refetched assignment |
| EditGroupRoles.GroupRolesEditor.constructor | apps/console/src/extensions/components/groups/edit-group/edit-group-roles.tsx:83-105 | every list and diff starts empty, the application list is undefined, the three request flags are raised and the group-details flag is the parent's |
| EditGroupRoles.GroupRolesEditor.SetGroupDetailsLoading | apps/console/src/extensions/components/groups/edit-group/edit-group-roles.tsx:62-75 | the group-details flag takes the prop's value; nothing else changes |
| EditGroupRoles.GroupRolesEditor.RequestGroupRoles | apps/console/src/extensions/components/groups/edit-group/edit-group-roles.tsx:133-136 | the effect on `group` raises the assigned-roles and all-roles flags (lines 144, 186); nothing else changes |
| EditGroupRoles.GroupRolesEditor.ReceiveApplicationList | apps/console/src/extensions/components/groups/edit-group/edit-group-roles.tsx:107-131 | a response defines the application list and lowers its flag; a failure leaves the list and the flag as they were, so a pending tab keeps loading and neither the lists nor the modal render |
| EditGroupRoles.GroupRolesEditor.ReceiveAssignedRoles | apps/console/src/extensions/components/groups/edit-group/edit-group-roles.tsx:142-180 | a response fills both assigned lists, sets `checked` to its keys and expands every assigned application, leaving `added`/`removed` as they were; a described failure keeps the lists; any other failure empties them; every outcome lowers the assigned-roles flag |
| EditGroupRoles.GroupRolesEditor.ReceiveAllRoles | apps/console/src/extensions/components/groups/edit-group/edit-group-roles.tsx:184-222 | a response fills both lists and expands every application; a described failure keeps them; any other failure empties them; every outcome lowers the all-roles flag |
| EditGroupRoles.GroupRolesEditor.HandleCheckboxChange | apps/console/src/extensions/components/groups/edit-group/edit-group-roles.tsx:466-500 | the key "appId:roleName" is toggled in the three lists; nothing else changes |
| EditGroupRoles.GroupRolesEditor.HandleAccordionTitleClick | apps/console/src/extensions/components/groups/edit-group/edit-group-roles.tsx:443-458 | the application's membership is toggled in the expansion list of the clicked pane only |
| EditGroupRoles.GroupRolesEditor.HandleSearchFieldChange | apps/console/src/extensions/components/groups/edit-group/edit-group-roles.tsx:289-303 | a non-empty query filters that pane's unfiltered list against the loaded application list; an empty one restores it with every application expanded |
| EditGroupRoles.GroupRolesEditor.UpdateGroupRolesList | apps/console/src/extensions/components/groups/edit-group/edit-group-roles.tsx:404-411 | the payload's added and removed roles are the groupings of `added` and `removed` |
| AuthorizedApis.DefaultExpandedApis | apps/console/src/extensions/components/application/components/application-roles/edit-app-role.tsx:150-160 | every API id of the list, in list order |
| AuthorizedApis.MatchedPermissions | apps/console/src/extensions/components/application/components/application-roles/edit-app-role.tsx:267-269 | the kept permissions are exactly those whose display name contains the query ignoring case |
| AuthorizedApis.PushNameMatches | apps/console/src/extensions/components/application/components/application-roles/edit-app-role.tsx:283-287 | an API without matching permissions is pushed once per name-matching API with its id |
| AuthorizedApis.SearchFilter | apps/console/src/extensions/components/application/components/application-roles/edit-app-role.tsx:251-293 | an empty query sets nothing; otherwise the result is the specified filtered list and expanded list |
| AuthorizedApis.SearchWithUniqueApis | apps/console/src/extensions/components/application/components/application-roles/edit-app-role.tsx:251-293 | with distinct ids, an API with matching permissions keeps exactly those and all its other fields, one matching only by display name is kept whole, any other is dropped; order is kept |
| AuthorizedApis.ExpandedCharacterized | apps/console/src/extensions/components/application/components/application-roles/edit-app-role.tsx:271-275 | expanded are exactly the APIs with a matching permission, each once |
| AuthorizedApis.KeptPermissionsAreOriginal | apps/console/src/extensions/components/application/components/application-roles/application-role-permission.tsx:204-246 | every kept API is a listed API with a subset of its permissions and its other fields unchanged |
| EditAppRole.CheckedPermissionsOf | apps/console/src/extensions/components/application/components/application-roles/edit-app-role.tsx:88-95 | the names of the selected role's permissions, in order; none without a role |
| EditAppRole.UpdatePayload | apps/console/src/extensions/components/application/components/application-roles/edit-app-role.tsx:313-320 | the payload carries the selected role's name, and the added and removed names one-to-one and in order as permission items |
| EditAppRole.ReopenKeepsStaleAdded | apps/console/src/extensions/components/application/components/application-roles/edit-app-role.tsx:87-98 | as written: a name checked in an earlier session is still "added" after reopening on another role, so the diff no longer describes the checkboxes |
| EditAppRole.ReopenWithReset | apps/console/src/extensions/components/application/components/application-roles/edit-app-role.tsx:76-78 | the intended reopen: `checked` is the opened role's names and both diffs are empty |
| EditAppRole.ReopenWithResetConsistent | apps/console/src/extensions/components/application/components/application-roles/edit-app-role.tsx:185-216 | after a reopen with reset, every click sequence keeps `added` = `checked` minus the role's names and `removed` = the role's names minus `checked`, as sets |
| EditAppRole.RoleEditor.constructor | apps/console/src/extensions/components/application/components/application-roles/edit-app-role.tsx:75-85 | empty lists and diffs, loading shown |
| EditAppRole.RoleEditor.OnSelectedRoleOrShow | apps/console/src/extensions/components/application/components/application-roles/edit-app-role.tsx:87-98 | when the modal is shown, `checked` becomes the selected role's permission names and `added`/`removed` are kept; otherwise nothing changes |
| EditAppRole.RoleEditor.ReceiveAuthorizedApis | apps/console/src/extensions/components/application/components/application-roles/edit-app-role.tsx:106-141 | a response fills both lists and expands every API; a described failure keeps the lists; any other failure empties the list, the filtered list and the expansion list; loading ends on every path |
| EditAppRole.RoleEditor.HandleAccordionTitleClick | apps/console/src/extensions/components/application/components/application-roles/edit-app-role.tsx:167-178 | the API's membership in the expansion list is toggled |
| EditAppRole.RoleEditor.HandleCheckboxChange | apps/console/src/extensions/components/application/components/application-roles/edit-app-role.tsx:185-216 | the permission name is toggled in the three lists by the diff rule |
| EditAppRole.RoleEditor.HandleSearchFieldChange | apps/console/src/extensions/components/application/components/application-roles/edit-app-role.tsx:227-240 | a non-empty query filters the list; an empty one restores it with every API expanded |
| EditAppRole.RoleEditor.HandleCloseEditRoleModal | apps/console/src/extensions/components/application/components/application-roles/edit-app-role.tsx:298-301 | loading is shown again; the lists are kept |
| EditAppRole.RoleEditor.UpdateRolePermissionsList | apps/console/src/extensions/components/application/components/application-roles/edit-app-role.tsx:313-320 | the payload built from the selected role and the current diffs |
| ApplicationRolePermission.PermissionList.constructor | apps/console/src/extensions/components/application/components/application-roles/application-role-permission.tsx:49-68 | the assigned list starts empty whatever `initialValues` holds |
| ApplicationRolePermission.PermissionList.ReceiveAuthorizedApis | apps/console/src/extensions/components/application/components/application-roles/application-role-permission.tsx:70-114 | a response fills both lists and expands every API; a failure without description empties them; loading ends; the assigned list is untouched |
| ApplicationRolePermission.PermissionList.HandleAccordionTitleClick | apps/console/src/extensions/components/application/components/application-roles/application-role-permission.tsx:140-151 | the API's membership in the expansion list is toggled |
| ApplicationRolePermission.PermissionList.HandleCheckboxChange | apps/console/src/extensions/components/application/components/application-roles/application-role-permission.tsx:158-169 | a present name leaves the assigned list entirely, an absent one is appended |
| ApplicationRolePermission.PermissionList.HandleSearchFieldChange | apps/console/src/extensions/components/application/components/application-roles/application-role-permission.tsx:180-193 | a non-empty query filters the list; an empty one restores it with every API expanded |
| ApplicationRolePermission.PermissionList.Submit | apps/console/src/extensions/components/application/components/application-roles/application-role-permission.tsx:365 | exactly the assigned list is handed to `onSubmit` |
| ConsumerUserGroups.MapSet | apps/console/src/extensions/components/users/components/consumers/consumer-user-groupslist.tsx:145 | `Map.set`: the key maps to the new value, other keys are unchanged, an existing key keeps its position and a new one goes last |
| ConsumerUserGroups.MapUserGroups | apps/console/src/extensions/components/users/components/consumers/consumer-user-groupslist.tsx:136-152 | no map when `groups` is not an array; otherwise the map built from the last group to the first |
| ConsumerUserGroups.GroupsMapLookup | apps/console/src/extensions/components/users/components/consumers/consumer-user-groupslist.tsx:136-152 | a display name is a key exactly when a group outside the application and internal domains carries it, and it maps to the value of the leftmost such group |
| ConsumerUserGroups.GroupsMapKeysDistinct | apps/console/src/extensions/components/users/components/consumers/consumer-user-groupslist.tsx:136-152 | no display name is a key twice |
| ConsumerUserGroups.AssignedOf | apps/console/src/extensions/components/users/components/consumers/consumer-user-groupslist.tsx:189-193 | exactly the groups whose display name is a key of the map |
| ConsumerUserGroups.InitialSelection | apps/console/src/extensions/components/users/components/consumers/consumer-user-groupslist.tsx:185-193 | the right-to-left loop yields those groups in reverse list order |
| ConsumerUserGroups.MatchingGroups | apps/console/src/extensions/components/users/components/consumers/consumer-user-groupslist.tsx:216-226 | exactly the groups whose shown name (the consumer user store prefix stripped) contains the value ignoring case |
| ConsumerUserGroups.FilterUnselected | apps/console/src/extensions/components/users/components/consumers/consumer-user-groupslist.tsx:216-226 | the search loop yields the matching groups in list order |
| ConsumerUserGroups.ResolveListItemOfQualified | apps/console/src/extensions/components/users/components/consumers/consumer-user-groupslist.tsx:374-382 | a "domain/name" display name resolves to the name |
| ConsumerUserGroups.ResolveListItemOfPlain | apps/console/src/extensions/components/users/components/consumers/consumer-user-groupslist.tsx:374-382 | a display name without '/' resolves to itself |
| ConsumerUserGroups.RemainingIdsMultiset | apps/console/src/extensions/components/users/components/consumers/consumer-user-groupslist.tsx:281-291 | the ids to remove are the map's values minus the selected ids, counted with multiplicity |
| ConsumerUserGroups.RemainingIdsMembership | apps/console/src/extensions/components/users/components/consumers/consumer-user-groupslist.tsx:281-291 | with distinct values, no selected id is removed and every unselected id of the user is |
| ConsumerUserGroups.CollectIds | apps/console/src/extensions/components/users/components/consumers/consumer-user-groupslist.tsx:241-245 | the ids of the selected groups, in order |
| ConsumerUserGroups.DropSelected | apps/console/src/extensions/components/users/components/consumers/consumer-user-groupslist.tsx:285-291 | the splice loop computes the remaining ids |
| ConsumerUserGroups.RemoveOperations | apps/console/src/extensions/components/users/components/consumers/consumer-user-groupslist.tsx:293-305 | one remove operation per id |
| ConsumerUserGroups.AddOperations | apps/console/src/extensions/components/users/components/consumers/consumer-user-groupslist.tsx:307-319 | one add operation per id |
| ConsumerUserGroups.PushRemoves | apps/console/src/extensions/components/users/components/consumers/consumer-user-groupslist.tsx:293-305 | the push loop yields the remove operations in id order |
| ConsumerUserGroups.PushAdds | apps/console/src/extensions/components/users/components/consumers/consumer-user-groupslist.tsx:307-319 | the push loop appends the add operations in id order |
| ConsumerUserGroups.UpdateUserGroup | apps/console/src/extensions/components/users/components/consumers/consumer-user-groupslist.tsx:240-319 | the request has the bulk schema, one PATCH remove of "members[display eq userName]" on "/Groups/id" per remaining id, then one PATCH add of {display: userName, value: user id} per selected group |
| ConsumerUserGroups.ConsumerUserGroupsList.constructor | apps/console/src/extensions/components/users/components/consumers/consumer-user-groupslist.tsx:85-94 | the lists start empty and the primary groups and their map unset |
| ConsumerUserGroups.ConsumerUserGroupsList.OnUser | apps/console/src/extensions/components/users/components/consumers/consumer-user-groupslist.tsx:108-114 | with a user, the map is rebuilt from the user's groups and the assigned table takes them; without one nothing changes |
| ConsumerUserGroups.ConsumerUserGroupsList.SetInitialLists | apps/console/src/extensions/components/users/components/consumers/consumer-user-groupslist.tsx:185-198 | the selection is the primary groups that the user is in, in reverse order; the visible and initial lists become the primary groups; select-all is whether the two lengths agree |
| ConsumerUserGroups.ConsumerUserGroupsList.ReceivePrimaryGroups | apps/console/src/extensions/components/users/components/consumers/consumer-user-groupslist.tsx:116-134 | the primary groups are stored and the initial lists set when the user has groups |
| ConsumerUserGroups.ConsumerUserGroupsList.HandleUnassignedItemCheckboxChange | apps/console/src/extensions/components/users/components/consumers/consumer-user-groupslist.tsx:172-183 | a selected group loses its first copy and another is appended; select-all is whether the selection is as long as the visible list |
| ConsumerUserGroups.ConsumerUserGroupsList.HandleOpenAddNewGroupModal | apps/console/src/extensions/components/users/components/consumers/consumer-user-groupslist.tsx:200-203 | the initial lists are set and the modal opens |
| ConsumerUserGroups.ConsumerUserGroupsList.HandleCloseAddNewGroupModal | apps/console/src/extensions/components/users/components/consumers/consumer-user-groupslist.tsx:205-208 | select-all is cleared and the modal closes |
| ConsumerUserGroups.ConsumerUserGroupsList.HandleUnselectedListSearch | apps/console/src/extensions/components/users/components/consumers/consumer-user-groupslist.tsx:210-232 | an empty value restores the initial list; otherwise the visible list is the matching initial groups |
| ConsumerUserGroups.ConsumerUserGroupsList.Save | apps/console/src/extensions/components/users/components/consumers/consumer-user-groupslist.tsx:456 | the bulk request for the current selection and map |
| ConsumerUserGroups.ConsumerUserGroupsList.ReceiveSaveOutcome | apps/console/src/extensions/components/users/components/consumers/consumer-user-groupslist.tsx:323-371 | a successful request clears select-all, closes the modal and asks for the user to be reloaded; a failure changes nothing and asks for nothing |
| CoreModels.LastCursorFound | apps/console/src/extensions/components/application/components/application-roles/application-roles.tsx:104-119 | a relation yields a cursor exactly when some link carries it |
| CoreModels.LastLinkWins | apps/console/src/extensions/components/application/components/application-roles/application-roles.tsx:104-119 | with repeated relations, the last link sets the cursor to the text after its first "rel=" up to any second one |
| ApplicationRoles.ResolveCursors | apps/console/src/extensions/components/application/components/application-roles/application-roles.tsx:100-129 | the link loop and its defaults compute `CursorsFrom` of the response's links |
| ApplicationRoles.EmptyLinksClearCursors | apps/console/src/extensions/components/application/components/application-roles/application-roles.tsx:179-182 | the empty page a generic error leaves sets both cursors to "" and both flags to false |
| ApplicationRoles.ListRequest | apps/console/src/extensions/components/application/components/application-roles/application-roles.tsx:131-133 | the list effect's request: no cursors, the page size, and the query or `null` for an empty one |
| ApplicationRoles.PageChangeRequest | apps/console/src/extensions/components/application/components/application-roles/application-roles.tsx:255-262 | a request exactly when both pages are numbers and differ; forward carries only the after cursor, back only the before cursor |
| ApplicationRoles.PageChangeUsesOneCursor | apps/console/src/extensions/components/application/components/application-roles/application-roles.tsx:255-262 | a page-change request never carries both cursors |
| ApplicationRoles.AppIdOfPath | apps/console/src/extensions/components/application/components/application-roles/application-roles.tsx:97-98 | the id is the last '/'-segment of the path |
| ApplicationRoles.AppIdOfPathWithFragment | apps/console/src/extensions/components/application/components/application-roles/application-roles.tsx:97-98 | the id is that segment cut at its first '#' |
| ApplicationRoles.ShowPlaceholders | apps/console/src/extensions/components/application/components/application-roles/application-roles.tsx:388-440 | the empty-search placeholder exactly for a query with an empty list, the empty-list placeholder exactly for no query and an empty list, none exactly for a non-empty list |
| ApplicationRoles.RolesTab.constructor | apps/console/src/extensions/components/application/components/application-roles/application-roles.tsx:77-98 | the state after the mount effects: the id from the path, page 1, the default page size |
| ApplicationRoles.RolesTab.ReceiveRoles | apps/console/src/extensions/components/application/components/application-roles/application-roles.tsx:144-188 | a response replaces the list and recomputes the cursors; a described error keeps everything; any other error leaves the empty page and cleared cursors; loading ends |
| ApplicationRoles.RolesTab.HandlePaginationChange | apps/console/src/extensions/components/application/components/application-roles/application-roles.tsx:251-263 | the active page becomes the parsed page in every case, and the request is the page-change request |
| ApplicationRoles.RolesTab.HandleApplicationRolesFilter | apps/console/src/extensions/components/application/components/application-roles/application-roles.tsx:240-243 | page 1 and the new query; a list request iff the query changed |
| ApplicationRoles.RolesTab.HandleSearchQueryClear | apps/console/src/extensions/components/application/components/application-roles/application-roles.tsx:230-233 | page 1 and an empty query; a list request iff there was a query |
| ApplicationRoles.RolesTab.HandleItemsPerPageDropdownChange | apps/console/src/extensions/components/application/components/application-roles/application-roles.tsx:271-277 | page 1 and the new size; a list request iff the size changed |
| ApplicationRoles.RolesTab.OnRoleUpdate | apps/console/src/extensions/components/application/components/application-roles/application-roles.tsx:302-304 | a refetch with no cursors, no filter and no limit |
| ApiResourcesConstants.ResourceErrorAlert | apps/console/src/extensions/components/api-resources/components/general-api-resource.tsx:86-118 | "FLU-600000" gives the unauthorized alert, "FLU-600027" and "FLU-600022" the not-found alert, any other or no code the generic alert |
| ApiResources.ApplyLinks | apps/console/src/extensions/components/api-resources/pages/api-resources.tsx:87-107 | the link loop computes `CursorsFromLinks` |
| ApiResources.MissingRelKeepsCursor | apps/console/src/extensions/components/api-resources/pages/api-resources.tsx:90-107 | a relation no link carries keeps its previous cursor |
| ApiResources.LastRelSetsCursor | apps/console/src/extensions/components/api-resources/pages/api-resources.tsx:90-107 | the last link of a relation sets its cursor |
| ApiResources.ClearingRulesDiffer | apps/console/src/extensions/components/api-resources/pages/api-resources.tsx:87-107 | for non-empty links without "after", the roles tab clears its after cursor and this page keeps its old one |
| ApiResources.ListFetchAlert | apps/console/src/extensions/components/api-resources/pages/api-resources.tsx:117-141 | "FLU-600000" gives the unauthorized alert and everything else the generic one |
| ApiResources.ListFetchHasNoNotFound | apps/console/src/extensions/components/api-resources/pages/api-resources.tsx:117-141 | a not-found code is generic for the list, unlike for one resource |
| ApiResources.ApiResourcesPage.constructor | apps/console/src/extensions/components/api-resources/pages/api-resources.tsx:48-56 | page 0, an empty list and every cursor undefined |
| ApiResources.ApiResourcesPage.ReceiveListData | apps/console/src/extensions/components/api-resources/pages/api-resources.tsx:70-112 | an exception object raises the generic alert only; a page replaces the list and updates the next cursors (empty links clear both) |
| ApiResources.ApiResourcesPage.SetMutateApiResourcesList | apps/console/src/extensions/components/api-resources/pages/api-resources.tsx:170-179 | the request cursors take the arguments, the current cursors the next ones, and a refetch is flagged |
| ApiResources.ApiResourcesPage.ListUpdatedEffect | apps/console/src/extensions/components/api-resources/pages/api-resources.tsx:146-151 | a raised flag calls `mutate` and is lowered |
| ApiResources.ApiResourcesPage.OnApiResourceDelete | apps/console/src/extensions/components/api-resources/pages/api-resources.tsx:156-162 | one item left resets both request cursors; otherwise the current cursors are re-requested |
| ApiResources.ApiResourcesPage.HandlePaginationChange | apps/console/src/extensions/components/api-resources/pages/api-resources.tsx:187-196 | forward requests (nextAfter, undefined), back (undefined, nextBefore), the same page nothing; the active page follows |
| ApiResources.ApiResourcesPage.DisableNextButton | apps/console/src/extensions/components/api-resources/pages/api-resources.tsx:221 | disabled iff the next-after cursor is falsy |
| ApiResources.ApiResourcesPage.DisablePreviousButton | apps/console/src/extensions/components/api-resources/pages/api-resources.tsx:222 | disabled iff the next-before cursor is falsy |
| GeneralApiResource.ResolveDangerActions | apps/console/src/extensions/components/api-resources/components/general-api-resource.tsx:131-163 | no danger zone without the update scope; the delete zone exactly with both scopes |
| GeneralApiResource.GeneralApiResourceTab.constructor | apps/console/src/extensions/components/api-resources/components/general-api-resource.tsx:61-63 | not loading, modal closed, nothing marked |
| GeneralApiResource.GeneralApiResourceTab.OnDeleteActionClick | apps/console/src/extensions/components/api-resources/components/general-api-resource.tsx:131-163 | the resource is marked and the modal opens |
| GeneralApiResource.GeneralApiResourceTab.OnCloseConfirmationModal | apps/console/src/extensions/components/api-resources/components/general-api-resource.tsx:175-180 | the modal closes |
| GeneralApiResource.GeneralApiResourceTab.BeginDelete | apps/console/src/extensions/components/api-resources/components/general-api-resource.tsx:70-72 | the delete of the marked resource starts and loading is shown |
| GeneralApiResource.GeneralApiResourceTab.FinishDelete | apps/console/src/extensions/components/api-resources/components/general-api-resource.tsx:73-123 | success closes the modal and navigates to the list path; a failure gives the alert its code selects; loading ends and nothing stays marked |
| ApiResourceEdit.ResourceIdOfPath | apps/console/src/extensions/components/api-resources/pages/api-resource-edit.tsx:103-108 | the id is the last '/'-segment of the path |
| ApiResourceEdit.ShowErrorPlaceholder | apps/console/src/extensions/components/api-resources/pages/api-resource-edit.tsx:118 | the placeholder exactly on an error, or when loading ended without data |
| ApiResourceEdit.ApiResourceEditPage.constructor | apps/console/src/extensions/components/api-resources/pages/api-resource-edit.tsx:45 | the id starts unset |
| ApiResourceEdit.ApiResourceEditPage.OnMount | apps/console/src/extensions/components/api-resources/pages/api-resource-edit.tsx:55-57 | the id is read from the path |
| ApiResourceEdit.ApiResourceEditPage.ReceiveFetchError | apps/console/src/extensions/components/api-resources/pages/api-resource-edit.tsx:62-98 | no alert without an error; otherwise the alert its code selects |
| EventEdit.PublishedNames | apps/console/src/extensions/components/events/pages/event-edit.tsx:143-145 | exactly the display names of the published events |
| EventEdit.CategoriesAndSelection | apps/console/src/extensions/components/events/pages/event-edit.tsx:136-147 | the loop yields the distinct categories and the published names |
| EventEdit.CategoriesListed | apps/console/src/extensions/components/events/pages/event-edit.tsx:136-146 | every category once, and only categories of listed events |
| EventEdit.Republished | apps/console/src/extensions/components/events/pages/event-edit.tsx:206-228 | one copy per event, same length |
| EventEdit.RewritePublish | apps/console/src/extensions/components/events/pages/event-edit.tsx:212-228 | the loop computes `Republished` |
| EventEdit.RepublishedFields | apps/console/src/extensions/components/events/pages/event-edit.tsx:206-228 | each copy keeps its position and every field but `publish`, which holds iff its display name is selected |
| EventEdit.SubmitInitialSelection | apps/console/src/extensions/components/events/pages/event-edit.tsx:137-147 | with distinct display names, submitting the initial selection gives the list back |
| EventEdit.ResubmitSelection | apps/console/src/extensions/components/events/pages/event-edit.tsx:206-228 | the published names after submit are exactly the selected names some event carries |
| EventEdit.EventsOfCategory | apps/console/src/extensions/components/events/pages/event-edit.tsx:250-269 | exactly the events of the category, as options labelled and valued by display name |
| EventEdit.GetEventsOfCategory | apps/console/src/extensions/components/events/pages/event-edit.tsx:250-269 | the loop computes `EventsOfCategory` |
| EventEdit.EventsEditPage.constructor | apps/console/src/extensions/components/events/pages/event-edit.tsx:76-78 | list, selection and categories start unset |
| EventEdit.EventsEditPage.ReceiveEventConfig | apps/console/src/extensions/components/events/pages/event-edit.tsx:118-149 | an exception object raises the alert and, like a fetch error, leaves the page unset; otherwise list, categories and selection are set |
| EventEdit.EventsEditPage.HandleEventChange | apps/console/src/extensions/components/events/pages/event-edit.tsx:167-171 | the selection becomes the form's "events-configuration" value |
| EventEdit.EventsEditPage.HandleSubmit | apps/console/src/extensions/components/events/pages/event-edit.tsx:206-228 | the request body is the rewritten list; none where the loop throws |
| ServerConfiguration.FirstValue | apps/console/src/extensions/configs/server-configuration.tsx:66-70 | the value of the first property with that name, none when there is none |
| ServerConfiguration.ProcessInitialValues | apps/console/src/extensions/configs/server-configuration.tsx:61-84 | the callback is called exactly when an enable property exists, with whether its first value is exactly "true"; values are returned exactly when the count property exists too, with that flag, the parse of the first count value and the other values kept; with no count property the callback is still called before the read throws |
| ServerConfiguration.ParseNumberValue | apps/console/src/extensions/configs/server-configuration.tsx:87 | parsing a number's string form gives the number |
| ServerConfiguration.ClampCount | apps/console/src/extensions/configs/server-configuration.tsx:92-94 | 0 becomes 1 while enabled, any other count is unchanged |
| ServerConfiguration.ProcessPasswordCountSubmitData | apps/console/src/extensions/configs/server-configuration.tsx:86-108 | both fields are deleted from the data; the payload is an "UPDATE" of exactly the count then the enable property, as string forms |
| ServerConfiguration.SubmitInitialValues | apps/console/src/extensions/configs/server-configuration.tsx:61-108 | submitting the unedited initial form sends back the count (1 for an enabled 0) and "true" or "false" |
| ServerConfiguration.ConnectorToggleNames | apps/console/src/extensions/configs/server-configuration.tsx:35-40 | one toggle property per shown connector |
| ServerConfiguration.ToggleNamesCoverShownConnectors | apps/console/src/extensions/configs/server-configuration.tsx:35-46 | a connector has a toggle name exactly when it is shown |
| IdpModels.NameExists | apps/console/src/features/identity-providers/components/wizards/google/google-authentication-provider-create-wizard-content.tsx:145-161 | the loop finds a duplicate exactly when the count is positive and some provider carries the name |
| IdpModels.CountGatesDuplicate | apps/console/src/features/identity-providers/components/wizards/google/google-authentication-provider-create-wizard-content.tsx:149 | a zero or missing count never reports a duplicate |
| IdpModels.TemplateIdpName | apps/console/src/features/identity-providers/components/wizards/google/google-authentication-provider-create-wizard-content.tsx:168 | the template's provider name, none when any step is missing |
| GoogleWizard.InitialValues | apps/console/src/features/identity-providers/components/wizards/google/google-authentication-provider-create-wizard-content.tsx:168 | only the template's provider name |
| GoogleWizard.Validate | apps/console/src/features/identity-providers/components/wizards/google/google-authentication-provider-create-wizard-content.tsx:179-196 | an error key exactly for each falsy required field |
| GoogleWizard.ValidateFilledForm | apps/console/src/features/identity-providers/components/wizards/google/google-authentication-provider-create-wizard-content.tsx:179-196 | with the three fields filled the errors are empty |
| GoogleWizard.GoogleWizardContent.constructor | apps/console/src/features/identity-providers/components/wizards/google/google-authentication-provider-create-wizard-content.tsx:107-108 | an empty list and an undefined loading flag |
| GoogleWizard.GoogleWizardContent.GetIdpList | apps/console/src/features/identity-providers/components/wizards/google/google-authentication-provider-create-wizard-content.tsx:115-125 | loading starts |
| GoogleWizard.GoogleWizardContent.ReceiveIdpList | apps/console/src/features/identity-providers/components/wizards/google/google-authentication-provider-create-wizard-content.tsx:127-136 | a response replaces the list, an error keeps it; loading ends |
| GoogleWizard.GoogleWizardContent.IdpNameValidation | apps/console/src/features/identity-providers/components/wizards/google/google-authentication-provider-create-wizard-content.tsx:145-161 | the duplicate message exactly when the name is taken |
| GoogleWizard.GoogleWizardContent.RendersWizard | apps/console/src/features/identity-providers/components/wizards/google/google-authentication-provider-create-wizard-content.tsx:164 | the wizard renders exactly when loading is false, not undefined |
| ExpertWizard.ValidateForm | apps/console/src/features/identity-providers/components/wizards/expert-mode/expert-mode-authentication-provider-create-wizard-content.tsx:143-156 | the name error is undefined exactly for a truthy name, otherwise the required message |
| ExpertWizard.DescriptionNeverValidated | apps/console/src/features/identity-providers/components/wizards/expert-mode/expert-mode-authentication-provider-create-wizard-content.tsx:143-156 | the description never changes the result |
| ExpertWizard.InitialValues | apps/console/src/features/identity-providers/components/wizards/expert-mode/expert-mode-authentication-provider-create-wizard-content.tsx:165-167 | only the template's provider name |
| ExpertWizard.Render | apps/console/src/features/identity-providers/components/wizards/expert-mode/expert-mode-authentication-provider-create-wizard-content.tsx:158-160 | the loader exactly while loading |
| ExpertWizard.IdpNameValidation | apps/console/src/features/identity-providers/components/wizards/expert-mode/expert-mode-authentication-provider-create-wizard-content.tsx:113-135 | `null` exactly when the name is not taken, otherwise the duplicate message |
| EditGroup.UserstorePrefixOfQualified | apps/console/src/extensions/components/groups/edit-group/edit-group.tsx:102 | a qualified name's prefix is its user store |
| EditGroup.ResolveResourcePanes | apps/console/src/extensions/components/groups/edit-group/edit-group.tsx:136-194 | General then Users; Roles third exactly when the feature is enabled and roles are available |
| EditGroup.GroupEditor.constructor | apps/console/src/extensions/components/groups/edit-group/edit-group.tsx:73-78 | not read-only, not remote, both loading |
| EditGroup.GroupEditor.ReadOnlyEffect | apps/console/src/extensions/components/groups/edit-group/edit-group.tsx:97-114 | without a group nothing changes; otherwise read-only and remote are raised when their conditions hold and never lowered |
| EditGroup.GroupEditor.ReceiveGroup | apps/console/src/extensions/components/groups/edit-group/edit-group.tsx:97-114 | the new group and the effect it triggers |
| EditGroup.GroupEditor.ReceiveReadOnlyUserStores | apps/console/src/extensions/components/groups/edit-group/edit-group.tsx:84-95 | a response is stored and re-runs the effect; loading ends either way |
| EditGroup.GroupEditor.CheckApplicationRoles | apps/console/src/extensions/components/groups/edit-group/edit-group.tsx:117-134 | a request exactly with the feature on; otherwise the panes stop loading |
| EditGroup.GroupEditor.ReceiveApplicationRoles | apps/console/src/extensions/components/groups/edit-group/edit-group.tsx:119-130 | roles are available exactly for a non-empty response; the panes stop loading |
| WizardHelp.Previous | apps/console/src/features/identity-providers/data/identity-provider-templates/templates/apple/create-wizard-help.tsx:211-213 | the previous button of every template: 0 stays 0, any other state goes down by one |
| WizardHelp.Next | apps/console/src/features/identity-providers/data/identity-provider-templates/templates/apple/create-wizard-help.tsx:214-216 | the stop state stays, any other state goes up by one (Apple stops at 5) |
| WizardHelp.ButtonColor | apps/console/src/features/identity-providers/data/identity-provider-templates/templates/apple/create-wizard-help.tsx:217-220 | a button is grey exactly when disabled, orange otherwise |
| WizardHelp.StepsStayInRange | apps/console/src/features/identity-providers/data/identity-provider-templates/templates/apple/create-wizard-help.tsx:211-216 | from 0 to the last step, both buttons keep the state in that range |
| WizardHelp.PanelIdsAreSteps | apps/console/src/features/identity-providers/data/identity-provider-templates/templates/apple/create-wizard-help.tsx:51-210 | a bounded template's panel ids are 0 up to its last step, once each |
| WizardHelp.DisplayedPanels | apps/console/src/features/identity-providers/data/identity-provider-templates/templates/apple/create-wizard-help.tsx:236 | the panels shown are those whose id equals the state, and one is shown exactly when the state is an id |
| WizardHelp.DisplayedOnce | apps/console/src/features/identity-providers/data/identity-provider-templates/templates/apple/create-wizard-help.tsx:51-210 | with distinct ids at most one panel is shown |
| WizardHelp.OnePanelShown | apps/console/src/features/identity-providers/data/identity-provider-templates/templates/facebook/create-wizard-help.tsx:50-175 | exactly one panel shows for the states 0 to the last step (Facebook: 0..3) |
| WizardHelp.NextTimesFromStart | apps/console/src/features/identity-providers/data/identity-provider-templates/templates/google/create-wizard-help.tsx:172-175 | from 0, each next click climbs one step until the last step and then stays (Google: 3) |
| WizardHelp.PreviousUndoesNext | apps/console/src/features/identity-providers/data/identity-provider-templates/templates/hypr/create-wizard-help.tsx:159-167 | previous undoes next away from the stop state (Hypr: stop at 4) |
| WizardHelp.WizardHelpPanel.HandleClickPrevious | apps/console/src/extensions/identity-provider-templates/templates/swe/create-wizard-help.tsx:194-198 | the Swe left button applies `Previous` |
| WizardHelp.WizardHelpPanel.HandleClickNext | apps/console/src/extensions/identity-provider-templates/templates/swe/create-wizard-help.tsx:199-202 | the Swe right button applies `Next` with stop 3 |
| WizardHelp.EnterpriseNextUnbounded | apps/console/src/features/identity-providers/data/identity-provider-templates/templates/enterprise-identity-provider/create-wizard-help.tsx:63-65 | the enterprise next button has no upper bound: from 1, k clicks reach 1 + k |
| WizardHelp.WizardHelpPanel.constructor | apps/console/src/features/identity-providers/data/identity-provider-templates/templates/enterprise-identity-provider/create-wizard-help.tsx:37-39 | the state after the effect on the `current` prop |
| WizardHelp.WizardHelpPanel.OnCurrentChange | apps/console/src/features/identity-providers/data/identity-provider-templates/templates/enterprise-identity-provider/create-wizard-help.tsx:37-39 | the state follows the `current` prop |

## Left out

- Rendering (JSX, styling, tables, modals), translation, Redux dispatch of alerts, `history.push` and the HTTP clients. Requests are parameters or returned values, alerts are an enumeration or a flag, and navigation is a returned path.
- React scheduling (effect order, batched updates, stale closures). Each handler or request outcome is one atomic step, and the effects it triggers run inside it.
- Unicode case mapping and the `RegExp` machinery. Search is a literal, case-insensitive substring test over ASCII lower-casing.
- `parseInt` details: hexadecimal prefixes and non-ASCII white space. `toString` is modelled for integers only, without exponent notation.
- Object identity. `includes`/`indexOf` on group objects are value equality.
- Constants that are defined outside these files are parameters of the model: the application and internal domains, the consumer user store, the four toggle property names, the developer base path and the default page size.
- The progress percentages of the wizard help panels. They are floating point, and the enterprise panel divides by 0.
- `handleAssignedGroupListSearch` of the consumer user groups and `deleteApplicationRole`, `handleRoleEdit` and `handleRoleDelete` of the roles tab. These handlers are not among the rules modelled.
- The `isSubmitting` flags and the loading flags that only drive spinners. The four flags of the group roles tab, which decide whether its lists and assign modal render, are modelled.
- EditGroupRoles.GroupRolesEditor: the modal's open and close (lines 359, 366, 434) and the save request's outcome, which calls `onGroupUpdate`, are not modelled; the refetch it leads to is `RequestGroupRoles` followed by the two role responses.
- EventEdit.EventsEditPage.ReceiveEventConfig: the second alert a fetch error raises from its own effect is not modelled. Neither is the self-referencing `isConfigurationsLoading` memo.
- EventEdit.EventConfig: the response's other fields are one opaque `attributes` value, carried unchanged.
- ServerConfiguration.EnabledOf: a non-boolean value in the enabled field is read as undefined. The field is typed boolean.
- IdpModels.NameExists: the provider array is a sequence. A missing array with a positive count, which throws in the source, is not modelled.
- ConsumerUserGroups.ConsumerUserGroupsList.ReceivePrimaryGroups: the request's user-store choice comes from the user's enterprise schema and is not modelled.
- EditAppRole.UpdatePayload: with no role selected the source throws; the model returns none.
- WizardHelp.WizardHelpPanel.constructor: the state is an integer. The `undefined` state before the first effect and non-integer props are not modelled.
- ApplicationRoles.RolesTab.constructor: the state is modelled from after the mount effects. A page size from the dropdown is any integer.

## Findings

| source | as written | input that shows it | evidently intended | confidence | as-written member | corrected member |
|---|---|---|---|---|---|---|
| apps/console/src/extensions/components/groups/edit-group/edit-group-roles.tsx:107-131 | the application list request lowers its loading flag only on success; its failure path only raises an alert | the application request fails while the role requests and the group details load: the tab shows its placeholder for good and the assign modal never renders | the flag is lowered in `finally`, as the two role requests do at lines 176-178 and 218-220 | not executed | EditGroupRoles.FailedApplicationListNeverRenders | EditGroupRoles.SettledMountRendersWithFinally |
| apps/console/src/extensions/components/groups/edit-group/edit-group-roles.tsx:142-180 | the assigned-roles response replaces `checked` but keeps `added` and `removed`; a successful save (line 424) refetches the group, whose change re-runs the effect at lines 133-136 on the same mounted component | add role "role" of "app", save, and uncheck it after the refetch: it is only dropped from `added`, so the next save does not unassign it | the refetched assignment is a fresh baseline with empty diffs | not executed | EditGroupRoles.RefetchAfterSaveKeepsStaleAdded | EditGroupRoles.RefetchWithResetConsistent |
| apps/console/src/extensions/components/application/components/application-roles/edit-app-role.tsx:87-98 | opening the modal replaces `checked` but keeps `added` and `removed` from the previous session, and the component stays mounted between openings | check permission "p" on a role without permissions, close the modal, open a second role without permissions and save: "p" is sent as added to the second role | the diffs start empty on every opening, so they describe the checkboxes against the opened role | not executed | EditAppRole.ReopenKeepsStaleAdded | EditAppRole.ReopenWithResetConsistent |
