/**
 * The groups section of a consumer user: the user's groups are indexed by display name, the
 * primary groups of the user store are offered in a selection list with a search box, and saving
 * sends one SCIM bulk request (section 3.7 of RFC 7644) of PATCH operations (section 3.5.2 of
 * RFC 7644) that first takes the user out of the groups no longer selected and then adds the user
 * to every selected group.
 */
module ConsumerUserGroups {
  import opened Wrappers
  import opened Seqs
  import opened Strings

  /** A group as listed on the user (`display` is "DOMAIN/name"). */
  datatype GroupMember = GroupMember(display: string, value: string)

  /** A group of the user store (`GroupsInterface`). */
  datatype Group = Group(id: string, displayName: string)

  datatype User = User(id: string, userName: string, groups: Option<seq<GroupMember>>)

  // ---- a JavaScript Map<string, string> ----

  /** An entry of a map; a map is its entries in insertion order. */
  datatype Entry = Entry(key: string, value: string)

  function MapKeys(m: seq<Entry>): seq<string>
  {
    if m == [] then [] else [m[0].key] + MapKeys(m[1..])
  }

  /** `[...m.values()]`. */
  function MapValues(m: seq<Entry>): seq<string>
  {
    if m == [] then [] else [m[0].value] + MapValues(m[1..])
  }

  /** `m.get(k)`. */
  function Lookup(m: seq<Entry>, k: string): Option<string>
  {
    if m == [] then None else if m[0].key == k then Some(m[0].value) else Lookup(m[1..], k)
  }

  /** `m.set(k, v)`: an existing key keeps its place and takes the new value, a new key goes last. */
  function MapSet(m: seq<Entry>, k: string, v: string): (r: seq<Entry>)
    ensures Lookup(r, k) == Some(v)
    ensures forall j :: j != k ==> Lookup(r, j) == Lookup(m, j)
    ensures k in MapKeys(m) ==> MapKeys(r) == MapKeys(m)
    ensures k !in MapKeys(m) ==> MapKeys(r) == MapKeys(m) + [k]
  {
    if m == [] then [Entry(k, v)]
    else if m[0].key == k then [Entry(k, v)] + m[1..]
    else [m[0]] + MapSet(m[1..], k, v)
  }

  // ---- mapUserGroups ----

  /** The text before the first '/' of a group's display name. */
  function Domain(display: string): string
  {
    Split(display, "/")[0]
  }

  predicate IsPrimary(display: string, applicationDomain: string, internalDomain: string)
  {
    Domain(display) != applicationDomain && Domain(display) != internalDomain
  }

  function Displays(groups: seq<GroupMember>): seq<string>
  {
    seq(|groups|, i requires 0 <= i < |groups| => groups[i].display)
  }

  /** The map `mapUserGroups` builds, visiting the groups from the last to the first. */
  function GroupsMap(groups: seq<GroupMember>, applicationDomain: string, internalDomain: string): seq<Entry>
  {
    if groups == [] then []
    else
      var m := GroupsMap(groups[1..], applicationDomain, internalDomain);
      if IsPrimary(groups[0].display, applicationDomain, internalDomain) then MapSet(m, groups[0].display, groups[0].value)
      else m
  }

  /** `mapUserGroups`: `None` stands for a `groups` field that is not an array. */
  method MapUserGroups(groups: Option<seq<GroupMember>>, applicationDomain: string, internalDomain: string)
    returns (groupsMap: Option<seq<Entry>>)
    ensures groups.None? ==> groupsMap.None?
    ensures groups.Some? ==> groupsMap == Some(GroupsMap(groups.value, applicationDomain, internalDomain))
  {
    if groups.None? {
      return None;
    }
    var list := groups.value;
    var m: seq<Entry> := [];
    var i := |list|;
    while i > 0
      invariant 0 <= i <= |list|
      invariant m == GroupsMap(list[i..], applicationDomain, internalDomain)
    {
      i := i - 1;
      var group := list[i];
      assert list[i..][1..] == list[i + 1..];
      if IsPrimary(group.display, applicationDomain, internalDomain) {
        m := MapSet(m, group.display, group.value);
      }
    }
    return Some(m);
  }

  /**
   * A display name is a key exactly when a primary group carries it, and its value is that of the
   * leftmost group with that display name: visiting right to left, the leftmost one is set last.
   */
  lemma {:induction false} GroupsMapLookup(groups: seq<GroupMember>, applicationDomain: string, internalDomain: string, k: string)
    ensures Lookup(GroupsMap(groups, applicationDomain, internalDomain), k).Some?
        <==> k in Displays(groups) && IsPrimary(k, applicationDomain, internalDomain)
    ensures k in Displays(groups) && IsPrimary(k, applicationDomain, internalDomain) ==>
      Lookup(GroupsMap(groups, applicationDomain, internalDomain), k) == Some(groups[FirstIndex(Displays(groups), k)].value)
  {
    if groups != [] {
      var rest := groups[1..];
      GroupsMapLookup(rest, applicationDomain, internalDomain, k);
      assert Displays(groups) == [groups[0].display] + Displays(rest);
      if k in Displays(groups) && k != groups[0].display {
        assert k in Displays(rest);
        assert FirstIndex(Displays(groups), k) == FirstIndex(Displays(rest), k) + 1;
      }
    }
  }

  /** The map never holds a key twice. */
  lemma {:induction false} GroupsMapKeysDistinct(groups: seq<GroupMember>, applicationDomain: string, internalDomain: string)
    ensures NoDup(MapKeys(GroupsMap(groups, applicationDomain, internalDomain)))
  {
    if groups != [] {
      var m := GroupsMap(groups[1..], applicationDomain, internalDomain);
      GroupsMapKeysDistinct(groups[1..], applicationDomain, internalDomain);
      if IsPrimary(groups[0].display, applicationDomain, internalDomain) && groups[0].display !in MapKeys(m) {
        AppendKeepsNoDup(MapKeys(m), groups[0].display);
      }
    }
  }

  // ---- the selection list ----

  predicate HasKey(primaryGroupsList: Option<seq<Entry>>, k: string)
  {
    primaryGroupsList.Some? && k in MapKeys(primaryGroupsList.value)
  }

  /** The groups whose display name is a key of the map, in list order. */
  function AssignedOf(groups: seq<Group>, primaryGroupsList: Option<seq<Entry>>): (r: seq<Group>)
    ensures forall i :: 0 <= i < |r| ==> r[i] in groups && HasKey(primaryGroupsList, r[i].displayName)
    ensures forall i :: 0 <= i < |groups| && HasKey(primaryGroupsList, groups[i].displayName) ==> groups[i] in r
  {
    if groups == [] then []
    else (if HasKey(primaryGroupsList, groups[0].displayName) then [groups[0]] else []) + AssignedOf(groups[1..], primaryGroupsList)
  }

  /** The loop of `setInitialLists`: visiting right to left, the assigned groups come out reversed. */
  method InitialSelection(groupListCopy: seq<Group>, primaryGroupsList: Option<seq<Entry>>) returns (addedGroups: seq<Group>)
    ensures addedGroups == Reverse(AssignedOf(groupListCopy, primaryGroupsList))
  {
    addedGroups := [];
    var i := |groupListCopy|;
    while i > 0
      invariant 0 <= i <= |groupListCopy|
      invariant addedGroups == Reverse(AssignedOf(groupListCopy[i..], primaryGroupsList))
    {
      i := i - 1;
      var group := groupListCopy[i];
      assert groupListCopy[i..][1..] == groupListCopy[i + 1..];
      var head := if HasKey(primaryGroupsList, group.displayName) then [group] else [];
      ReverseAppend(head, AssignedOf(groupListCopy[i + 1..], primaryGroupsList));
      if HasKey(primaryGroupsList, group.displayName) {
        addedGroups := addedGroups + [group];
      }
    }
  }

  /** The name shown for a group in the search: the "CONSUMER_USERSTORE/" prefix is stripped. */
  function ShownName(displayName: string, consumerUserstore: string): string
  {
    var prefix := consumerUserstore + "/";
    if Includes(displayName, prefix) then Split(displayName, prefix)[1] else displayName
  }

  predicate SearchMatches(group: Group, value: string, consumerUserstore: string)
  {
    IncludesIgnoringCase(ShownName(group.displayName, consumerUserstore), value)
  }

  /** The groups whose shown name contains the value, ignoring case, in list order. */
  function MatchingGroups(groups: seq<Group>, value: string, consumerUserstore: string): (r: seq<Group>)
    ensures forall i :: 0 <= i < |r| ==> r[i] in groups && SearchMatches(r[i], value, consumerUserstore)
    ensures forall i :: 0 <= i < |groups| && SearchMatches(groups[i], value, consumerUserstore) ==> groups[i] in r
  {
    if groups == [] then []
    else
      var last := groups[|groups| - 1];
      var r := MatchingGroups(groups[..|groups| - 1], value, consumerUserstore);
      assert groups == groups[..|groups| - 1] + [last];
      if SearchMatches(last, value, consumerUserstore) then r + [last] else r
  }

  /** The loop of `handleUnselectedListSearch`. */
  method FilterUnselected(initialGroupList: seq<Group>, value: string, consumerUserstore: string) returns (filtered: seq<Group>)
    ensures filtered == MatchingGroups(initialGroupList, value, consumerUserstore)
  {
    filtered := [];
    for i := 0 to |initialGroupList|
      invariant filtered == MatchingGroups(initialGroupList[..i], value, consumerUserstore)
    {
      assert initialGroupList[..i + 1][..i] == initialGroupList[..i];
      var group := initialGroupList[i];
      if SearchMatches(group, value, consumerUserstore) {
        filtered := filtered + [group];
      }
    }
    assert initialGroupList[..|initialGroupList|] == initialGroupList;
  }

  /** `resolveListItem`: the text after the first '/', or the whole name when there is none. */
  function ResolveListItem(displayName: string): string
  {
    var userGroup := Split(displayName, "/");
    if |userGroup| != 1 then userGroup[1] else displayName
  }

  lemma ResolveListItemOfQualified(domain: string, name: string)
    requires '/' !in domain && '/' !in name
    ensures ResolveListItem(domain + "/" + name) == name
  {
    assert domain + "/" + name == domain + ['/'] + name;
    SplitAfterFirst(domain, '/', name);
    SplitNoChar(name, '/');
  }

  lemma ResolveListItemOfPlain(displayName: string)
    requires '/' !in displayName
    ensures ResolveListItem(displayName) == displayName
  {
    SplitNoChar(displayName, '/');
  }

  // ---- the bulk request ----

  const BulkRequestSchema := "urn:ietf:params:scim:api:messages:2.0:BulkRequest"

  datatype Member = Member(display: string, value: string)

  /** The inner PATCH operation: `{op: "remove", path}` or `{op: "add", value: {members}}`. */
  datatype PatchOp = Remove(path: string) | Add(members: seq<Member>)

  /** One operation of the bulk request: its HTTP method, its resource path and its PATCH body. */
  datatype BulkOperation = BulkOperation(httpMethod: string, path: string, operations: seq<PatchOp>)

  datatype BulkRequest = BulkRequest(operations: seq<BulkOperation>, schemas: seq<string>)

  function RemoveOperation(userName: string, id: string): BulkOperation
  {
    BulkOperation("PATCH", "/Groups/" + id, [Remove("members[display eq " + userName + "]")])
  }

  function AddOperation(user: User, id: string): BulkOperation
  {
    BulkOperation("PATCH", "/Groups/" + id, [Add([Member(user.userName, user.id)])])
  }

  function Ids(groups: seq<Group>): seq<string>
  {
    seq(|groups|, i requires 0 <= i < |groups| => groups[i].id)
  }

  /** The map's values with one copy of each selected id taken out, one id after the other. */
  function RemainingIds(values: seq<string>, groupIds: seq<string>): seq<string>
  {
    if groupIds == [] then values
    else RemoveFirst(RemainingIds(values, groupIds[..|groupIds| - 1]), groupIds[|groupIds| - 1])
  }

  /** Taking out the first copy, when there is one, takes one copy out of the multiset. */
  lemma RemoveFirstMultiset(r: seq<string>, x: string)
    ensures multiset(RemoveFirst(r, x)) == multiset(r) - multiset{x}
  {
    if x !in r {
      assert multiset(r)[x] == 0;
      assert multiset(r) - multiset{x} == multiset(r);
    }
  }

  /** The ids to remove are the user's group ids minus the selected ones, counted with multiplicity. */
  lemma {:induction false} RemainingIdsMultiset(values: seq<string>, groupIds: seq<string>)
    ensures multiset(RemainingIds(values, groupIds)) == multiset(values) - multiset(groupIds)
  {
    if groupIds != [] {
      var p := groupIds[..|groupIds| - 1];
      var x := groupIds[|groupIds| - 1];
      var r := RemainingIds(values, p);
      calc {
        multiset(RemainingIds(values, groupIds));
        multiset(RemoveFirst(r, x));
        { RemoveFirstMultiset(r, x); }
        multiset(r) - multiset{x};
        { RemainingIdsMultiset(values, p); }
        (multiset(values) - multiset(p)) - multiset{x};
        { SubtractOneMore(multiset(values), multiset(p), x); }
        multiset(values) - (multiset(p) + multiset{x});
        { assert groupIds == p + [x]; }
        multiset(values) - multiset(groupIds);
      }
    }
  }

  lemma SubtractOneMore(mv: multiset<string>, mp: multiset<string>, x: string)
    ensures (mv - mp) - multiset{x} == mv - (mp + multiset{x})
  {
    forall y ensures ((mv - mp) - multiset{x})[y] == (mv - (mp + multiset{x}))[y] {
    }
  }

  /**
   * With distinct ids among the user's groups, a selected group is never removed and every group
   * of the user that is not selected is.
   */
  lemma RemainingIdsMembership(values: seq<string>, groupIds: seq<string>)
    requires NoDup(values)
    ensures forall id :: id in groupIds ==> id !in RemainingIds(values, groupIds)
    ensures forall id :: id in values && id !in groupIds ==> id in RemainingIds(values, groupIds)
  {
    var rest := RemainingIds(values, groupIds);
    RemainingIdsMultiset(values, groupIds);
    assert multiset(rest) == multiset(values) - multiset(groupIds);
    forall id | id in groupIds ensures id !in rest {
      NoDupCount(values, id);
      assert multiset(groupIds)[id] >= 1;
      assert multiset(rest)[id] == 0;
    }
    forall id | id in values && id !in groupIds ensures id in rest {
      assert multiset(groupIds)[id] == 0;
      assert multiset(values)[id] >= 1;
      assert multiset(rest)[id] >= 1;
    }
  }

  lemma {:induction false} NoDupCount(s: seq<string>, x: string)
    requires NoDup(s)
    ensures multiset(s)[x] <= 1
  {
    if s != [] {
      assert s == [s[0]] + s[1..];
      NoDupCount(s[1..], x);
      if s[0] == x {
        assert x !in s[1..];
      }
    }
  }

  /** The `value` of every entry of the map, or none when there is no map. */
  function ValuesOf(primaryGroupsList: Option<seq<Entry>>): seq<string>
  {
    if primaryGroupsList.Some? then MapValues(primaryGroupsList.value) else []
  }

  /** The loop collecting the selected groups' ids. */
  method CollectIds(groups: seq<Group>) returns (groupIds: seq<string>)
    ensures groupIds == Ids(groups)
  {
    groupIds := [];
    for i := 0 to |groups|
      invariant groupIds == Ids(groups[..i])
    {
      groupIds := groupIds + [groups[i].id];
    }
    assert groups[..|groups|] == groups;
  }

  /** The loop dropping each selected id from the map's values. */
  method DropSelected(values: seq<string>, groupIds: seq<string>) returns (removedIds: seq<string>)
    ensures removedIds == RemainingIds(values, groupIds)
  {
    removedIds := values;
    for i := 0 to |groupIds|
      invariant removedIds == RemainingIds(values, groupIds[..i])
    {
      assert groupIds[..i + 1][..i] == groupIds[..i];
      if groupIds[i] in removedIds {
        removedIds := RemoveFirst(removedIds, groupIds[i]);
      }
    }
    assert groupIds[..|groupIds|] == groupIds;
  }

  /** The operations taking the user out of each group in `ids`. */
  function RemoveOperations(userName: string, ids: seq<string>): (ops: seq<BulkOperation>)
    ensures |ops| == |ids|
  {
    seq(|ids|, i requires 0 <= i < |ids| => RemoveOperation(userName, ids[i]))
  }

  /** The operations adding the user to each group in `ids`. */
  function AddOperations(user: User, ids: seq<string>): (ops: seq<BulkOperation>)
    ensures |ops| == |ids|
  {
    seq(|ids|, i requires 0 <= i < |ids| => AddOperation(user, ids[i]))
  }

  /** The loop pushing one remove operation per id. */
  method PushRemoves(userName: string, ids: seq<string>) returns (ops: seq<BulkOperation>)
    ensures ops == RemoveOperations(userName, ids)
  {
    ops := [];
    for i := 0 to |ids|
      invariant ops == RemoveOperations(userName, ids[..i])
    {
      ops := ops + [RemoveOperation(userName, ids[i])];
    }
    assert ids[..|ids|] == ids;
  }

  /** The loop pushing one add operation per id after `ops`. */
  method PushAdds(ops: seq<BulkOperation>, user: User, ids: seq<string>) returns (r: seq<BulkOperation>)
    ensures r == ops + AddOperations(user, ids)
  {
    r := ops;
    for i := 0 to |ids|
      invariant r == ops + AddOperations(user, ids[..i])
    {
      r := r + [AddOperation(user, ids[i])];
    }
    assert ids[..|ids|] == ids;
  }

  /**
   * `updateUserGroup`'s request: the SCIM bulk schema, then one remove per remaining id and after
   * them one add per selected group, each a PATCH on "/Groups/<id>".
   */
  method UpdateUserGroup(user: User, groups: seq<Group>, primaryGroupsList: Option<seq<Entry>>) returns (bulk: BulkRequest)
    ensures bulk.schemas == [BulkRequestSchema]
    ensures var removed := RemainingIds(ValuesOf(primaryGroupsList), Ids(groups));
      && |bulk.operations| == |removed| + |groups|
      && (forall i :: 0 <= i < |removed| ==> bulk.operations[i] == RemoveOperation(user.userName, removed[i]))
      && (forall j :: 0 <= j < |groups| ==> bulk.operations[|removed| + j] == AddOperation(user, groups[j].id))
  {
    var groupIds := CollectIds(groups);
    var removedIds := DropSelected(ValuesOf(primaryGroupsList), groupIds);
    var operations := PushRemoves(user.userName, removedIds);
    operations := PushAdds(operations, user, groupIds);
    bulk := BulkRequest(operations, [BulkRequestSchema]);
  }

  // ---- the component ----

  class ConsumerUserGroupsList {
    const applicationDomain: string
    const internalDomain: string
    const consumerUserstore: string
    var groupList: seq<Group>
    var selectedGroupsList: seq<Group>
    var initialGroupList: seq<Group>
    var primaryGroups: Option<seq<Group>>
    var primaryGroupsList: Option<seq<Entry>>
    var isSelectAllGroupsChecked: bool
    var assignedGroups: Option<seq<GroupMember>>
    var showAddNewRoleModal: bool

    constructor(applicationDomain: string, internalDomain: string, consumerUserstore: string)
      ensures this.applicationDomain == applicationDomain && this.internalDomain == internalDomain
      ensures this.consumerUserstore == consumerUserstore
      ensures groupList == [] && selectedGroupsList == [] && initialGroupList == []
      ensures primaryGroups.None? && primaryGroupsList.None? && assignedGroups == Some([])
      ensures !isSelectAllGroupsChecked && !showAddNewRoleModal
    {
      this.applicationDomain := applicationDomain;
      this.internalDomain := internalDomain;
      this.consumerUserstore := consumerUserstore;
      groupList := [];
      selectedGroupsList := [];
      initialGroupList := [];
      primaryGroups := None;
      primaryGroupsList := None;
      isSelectAllGroupsChecked := false;
      assignedGroups := Some([]);
      showAddNewRoleModal := false;
    }

    /**
     * The effects on a new `user`: the group map is rebuilt and the assigned table shows the user's groups.
     * The effect on `user.groups && primaryGroups` also re-runs `setInitialLists` when a user without
     * groups comes back with some; that is not part of this step. Those lists only render in the
     * modal, and opening the modal runs `setInitialLists` first (`HandleOpenAddNewGroupModal`).
     */
    method OnUser(user: Option<User>)
      modifies this
      ensures user.Some? ==>
        && primaryGroupsList == (if user.value.groups.Some? then Some(GroupsMap(user.value.groups.value, applicationDomain, internalDomain)) else None)
        && assignedGroups == user.value.groups
      ensures user.None? ==> primaryGroupsList == old(primaryGroupsList) && assignedGroups == old(assignedGroups)
      ensures groupList == old(groupList) && selectedGroupsList == old(selectedGroupsList)
      ensures initialGroupList == old(initialGroupList) && primaryGroups == old(primaryGroups)
      ensures isSelectAllGroupsChecked == old(isSelectAllGroupsChecked) && showAddNewRoleModal == old(showAddNewRoleModal)
    {
      if user.None? {
        return;
      }
      primaryGroupsList := MapUserGroups(user.value.groups, applicationDomain, internalDomain);
      assignedGroups := user.value.groups;
    }

    /**
     * `setInitialLists`: the selection is the listed primary groups that the user is in, in reverse
     * list order; the visible and the initial list become the primary groups.
     */
    method SetInitialLists()
      modifies this
      ensures var copy := if old(primaryGroups).Some? then old(primaryGroups).value else [];
        && selectedGroupsList == Reverse(AssignedOf(copy, primaryGroupsList))
        && groupList == copy && initialGroupList == copy
        && isSelectAllGroupsChecked == (|copy| == |selectedGroupsList|)
      ensures primaryGroups == old(primaryGroups) && primaryGroupsList == old(primaryGroupsList)
      ensures assignedGroups == old(assignedGroups) && showAddNewRoleModal == old(showAddNewRoleModal)
    {
      var groupListCopy := if primaryGroups.Some? then primaryGroups.value else [];
      var addedGroups := InitialSelection(groupListCopy, primaryGroupsList);
      selectedGroupsList := addedGroups;
      groupList := groupListCopy;
      initialGroupList := groupListCopy;
      isSelectAllGroupsChecked := |groupListCopy| == |addedGroups|;
    }

    /** The primary group list request; the initial lists are then set when the user has groups. */
    method ReceivePrimaryGroups(resources: Option<seq<Group>>, userHasGroups: bool)
      modifies this
      ensures primaryGroups == resources
      ensures userHasGroups ==>
        var copy := if resources.Some? then resources.value else [];
        && selectedGroupsList == Reverse(AssignedOf(copy, primaryGroupsList))
        && groupList == copy && initialGroupList == copy
        && isSelectAllGroupsChecked == (|copy| == |selectedGroupsList|)
      ensures !userHasGroups ==>
        && selectedGroupsList == old(selectedGroupsList) && groupList == old(groupList)
        && initialGroupList == old(initialGroupList) && isSelectAllGroupsChecked == old(isSelectAllGroupsChecked)
      ensures primaryGroupsList == old(primaryGroupsList)
      ensures assignedGroups == old(assignedGroups) && showAddNewRoleModal == old(showAddNewRoleModal)
    {
      primaryGroups := resources;
      if userHasGroups {
        SetInitialLists();
      }
    }

    /**
     * `handleUnassignedItemCheckboxChange`: a selected group loses its first copy, another is
     * appended; the select-all flag is whether the selection is as long as the visible list.
     */
    method HandleUnassignedItemCheckboxChange(group: Group)
      modifies this
      ensures selectedGroupsList == if group in old(selectedGroupsList) then RemoveFirst(old(selectedGroupsList), group)
        else old(selectedGroupsList) + [group]
      ensures isSelectAllGroupsChecked == (|selectedGroupsList| == |groupList|)
      ensures groupList == old(groupList) && initialGroupList == old(initialGroupList)
      ensures primaryGroups == old(primaryGroups) && primaryGroupsList == old(primaryGroupsList)
      ensures assignedGroups == old(assignedGroups) && showAddNewRoleModal == old(showAddNewRoleModal)
    {
      var checkedGroups := selectedGroupsList;
      if group in checkedGroups {
        checkedGroups := RemoveFirst(checkedGroups, group);
      } else {
        checkedGroups := checkedGroups + [group];
      }
      selectedGroupsList := checkedGroups;
      isSelectAllGroupsChecked := |checkedGroups| == |groupList|;
    }

    method HandleOpenAddNewGroupModal()
      modifies this
      ensures var copy := if old(primaryGroups).Some? then old(primaryGroups).value else [];
        && selectedGroupsList == Reverse(AssignedOf(copy, primaryGroupsList))
        && groupList == copy && initialGroupList == copy
        && isSelectAllGroupsChecked == (|copy| == |selectedGroupsList|)
      ensures showAddNewRoleModal
      ensures primaryGroups == old(primaryGroups) && primaryGroupsList == old(primaryGroupsList)
      ensures assignedGroups == old(assignedGroups)
    {
      SetInitialLists();
      showAddNewRoleModal := true;
    }

    method HandleCloseAddNewGroupModal()
      modifies this
      ensures !isSelectAllGroupsChecked && !showAddNewRoleModal
      ensures groupList == old(groupList) && selectedGroupsList == old(selectedGroupsList)
      ensures initialGroupList == old(initialGroupList)
      ensures primaryGroups == old(primaryGroups) && primaryGroupsList == old(primaryGroupsList)
      ensures assignedGroups == old(assignedGroups)
    {
      isSelectAllGroupsChecked := false;
      showAddNewRoleModal := false;
    }

    /** `handleUnselectedListSearch`: an empty value restores the initial list. */
    method HandleUnselectedListSearch(value: string)
      modifies this
      ensures groupList == if |value| == 0 then initialGroupList else MatchingGroups(initialGroupList, value, consumerUserstore)
      ensures selectedGroupsList == old(selectedGroupsList) && initialGroupList == old(initialGroupList)
      ensures primaryGroups == old(primaryGroups) && primaryGroupsList == old(primaryGroupsList)
      ensures assignedGroups == old(assignedGroups) && showAddNewRoleModal == old(showAddNewRoleModal)
      ensures isSelectAllGroupsChecked == old(isSelectAllGroupsChecked)
    {
      if |value| != 0 {
        groupList := FilterUnselected(initialGroupList, value, consumerUserstore);
      } else {
        groupList := initialGroupList;
      }
    }

    /**
     * The outcome of the bulk request. On success the modal is closed as by
     * `handleCloseAddNewGroupModal` and the parent is asked to reload the user (`refreshUser`); a
     * failure, a 404 included, only raises an alert and changes nothing.
     */
    method ReceiveSaveOutcome(response: Fetch<()>) returns (refreshUser: bool)
      modifies this
      ensures refreshUser <==> response.Loaded?
      ensures response.Loaded? ==> !isSelectAllGroupsChecked && !showAddNewRoleModal
      ensures response.Failed? ==>
        isSelectAllGroupsChecked == old(isSelectAllGroupsChecked) && showAddNewRoleModal == old(showAddNewRoleModal)
      ensures groupList == old(groupList) && selectedGroupsList == old(selectedGroupsList)
      ensures initialGroupList == old(initialGroupList)
      ensures primaryGroups == old(primaryGroups) && primaryGroupsList == old(primaryGroupsList)
      ensures assignedGroups == old(assignedGroups)
    {
      refreshUser := false;
      if response.Loaded? {
        HandleCloseAddNewGroupModal();
        refreshUser := true;
      }
    }

    /** The save button: the bulk request for the current selection. */
    method Save(user: User) returns (bulk: BulkRequest)
      ensures bulk.schemas == [BulkRequestSchema]
      ensures var removed := RemainingIds(ValuesOf(primaryGroupsList), Ids(selectedGroupsList));
        && |bulk.operations| == |removed| + |selectedGroupsList|
        && (forall i :: 0 <= i < |removed| ==> bulk.operations[i] == RemoveOperation(user.userName, removed[i]))
        && (forall j :: 0 <= j < |selectedGroupsList| ==> bulk.operations[|removed| + j] == AddOperation(user, selectedGroupsList[j].id))
    {
      bulk := UpdateUserGroup(user, selectedGroupsList, primaryGroupsList);
    }
  }
}
