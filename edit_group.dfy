/**
 * The group editor's frame: whether the group can be edited and whether its user store is
 * remote, whether application roles are offered, and the tabs it shows.
 */
module EditGroup {
  import opened Wrappers
  import opened Strings

  datatype Group = Group(displayName: string)

  /** The user store a group name belongs to: the text before the first '/'. */
  function UserstorePrefix(displayName: string): string
  {
    Split(displayName, "/")[0]
  }

  /** A qualified name's prefix is its user store. */
  lemma UserstorePrefixOfQualified(userstore: string, name: string)
    requires '/' !in userstore
    ensures UserstorePrefix(userstore + "/" + name) == userstore
  {
    assert userstore + "/" + name == userstore + ['/'] + name;
    SplitAfterFirst(userstore, '/', name);
  }

  /**
   * The condition that makes the group read-only: group updates are disabled, its user store is
   * one of the read-only ones, or the update scope is missing.
   */
  predicate ReadOnlyCondition(groupUpdateEnabled: bool, readOnlyUserStores: Option<seq<string>>, prefix: string, hasUpdateScope: bool)
  {
    !groupUpdateEnabled || (readOnlyUserStores.Some? && prefix in readOnlyUserStores.value) || !hasUpdateScope
  }

  /** The tabs of the editor. */
  datatype Pane = GeneralPane | UsersPane | RolesPane

  /** `resolveResourcePanes`: General then Users, and Roles only when application roles are enabled and available. */
  function ResolveResourcePanes(applicationRolesEnabled: bool, isApplicationRolesAvailable: bool): (panes: seq<Pane>)
    ensures |panes| >= 2 && panes[0] == GeneralPane && panes[1] == UsersPane
    ensures RolesPane in panes <==> applicationRolesEnabled && isApplicationRolesAvailable
    ensures |panes| == 3 <==> applicationRolesEnabled && isApplicationRolesAvailable
    ensures |panes| <= 3
  {
    [GeneralPane, UsersPane] + (if applicationRolesEnabled && isApplicationRolesAvailable then [RolesPane] else [])
  }

  class GroupEditor {
    /** The feature flag, the update scope and the application-roles flag, read from the configuration. */
    const groupUpdateEnabled: bool
    const hasGroupUpdateScope: bool
    const applicationRolesEnabled: bool
    const consumerUserstore: string
    var group: Option<Group>
    var isReadOnly: bool
    var isUserstoreRemote: bool
    var isReadOnlyLoading: bool
    var readOnlyUserStoresList: Option<seq<string>>
    var isApplicationRolesAvailable: bool
    var isResourcePanesLoading: bool

    constructor(groupUpdateEnabled: bool, hasGroupUpdateScope: bool, applicationRolesEnabled: bool, consumerUserstore: string)
      ensures this.groupUpdateEnabled == groupUpdateEnabled && this.hasGroupUpdateScope == hasGroupUpdateScope
      ensures this.applicationRolesEnabled == applicationRolesEnabled && this.consumerUserstore == consumerUserstore
      ensures group.None? && !isReadOnly && !isUserstoreRemote && isReadOnlyLoading
      ensures readOnlyUserStoresList.None? && !isApplicationRolesAvailable && isResourcePanesLoading
    {
      this.groupUpdateEnabled := groupUpdateEnabled;
      this.hasGroupUpdateScope := hasGroupUpdateScope;
      this.applicationRolesEnabled := applicationRolesEnabled;
      this.consumerUserstore := consumerUserstore;
      group := None;
      isReadOnly := false;
      isUserstoreRemote := false;
      isReadOnlyLoading := true;
      readOnlyUserStoresList := None;
      isApplicationRolesAvailable := false;
      isResourcePanesLoading := true;
    }

    /**
     * The effect on the group and the read-only user stores. Without a group nothing changes;
     * otherwise each flag is raised when its condition holds and is never lowered.
     */
    method ReadOnlyEffect()
      modifies this
      ensures group.None? ==> isReadOnly == old(isReadOnly) && isUserstoreRemote == old(isUserstoreRemote)
      ensures group.Some? ==>
        var prefix := UserstorePrefix(group.value.displayName);
        && isReadOnly == (old(isReadOnly) || ReadOnlyCondition(groupUpdateEnabled, readOnlyUserStoresList, prefix, hasGroupUpdateScope))
        && isUserstoreRemote == (old(isUserstoreRemote) || prefix != consumerUserstore)
      ensures group == old(group) && isReadOnlyLoading == old(isReadOnlyLoading)
      ensures readOnlyUserStoresList == old(readOnlyUserStoresList)
      ensures isApplicationRolesAvailable == old(isApplicationRolesAvailable) && isResourcePanesLoading == old(isResourcePanesLoading)
    {
      if group.None? {
        return;
      }
      var userStore := Split(group.value.displayName, "/");
      if ReadOnlyCondition(groupUpdateEnabled, readOnlyUserStoresList, userStore[0], hasGroupUpdateScope) {
        isReadOnly := true;
      }
      if userStore[0] != consumerUserstore {
        isUserstoreRemote := true;
      }
    }

    /** A new `group` prop, and the effect it triggers. */
    method ReceiveGroup(g: Option<Group>)
      modifies this
      ensures group == g
      ensures g.None? ==> isReadOnly == old(isReadOnly) && isUserstoreRemote == old(isUserstoreRemote)
      ensures g.Some? ==>
        var prefix := UserstorePrefix(g.value.displayName);
        && isReadOnly == (old(isReadOnly) || ReadOnlyCondition(groupUpdateEnabled, readOnlyUserStoresList, prefix, hasGroupUpdateScope))
        && isUserstoreRemote == (old(isUserstoreRemote) || prefix != consumerUserstore)
      ensures isReadOnlyLoading == old(isReadOnlyLoading) && readOnlyUserStoresList == old(readOnlyUserStoresList)
      ensures isApplicationRolesAvailable == old(isApplicationRolesAvailable) && isResourcePanesLoading == old(isResourcePanesLoading)
    {
      group := g;
      ReadOnlyEffect();
    }

    /**
     * The read-only user stores request: a response is stored and the effect runs again; a failure
     * only raises an alert. Loading ends either way.
     */
    method ReceiveReadOnlyUserStores(response: Option<seq<string>>)
      modifies this
      ensures !isReadOnlyLoading
      ensures readOnlyUserStoresList == if response.Some? then response else old(readOnlyUserStoresList)
      ensures response.Some? && group.Some? ==>
        var prefix := UserstorePrefix(group.value.displayName);
        && isReadOnly == (old(isReadOnly) || ReadOnlyCondition(groupUpdateEnabled, response, prefix, hasGroupUpdateScope))
        && isUserstoreRemote == (old(isUserstoreRemote) || prefix != consumerUserstore)
      ensures response.None? || group.None? ==> isReadOnly == old(isReadOnly) && isUserstoreRemote == old(isUserstoreRemote)
      ensures group == old(group)
      ensures isApplicationRolesAvailable == old(isApplicationRolesAvailable) && isResourcePanesLoading == old(isResourcePanesLoading)
    {
      if response.Some? {
        readOnlyUserStoresList := response;
        ReadOnlyEffect();
      }
      isReadOnlyLoading := false;
    }

    /** `checkApplicationRoles`: with the feature off the panes stop loading at once; otherwise a request starts. */
    method CheckApplicationRoles() returns (requestsRoles: bool)
      modifies this
      ensures requestsRoles == applicationRolesEnabled
      ensures !applicationRolesEnabled ==> !isResourcePanesLoading
      ensures applicationRolesEnabled ==> isResourcePanesLoading == old(isResourcePanesLoading)
      ensures group == old(group) && isReadOnly == old(isReadOnly) && isUserstoreRemote == old(isUserstoreRemote)
      ensures isReadOnlyLoading == old(isReadOnlyLoading) && readOnlyUserStoresList == old(readOnlyUserStoresList)
      ensures isApplicationRolesAvailable == old(isApplicationRolesAvailable)
    {
      requestsRoles := applicationRolesEnabled;
      if !applicationRolesEnabled {
        isResourcePanesLoading := false;
      }
    }

    /**
     * The application roles request's outcome: roles are available iff the list is non-empty, a
     * failure makes them unavailable, and the panes stop loading.
     */
    method ReceiveApplicationRoles(response: Option<seq<string>>)
      modifies this
      ensures isApplicationRolesAvailable <==> response.Some? && |response.value| > 0
      ensures !isResourcePanesLoading
      ensures group == old(group) && isReadOnly == old(isReadOnly) && isUserstoreRemote == old(isUserstoreRemote)
      ensures isReadOnlyLoading == old(isReadOnlyLoading) && readOnlyUserStoresList == old(readOnlyUserStoresList)
    {
      if response.Some? {
        if |response.value| > 0 {
          isApplicationRolesAvailable := true;
        } else {
          isApplicationRolesAvailable := false;
        }
      } else {
        isApplicationRolesAvailable := false;
      }
      isResourcePanesLoading := false;
    }

    function Panes(): seq<Pane>
      reads this
    {
      ResolveResourcePanes(applicationRolesEnabled, isApplicationRolesAvailable)
    }
  }
}
