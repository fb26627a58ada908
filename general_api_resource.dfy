/**
 * The general tab of an API resource: its danger zone, gated by the caller's scopes, and the
 * delete flow behind a confirmation modal.
 */
module GeneralApiResource {
  import opened Wrappers
  import opened ApiResourcesConstants
  import opened ApiResources

  /** What `resolveDangerActions` renders. */
  datatype DangerActions = NoDangerZone | EmptyDangerGroup | DeleteZone

  /**
   * Without the update scope of API resources there is no danger zone; with it, the delete zone
   * appears only when the users' delete scope is also held.
   */
  function ResolveDangerActions(canUpdateApiResources: bool, canDeleteUsers: bool): (d: DangerActions)
    ensures d == NoDangerZone <==> !canUpdateApiResources
    ensures d == DeleteZone <==> canUpdateApiResources && canDeleteUsers
    ensures d == EmptyDangerGroup <==> canUpdateApiResources && !canDeleteUsers
  {
    if !canUpdateApiResources then NoDangerZone
    else if canDeleteUsers then DeleteZone
    else EmptyDangerGroup
  }

  /** The outcome of the delete request. */
  datatype DeleteOutcome = Deleted | DeleteFailed(code: Option<string>)

  class GeneralApiResourceTab {
    var deleteApiResourceLoading: bool
    var showDeleteConfirmationModal: bool
    var deletingApiResource: Option<ApiResource>

    constructor()
      ensures !deleteApiResourceLoading && !showDeleteConfirmationModal && deletingApiResource.None?
    {
      deleteApiResourceLoading := false;
      showDeleteConfirmationModal := false;
      deletingApiResource := None;
    }

    /** The delete zone's button marks the shown resource for deletion and opens the modal. */
    method OnDeleteActionClick(apiResourceData: ApiResource)
      modifies this
      ensures showDeleteConfirmationModal && deletingApiResource == Some(apiResourceData)
      ensures deleteApiResourceLoading == old(deleteApiResourceLoading)
    {
      showDeleteConfirmationModal := true;
      deletingApiResource := Some(apiResourceData);
    }

    /** The modal's cancel button and its close action. */
    method OnCloseConfirmationModal()
      modifies this
      ensures !showDeleteConfirmationModal
      ensures deletingApiResource == old(deletingApiResource) && deleteApiResourceLoading == old(deleteApiResourceLoading)
    {
      showDeleteConfirmationModal := false;
    }

    /** The modal's confirm button: the delete request for the marked resource starts. */
    method BeginDelete() returns (apiResourceId: string)
      requires deletingApiResource.Some?
      modifies this
      ensures apiResourceId == old(deletingApiResource).value.id
      ensures deleteApiResourceLoading
      ensures showDeleteConfirmationModal == old(showDeleteConfirmationModal) && deletingApiResource == old(deletingApiResource)
    {
      deleteApiResourceLoading := true;
      apiResourceId := deletingApiResource.value.id;
    }

    /**
     * The end of `handleAPIResourceDelete`. Success closes the modal and navigates to the
     * resources list; a failure raises the alert its code selects. On every outcome loading ends
     * and no resource stays marked, so the modal is gone.
     */
    method FinishDelete(outcome: DeleteOutcome, developerViewBasePath: string)
      returns (alert: Option<ErrorAlert>, navigateTo: Option<string>)
      modifies this
      ensures !deleteApiResourceLoading && deletingApiResource.None?
      ensures outcome.Deleted? ==>
        alert.None? && navigateTo == Some(ApiResourcesPath(developerViewBasePath)) && !showDeleteConfirmationModal
      ensures outcome.DeleteFailed? ==>
        && alert == Some(ResourceErrorAlert(outcome.code)) && navigateTo.None?
        && showDeleteConfirmationModal == old(showDeleteConfirmationModal)
      ensures !ConfirmationModalRendered(false)
    {
      alert, navigateTo := None, None;
      if outcome.Deleted? {
        showDeleteConfirmationModal := false;
        navigateTo := Some(ApiResourcesPath(developerViewBasePath));
      } else {
        alert := Some(ResourceErrorAlert(outcome.code));
      }
      deleteApiResourceLoading := false;
      deletingApiResource := None;
    }

    /** The confirmation modal exists only outside loading and while a resource is marked. */
    predicate ConfirmationModalRendered(isApiResourceDataLoading: bool)
      reads this
    {
      !isApiResourceDataLoading && deletingApiResource.Some?
    }
  }
}
