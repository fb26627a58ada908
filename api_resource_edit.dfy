/** The page of one API resource: its id comes from the path, and a failed fetch raises an alert. */
module ApiResourceEdit {
  import opened Wrappers
  import opened Strings
  import opened ApiResourcesConstants

  /** `setAPIResourceIdFromPath`: the last '/'-segment of the path. */
  function ResourceIdFromPath(pathname: string): string
  {
    Last(Split(pathname, "/"))
  }

  lemma ResourceIdOfPath(prefix: string, id: string)
    requires '/' !in id
    ensures ResourceIdFromPath(prefix + "/" + id) == id
  {
    assert prefix + "/" + id == prefix + ['/'] + id;
    SplitLastSegment(prefix, '/', id);
  }

  /** The error placeholder replaces the tabs when loading ended without data, or on an error. */
  function ShowErrorPlaceholder(isLoading: bool, hasData: bool, hasError: bool): (b: bool)
    ensures b <==> hasError || (!isLoading && !hasData)
  {
    (!isLoading && !hasData) || hasError
  }

  class ApiResourceEditPage {
    /** `None` stands for the initial `null`, before the mount effect. */
    var apiResourceId: Option<string>

    constructor()
      ensures apiResourceId.None?
    {
      apiResourceId := None;
    }

    method OnMount(pathname: string)
      modifies this
      ensures apiResourceId == Some(ResourceIdFromPath(pathname))
    {
      apiResourceId := Some(ResourceIdFromPath(pathname));
    }

    /** The effect on the fetch error: `None` when there is no error; otherwise its code selects the alert. */
    method ReceiveFetchError(error: Option<Option<string>>) returns (alert: Option<ErrorAlert>)
      ensures error.None? ==> alert.None?
      ensures error.Some? ==> alert == Some(ResourceErrorAlert(error.value))
    {
      if error.Some? {
        alert := Some(ResourceErrorAlert(error.value));
      } else {
        alert := None;
      }
    }
  }
}
