/** The constants of the API resources pages and the alert their error codes select. */
module ApiResourcesConstants {
  import opened Wrappers

  const AfterRel := "after"
  const BeforeRel := "before"
  const DefaultTotalPages := 10
  const ApiResourceDir := "api-resources"
  const UnauthorizedAccess := "FLU-600000"
  const ApiResourceNotFound := "FLU-600022"
  const NoValidApiResourceIdFound := "FLU-600027"

  /** The path of the API resources list under the developer view's base path. */
  function ApiResourcesPath(developerViewBasePath: string): string
  {
    developerViewBasePath + "/" + ApiResourceDir
  }

  /** The alert an error's code selects. */
  datatype ErrorAlert = UnauthorizedAlert | NotFoundAlert | GenericAlert

  /**
   * The three-way switch on the code of a failed request for one resource: unauthorized access,
   * a resource that is not found or has no valid id, and everything else (also a missing code).
   */
  function ResourceErrorAlert(code: Option<string>): (a: ErrorAlert)
    ensures a == UnauthorizedAlert <==> code == Some(UnauthorizedAccess)
    ensures a == NotFoundAlert <==> code == Some(NoValidApiResourceIdFound) || code == Some(ApiResourceNotFound)
    ensures a == GenericAlert <==> code !in {Some(UnauthorizedAccess), Some(NoValidApiResourceIdFound), Some(ApiResourceNotFound)}
  {
    match code
    case Some(c) =>
      if c == UnauthorizedAccess then UnauthorizedAlert
      else if c == NoValidApiResourceIdFound || c == ApiResourceNotFound then NotFoundAlert
      else GenericAlert
    case None => GenericAlert
  }
}
