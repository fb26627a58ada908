/**
 * The API resources list: a cursor-paginated list whose next cursors are read from the response's
 * links and copied into the request cursors when the list is re-requested, on a page change or
 * after a delete.
 */
module ApiResources {
  import opened Wrappers
  import opened Strings
  import opened CoreModels
  import opened ApiResourcesConstants
  import ApplicationRoles

  datatype ApiResource = ApiResource(id: string, displayName: string, identifier: string)

  datatype ApiResourcesList = ApiResourcesList(apiResources: seq<ApiResource>, links: Option<seq<Link>>)

  /** What the list request hook holds: nothing yet, an exception object, or a page. */
  datatype ListData = NoData | ApiException | Page(list: ApiResourcesList)

  /** The cursors of the next and previous page; `None` stands for `undefined`. */
  datatype NextCursors = NextCursors(nextAfter: Option<string>, nextBefore: Option<string>)

  /**
   * The cursor the links leave for one relation: the last link with that relation sets it, and
   * without such a link the previous cursor stays.
   */
  function CursorAfterLinks(links: seq<Link>, rel: string, previous: Option<string>): Option<string>
  {
    var c := LastCursor(links, rel);
    if c.Some? then c.value else previous
  }

  /** The effect on a page: an empty links array clears both cursors, otherwise each relation updates its own. */
  function CursorsFromLinks(links: Option<seq<Link>>, previous: NextCursors): NextCursors
  {
    if links == Some([]) then NextCursors(None, None)
    else if links.None? then previous
    else NextCursors(
      CursorAfterLinks(links.value, AfterRel, previous.nextAfter),
      CursorAfterLinks(links.value, BeforeRel, previous.nextBefore))
  }

  /** The `forEach` over the links with its `switch` on the relation. */
  method ApplyLinks(links: Option<seq<Link>>, previous: NextCursors) returns (next: NextCursors)
    ensures next == CursorsFromLinks(links, previous)
  {
    if links.Some? && |links.value| == 0 {
      return NextCursors(None, None);
    }
    next := previous;
    if links.None? {
      return;
    }
    var ls := links.value;
    for i := 0 to |ls|
      invariant next.nextAfter == CursorAfterLinks(ls[..i], AfterRel, previous.nextAfter)
      invariant next.nextBefore == CursorAfterLinks(ls[..i], BeforeRel, previous.nextBefore)
    {
      assert ls[..i + 1][..i] == ls[..i];
      assert AfterRel + "=" == "after=" && BeforeRel + "=" == "before=";
      var link := ls[i];
      if link.rel == AfterRel {
        next := next.(nextAfter := CursorOf(link.href, "after="));
      } else if link.rel == BeforeRel {
        next := next.(nextBefore := CursorOf(link.href, "before="));
      }
    }
    assert ls[..|ls|] == ls;
  }

  /** A relation that no link carries keeps its previous cursor, unless the links are empty. */
  lemma MissingRelKeepsCursor(links: seq<Link>, rel: string, previous: Option<string>)
    requires forall i :: 0 <= i < |links| ==> links[i].rel != rel
    ensures CursorAfterLinks(links, rel, previous) == previous
  {
    LastCursorFound(links, rel);
  }

  /** The last link of a relation sets its cursor. */
  lemma LastRelSetsCursor(links: seq<Link>, rel: string, previous: Option<string>, i: nat)
    requires i < |links| && links[i].rel == rel
    requires forall j :: i < j < |links| ==> links[j].rel != rel
    ensures CursorAfterLinks(links, rel, previous) == CursorOf(links[i].href, rel + "=")
  {
    LastLinkWins(links, rel, i);
  }

  /**
   * The two list pages clear their cursors differently: for a non-empty page of links without an
   * "after" link, the roles tab sets its after cursor to "" and this page keeps its old one.
   */
  lemma ClearingRulesDiffer(links: seq<Link>, previous: NextCursors)
    requires |links| > 0
    requires forall i :: 0 <= i < |links| ==> links[i].rel != AfterRel
    ensures ApplicationRoles.CursorsFrom(links).after == Some("")
    ensures !ApplicationRoles.CursorsFrom(links).nextAvailable
    ensures CursorsFromLinks(Some(links), previous).nextAfter == previous.nextAfter
  {
    LastCursorFound(links, AfterRel);
  }

  /** Paging is offered by the truthiness of the cursors: `undefined` and "" disable a button. */
  predicate Truthy(cursor: Option<string>)
  {
    cursor.Some? && cursor.value != ""
  }

  /** The alert of a failed list request: only unauthorized access has its own. */
  function ListFetchAlert(code: Option<string>): (a: ErrorAlert)
    ensures a == UnauthorizedAlert <==> code == Some(UnauthorizedAccess)
    ensures a != NotFoundAlert
  {
    if code == Some(UnauthorizedAccess) then UnauthorizedAlert else GenericAlert
  }

  /** The list fetch reports not-found codes with the generic alert, unlike a single resource. */
  lemma ListFetchHasNoNotFound()
    ensures ListFetchAlert(Some(ApiResourceNotFound)) == GenericAlert
    ensures ResourceErrorAlert(Some(ApiResourceNotFound)) == NotFoundAlert
  {
  }

  class ApiResourcesPage {
    /** `None` stands for NaN. */
    var activePage: Option<int>
    var apiResourcesList: seq<ApiResource>
    var isListUpdated: bool
    var after: Option<string>
    var before: Option<string>
    var currentAfter: Option<string>
    var currentBefore: Option<string>
    var nextAfter: Option<string>
    var nextBefore: Option<string>

    constructor()
      ensures activePage == Some(0) && apiResourcesList == [] && !isListUpdated
      ensures after.None? && before.None? && currentAfter.None? && currentBefore.None?
      ensures nextAfter.None? && nextBefore.None?
    {
      activePage := Some(0);
      apiResourcesList := [];
      isListUpdated := false;
      after, before := None, None;
      currentAfter, currentBefore := None, None;
      nextAfter, nextBefore := None, None;
    }

    /**
     * The effect on the list data: an exception object only raises the generic alert, a page
     * replaces the list and updates the next cursors from its links.
     */
    method ReceiveListData(data: ListData) returns (alert: Option<ErrorAlert>)
      modifies this
      ensures alert == if data.ApiException? then Some(GenericAlert) else None
      ensures data.Page? ==>
        && apiResourcesList == data.list.apiResources
        && NextCursors(nextAfter, nextBefore) == CursorsFromLinks(data.list.links, NextCursors(old(nextAfter), old(nextBefore)))
      ensures !data.Page? ==>
        apiResourcesList == old(apiResourcesList) && nextAfter == old(nextAfter) && nextBefore == old(nextBefore)
      ensures activePage == old(activePage) && isListUpdated == old(isListUpdated)
      ensures after == old(after) && before == old(before)
      ensures currentAfter == old(currentAfter) && currentBefore == old(currentBefore)
    {
      alert := None;
      if data.ApiException? {
        alert := Some(GenericAlert);
        return;
      }
      if data.Page? {
        var next := ApplyLinks(data.list.links, NextCursors(nextAfter, nextBefore));
        nextAfter, nextBefore := next.nextAfter, next.nextBefore;
        apiResourcesList := data.list.apiResources;
      }
    }

    /**
     * `setMutateAPIResourcesList`: the request cursors take the arguments, the current cursors
     * take the next ones, and the list is marked for a refetch.
     */
    method SetMutateApiResourcesList(afterValue: Option<string>, beforeValue: Option<string>)
      modifies this
      ensures after == afterValue && before == beforeValue
      ensures currentAfter == old(nextAfter) && currentBefore == old(nextBefore)
      ensures isListUpdated
      ensures activePage == old(activePage) && apiResourcesList == old(apiResourcesList)
      ensures nextAfter == old(nextAfter) && nextBefore == old(nextBefore)
    {
      after := afterValue;
      before := beforeValue;
      currentAfter := nextAfter;
      currentBefore := nextBefore;
      isListUpdated := true;
    }

    /** The effect on `isListUpdated`: a raised flag calls `mutate` and is lowered. */
    method ListUpdatedEffect() returns (mutate: bool)
      modifies this
      ensures mutate == old(isListUpdated)
      ensures !isListUpdated
      ensures activePage == old(activePage) && apiResourcesList == old(apiResourcesList)
      ensures after == old(after) && before == old(before)
      ensures currentAfter == old(currentAfter) && currentBefore == old(currentBefore)
      ensures nextAfter == old(nextAfter) && nextBefore == old(nextBefore)
    {
      mutate := isListUpdated;
      if isListUpdated {
        isListUpdated := false;
      }
    }

    /** `onAPIResourceDelete`: deleting the last item of a page goes back to the first page. */
    method OnApiResourceDelete()
      modifies this
      ensures |old(apiResourcesList)| == 1 ==> after.None? && before.None?
      ensures |old(apiResourcesList)| != 1 ==> after == old(currentAfter) && before == old(currentBefore)
      ensures currentAfter == old(nextAfter) && currentBefore == old(nextBefore)
      ensures isListUpdated
      ensures activePage == old(activePage) && apiResourcesList == old(apiResourcesList)
      ensures nextAfter == old(nextAfter) && nextBefore == old(nextBefore)
    {
      if |apiResourcesList| == 1 {
        SetMutateApiResourcesList(None, None);
      } else {
        SetMutateApiResourcesList(currentAfter, currentBefore);
      }
    }

    /**
     * `handlePaginationChange`: forward asks for the page after `nextAfter`, back for the page
     * before `nextBefore`, the same page (or NaN) asks for nothing; the active page follows.
     */
    method HandlePaginationChange(page: string)
      modifies this
      ensures activePage == ParseInt(page)
      ensures var n := ParseInt(page); var a := old(activePage);
        if n.Some? && a.Some? && n.value > a.value then
          && after == old(nextAfter) && before.None? && isListUpdated
          && currentAfter == old(nextAfter) && currentBefore == old(nextBefore)
        else if n.Some? && a.Some? && n.value < a.value then
          && after.None? && before == old(nextBefore) && isListUpdated
          && currentAfter == old(nextAfter) && currentBefore == old(nextBefore)
        else
          && after == old(after) && before == old(before) && isListUpdated == old(isListUpdated)
          && currentAfter == old(currentAfter) && currentBefore == old(currentBefore)
      ensures apiResourcesList == old(apiResourcesList)
      ensures nextAfter == old(nextAfter) && nextBefore == old(nextBefore)
    {
      var newPage := ParseInt(page);
      if newPage.Some? && activePage.Some? && newPage.value > activePage.value {
        SetMutateApiResourcesList(nextAfter, None);
      } else if newPage.Some? && activePage.Some? && newPage.value < activePage.value {
        SetMutateApiResourcesList(None, nextBefore);
      }
      activePage := newPage;
    }

    /** The pagination options: a button is disabled iff its next cursor is falsy. */
    function DisableNextButton(): (b: bool)
      reads this
      ensures !b <==> nextAfter.Some? && nextAfter.value != ""
    {
      !Truthy(nextAfter)
    }

    function DisablePreviousButton(): (b: bool)
      reads this
      ensures !b <==> nextBefore.Some? && nextBefore.value != ""
    {
      !Truthy(nextBefore)
    }
  }
}
