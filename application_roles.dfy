/**
 * The roles tab of an application: a cursor-paginated list whose `after` and `before` cursors are
 * read from the response's links, a search filter and a page size; every change of page, filter
 * or size becomes one list request.
 */
module ApplicationRoles {
  import opened Wrappers
  import opened Strings
  import opened CoreModels
  import opened ApplicationRoleModels

  // ---- the link-cursor effect ----

  /** The pagination state the effect leaves: both cursors and whether each page is available. */
  datatype Cursors = Cursors(after: Option<string>, before: Option<string>, nextAvailable: bool, prevAvailable: bool)

  /** A relation that no link carries sets its cursor to "" and its flag to false. */
  function CursorsFrom(links: seq<Link>): Cursors
  {
    var a := LastCursor(links, "after");
    var b := LastCursor(links, "before");
    Cursors(
      if a.Some? then a.value else Some(""),
      if b.Some? then b.value else Some(""),
      a.Some?,
      b.Some?)
  }

  function LinksOf(response: Option<ApplicationRolesResponse>): seq<Link>
  {
    if response.Some? then response.value.links else []
  }

  /** The effect on `applicationRoleResponse`: one pass over the links, then the defaults. */
  method ResolveCursors(response: Option<ApplicationRolesResponse>) returns (c: Cursors)
    ensures c == CursorsFrom(LinksOf(response))
  {
    var links := LinksOf(response);
    var after: Option<string> := None;
    var before: Option<string> := None;
    var nextFound := false;
    var prevFound := false;
    for i := 0 to |links|
      invariant nextFound == LastCursor(links[..i], "after").Some?
      invariant nextFound ==> after == LastCursor(links[..i], "after").value
      invariant prevFound == LastCursor(links[..i], "before").Some?
      invariant prevFound ==> before == LastCursor(links[..i], "before").value
    {
      assert links[..i + 1][..i] == links[..i];
      assert "after" + "=" == "after=" && "before" + "=" == "before=";
      var link := links[i];
      if link.rel == "after" {
        after := CursorOf(link.href, "after=");
        nextFound := true;
      }
      if link.rel == "before" {
        before := CursorOf(link.href, "before=");
        prevFound := true;
      }
    }
    assert links[..|links|] == links;
    if !nextFound {
      after := Some("");
    }
    if !prevFound {
      before := Some("");
    }
    c := Cursors(after, before, nextFound, prevFound);
  }

  /** An empty page of links, as the generic fetch error leaves, clears both cursors. */
  lemma EmptyLinksClearCursors()
    ensures CursorsFrom([]) == Cursors(Some(""), Some(""), false, false)
  {
  }

  // ---- requests ----

  /** The arguments of one `getApplicationRoles` call; `None` stands for `null`. */
  datatype RolesRequest = RolesRequest(
    appId: string,
    before: Option<string>,
    after: Option<string>,
    filter: Option<string>,
    limit: Option<int>)

  /** The request of the effect on the search query and the page size: no cursors, an empty query as `null`. */
  function ListRequest(appId: string, searchQuery: string, limit: int): (r: RolesRequest)
    ensures r.before.None? && r.after.None? && r.limit == Some(limit)
    ensures r.filter.None? <==> searchQuery == ""
    ensures r.filter.Some? ==> r.filter.value == searchQuery
  {
    RolesRequest(appId, None, None, if searchQuery != "" then Some(searchQuery) else None, Some(limit))
  }

  /**
   * `handlePaginationChange`'s request: forward sends only the after cursor, back only the before
   * cursor, and the same page (or a page that parses to NaN) sends nothing.
   */
  function PageChangeRequest(
    appId: string, newPage: Option<int>, activePage: Option<int>,
    after: Option<string>, before: Option<string>, searchQuery: string, limit: int): (r: Option<RolesRequest>)
    ensures r.Some? <==> newPage.Some? && activePage.Some? && newPage.value != activePage.value
    ensures r.Some? ==> r.value.appId == appId && r.value.filter == Some(searchQuery) && r.value.limit == Some(limit)
    ensures r.Some? && newPage.value > activePage.value ==> r.value.before.None? && r.value.after == after
    ensures r.Some? && newPage.value < activePage.value ==> r.value.after.None? && r.value.before == before
  {
    if newPage.Some? && activePage.Some? && newPage.value > activePage.value then
      Some(RolesRequest(appId, None, after, Some(searchQuery), Some(limit)))
    else if newPage.Some? && activePage.Some? && newPage.value < activePage.value then
      Some(RolesRequest(appId, before, None, Some(searchQuery), Some(limit)))
    else None
  }

  /** A page-change request never carries both cursors. */
  lemma PageChangeUsesOneCursor(
    appId: string, newPage: Option<int>, activePage: Option<int>,
    after: Option<string>, before: Option<string>, searchQuery: string, limit: int)
    ensures var r := PageChangeRequest(appId, newPage, activePage, after, before, searchQuery, limit);
      r.Some? ==> r.value.before.None? || r.value.after.None?
  {
  }

  // ---- the application id ----

  /** The last '/'-segment of the path, cut at its first '#'. */
  function AppIdFromPath(pathname: string): string
  {
    Split(Last(Split(pathname, "/")), "#")[0]
  }

  lemma AppIdOfPath(prefix: string, id: string)
    requires '/' !in id && '#' !in id
    ensures AppIdFromPath(prefix + "/" + id) == id
  {
    assert prefix + "/" + id == prefix + ['/'] + id;
    SplitLastSegment(prefix, '/', id);
    SplitNoChar(id, '#');
  }

  lemma AppIdOfPathWithFragment(prefix: string, id: string, fragment: string)
    requires '/' !in id && '/' !in fragment && '#' !in id
    ensures AppIdFromPath(prefix + "/" + id + "#" + fragment) == id
  {
    var last := id + ['#'] + fragment;
    assert prefix + "/" + id + "#" + fragment == prefix + ['/'] + last;
    SplitLastSegment(prefix, '/', last);
    SplitAfterFirst(id, '#', fragment);
  }

  // ---- placeholders ----

  datatype Placeholder = EmptySearchResults | EmptyList | NoPlaceholder

  /** `showPlaceholders`. */
  function ShowPlaceholders(searchQuery: string, roleList: seq<RoleListItem>): (p: Placeholder)
    ensures p == EmptySearchResults <==> searchQuery != "" && |roleList| == 0
    ensures p == EmptyList <==> searchQuery == "" && |roleList| == 0
    ensures p == NoPlaceholder <==> |roleList| > 0
  {
    if searchQuery != "" && |roleList| == 0 then EmptySearchResults
    else if |roleList| == 0 then EmptyList
    else NoPlaceholder
  }

  // ---- the component ----

  class RolesTab {
    const appId: string
    var isLoading: bool
    var roleList: seq<RoleListItem>
    var applicationRoleResponse: Option<ApplicationRolesResponse>
    var searchQuery: string
    var listItemLimit: int
    var after: Option<string>
    var before: Option<string>
    var isNextPageAvailable: bool
    var isPrevPageAvailable: bool
    /** `None` stands for NaN, what `parseInt` gives for a page that is not a number. */
    var activePage: Option<int>

    /** The state once the mount effects have run on the empty response. */
    constructor(pathname: string, defaultLimit: int)
      ensures appId == AppIdFromPath(pathname)
      ensures isLoading && roleList == [] && applicationRoleResponse.None?
      ensures searchQuery == "" && listItemLimit == defaultLimit && activePage == Some(1)
      ensures after == Some("") && before == Some("") && !isNextPageAvailable && !isPrevPageAvailable
    {
      appId := AppIdFromPath(pathname);
      isLoading := true;
      roleList := [];
      applicationRoleResponse := None;
      searchQuery := "";
      listItemLimit := defaultLimit;
      activePage := Some(1);
      after := Some("");
      before := Some("");
      isNextPageAvailable := false;
      isPrevPageAvailable := false;
    }

    /** The request the mount effect sends. */
    function InitialRequest(): RolesRequest
      reads this
    {
      ListRequest(appId, searchQuery, listItemLimit)
    }

    /**
     * The outcome of a list request. A response replaces the list; an error with a description
     * keeps everything; any other error replaces the response by an empty page. The cursor effect
     * runs on each new response, and loading ends on every outcome.
     */
    method ReceiveRoles(result: Fetch<ApplicationRolesResponse>)
      modifies this
      ensures !isLoading
      ensures result.Loaded? ==>
        && applicationRoleResponse == Some(result.value) && roleList == result.value.roles
        && Cursors(after, before, isNextPageAvailable, isPrevPageAvailable) == CursorsFrom(result.value.links)
      ensures result.Failed? && result.hasDescription ==>
        && applicationRoleResponse == old(applicationRoleResponse) && roleList == old(roleList)
        && after == old(after) && before == old(before)
        && isNextPageAvailable == old(isNextPageAvailable) && isPrevPageAvailable == old(isPrevPageAvailable)
      ensures result.Failed? && !result.hasDescription ==>
        && applicationRoleResponse == Some(ApplicationRolesResponse([], [])) && roleList == []
        && after == Some("") && before == Some("") && !isNextPageAvailable && !isPrevPageAvailable
      ensures searchQuery == old(searchQuery) && listItemLimit == old(listItemLimit) && activePage == old(activePage)
    {
      isLoading := false;
      if result.Loaded? {
        applicationRoleResponse := Some(result.value);
        roleList := result.value.roles;
      } else if result.hasDescription {
        return;
      } else {
        applicationRoleResponse := Some(ApplicationRolesResponse([], []));
        roleList := [];
      }
      var c := ResolveCursors(applicationRoleResponse);
      after, before, isNextPageAvailable, isPrevPageAvailable := c.after, c.before, c.nextAvailable, c.prevAvailable;
    }

    /** `handlePaginationChange`: the page number is parsed, and the active page follows it in every case. */
    method HandlePaginationChange(page: string) returns (request: Option<RolesRequest>)
      modifies this
      ensures activePage == ParseInt(page)
      ensures request == PageChangeRequest(appId, ParseInt(page), old(activePage), after, before, searchQuery, listItemLimit)
      ensures isLoading == old(isLoading) && roleList == old(roleList) && applicationRoleResponse == old(applicationRoleResponse)
      ensures searchQuery == old(searchQuery) && listItemLimit == old(listItemLimit)
      ensures after == old(after) && before == old(before)
      ensures isNextPageAvailable == old(isNextPageAvailable) && isPrevPageAvailable == old(isPrevPageAvailable)
    {
      var newPage := ParseInt(page);
      request := PageChangeRequest(appId, newPage, activePage, after, before, searchQuery, listItemLimit);
      activePage := newPage;
    }

    /** `handleApplicationRolesFilter`: back to page 1; a changed query triggers the list effect. */
    method HandleApplicationRolesFilter(query: string) returns (request: Option<RolesRequest>)
      modifies this
      ensures activePage == Some(1) && searchQuery == query
      ensures request == if query != old(searchQuery) then Some(ListRequest(appId, query, listItemLimit)) else None
      ensures isLoading == old(isLoading) && roleList == old(roleList) && applicationRoleResponse == old(applicationRoleResponse)
      ensures listItemLimit == old(listItemLimit) && after == old(after) && before == old(before)
      ensures isNextPageAvailable == old(isNextPageAvailable) && isPrevPageAvailable == old(isPrevPageAvailable)
    {
      request := if query != searchQuery then Some(ListRequest(appId, query, listItemLimit)) else None;
      activePage := Some(1);
      searchQuery := query;
    }

    /** `handleSearchQueryClear`: the query becomes "" and the page 1. */
    method HandleSearchQueryClear() returns (request: Option<RolesRequest>)
      modifies this
      ensures activePage == Some(1) && searchQuery == ""
      ensures request == if old(searchQuery) != "" then Some(ListRequest(appId, "", listItemLimit)) else None
      ensures isLoading == old(isLoading) && roleList == old(roleList) && applicationRoleResponse == old(applicationRoleResponse)
      ensures listItemLimit == old(listItemLimit) && after == old(after) && before == old(before)
      ensures isNextPageAvailable == old(isNextPageAvailable) && isPrevPageAvailable == old(isPrevPageAvailable)
    {
      request := if searchQuery != "" then Some(ListRequest(appId, "", listItemLimit)) else None;
      searchQuery := "";
      activePage := Some(1);
    }

    /** `handleItemsPerPageDropdownChange`: the page size changes and the page becomes 1. */
    method HandleItemsPerPageDropdownChange(limit: int) returns (request: Option<RolesRequest>)
      modifies this
      ensures activePage == Some(1) && listItemLimit == limit
      ensures request == if limit != old(listItemLimit) then Some(ListRequest(appId, searchQuery, limit)) else None
      ensures isLoading == old(isLoading) && roleList == old(roleList) && applicationRoleResponse == old(applicationRoleResponse)
      ensures searchQuery == old(searchQuery) && after == old(after) && before == old(before)
      ensures isNextPageAvailable == old(isNextPageAvailable) && isPrevPageAvailable == old(isPrevPageAvailable)
    {
      request := if limit != listItemLimit then Some(ListRequest(appId, searchQuery, limit)) else None;
      listItemLimit := limit;
      activePage := Some(1);
    }

    /** `onRoleUpdate`: a refetch with no cursors, no filter and no limit. */
    method OnRoleUpdate() returns (request: RolesRequest)
      ensures request.appId == appId
      ensures request.before.None? && request.after.None? && request.filter.None? && request.limit.None?
    {
      request := RolesRequest(appId, None, None, None, None);
    }

    function Placeholder(): Placeholder
      reads this
    {
      ShowPlaceholders(searchQuery, roleList)
    }
  }
}
