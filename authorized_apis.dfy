/**
 * The authorized-API permission list shared by the role editor and the new-role permission picker:
 * APIs with their permissions, all expanded by default, and the two-level search over API display
 * names and permission display names. Both components carry the same code for it.
 */
module AuthorizedApis {
  import opened Wrappers
  import opened Seqs
  import opened Strings

  datatype Permission = Permission(id: string, displayName: string, name: string)

  /** `AuthorizedAPIListItemInterface`. */
  datatype AuthorizedApi = AuthorizedApi(apiId: string, apiDisplayName: string, permissions: seq<Permission>)

  function ApiIds(list: seq<AuthorizedApi>): seq<string>
  {
    seq(|list|, i requires 0 <= i < |list| => list[i].apiId)
  }

  /** `getDefaultExpandedAPIs`: every API id, in list order. */
  method DefaultExpandedApis(apiList: seq<AuthorizedApi>) returns (expanded: seq<string>)
    ensures |expanded| == |apiList|
    ensures forall i :: 0 <= i < |apiList| ==> expanded[i] == apiList[i].apiId
  {
    expanded := [];
    for i := 0 to |apiList|
      invariant |expanded| == i
      invariant forall j :: 0 <= j < i ==> expanded[j] == apiList[j].apiId
    {
      expanded := expanded + [apiList[i].apiId];
    }
  }

  /** `permissions.filter(p => p.displayName matches the query)`. */
  function MatchedPermissions(permissions: seq<Permission>, query: string): (r: seq<Permission>)
    ensures |r| <= |permissions|
    ensures forall i :: 0 <= i < |r| ==> r[i] in permissions && IncludesIgnoringCase(r[i].displayName, query)
    ensures forall i :: 0 <= i < |permissions| && IncludesIgnoringCase(permissions[i].displayName, query) ==> permissions[i] in r
  {
    if permissions == [] then []
    else
      var p := permissions[0];
      (if IncludesIgnoringCase(p.displayName, query) then [p] else []) + MatchedPermissions(permissions[1..], query)
  }

  /** `apiFiltered`: the APIs whose display name matches. */
  function ByName(items: seq<AuthorizedApi>, query: string): seq<AuthorizedApi>
  {
    if items == [] then []
    else
      var last := items[|items| - 1];
      ByName(items[..|items| - 1], query) + (if IncludesIgnoringCase(last.apiDisplayName, query) then [last] else [])
  }

  function CountApi(items: seq<AuthorizedApi>, apiId: string): nat
  {
    if items == [] then 0
    else CountApi(items[..|items| - 1], apiId) + (if items[|items| - 1].apiId == apiId then 1 else 0)
  }

  lemma CountApiSnoc(items: seq<AuthorizedApi>, x: AuthorizedApi, apiId: string)
    ensures CountApi(items + [x], apiId) == CountApi(items, apiId) + (if x.apiId == apiId then 1 else 0)
  {
    assert (items + [x])[..|items|] == items;
  }

  function Copies(api: AuthorizedApi, n: nat): seq<AuthorizedApi>
  {
    seq(n, _ => api)
  }

  /**
   * What one API contributes: a copy of it restricted to its matching permissions when there are
   * any, and otherwise one copy of it per name-matching API with the same id.
   */
  function Kept(list: seq<AuthorizedApi>, query: string, api: AuthorizedApi): seq<AuthorizedApi>
  {
    var matched := MatchedPermissions(api.permissions, query);
    if |matched| != 0 then [api.(permissions := matched)]
    else Copies(api, CountApi(ByName(list, query), api.apiId))
  }

  function KeptAll(list: seq<AuthorizedApi>, query: string, items: seq<AuthorizedApi>): seq<AuthorizedApi>
  {
    if items == [] then []
    else KeptAll(list, query, items[..|items| - 1]) + Kept(list, query, items[|items| - 1])
  }

  /** The APIs with a matching permission, each once, in list order. */
  function ExpandedAll(query: string, items: seq<AuthorizedApi>): seq<string>
  {
    if items == [] then []
    else
      var e := ExpandedAll(query, items[..|items| - 1]);
      var last := items[|items| - 1];
      if |MatchedPermissions(last.permissions, query)| != 0 then AppendNew(e, last.apiId) else e
  }

  datatype SearchResult = SearchResult(filtered: seq<AuthorizedApi>, expanded: seq<string>)

  /** The inner loop of `searchFilter` over the name matches. */
  method PushNameMatches(api: AuthorizedApi, apiFiltered: seq<AuthorizedApi>, matchedCount: nat)
    returns (pushed: seq<AuthorizedApi>)
    ensures pushed == if matchedCount != 0 then [] else Copies(api, CountApi(apiFiltered, api.apiId))
  {
    pushed := [];
    for j := 0 to |apiFiltered|
      invariant pushed == if matchedCount != 0 then [] else Copies(api, CountApi(apiFiltered[..j], api.apiId))
    {
      assert apiFiltered[..j + 1] == apiFiltered[..j] + [apiFiltered[j]];
      CountApiSnoc(apiFiltered[..j], apiFiltered[j], api.apiId);
      if apiFiltered[j].apiId == api.apiId && matchedCount == 0 {
        pushed := pushed + [api];
      }
    }
    assert apiFiltered[..|apiFiltered|] == apiFiltered;
  }

  /** `searchFilter`; nothing is set for an empty query. */
  method SearchFilter(list: seq<AuthorizedApi>, changeValue: string) returns (result: Option<SearchResult>)
    ensures changeValue == "" ==> result.None?
    ensures changeValue != "" ==> result == Some(SearchResult(KeptAll(list, changeValue, list), ExpandedAll(changeValue, list)))
  {
    if changeValue == "" {
      return None;
    }
    var apiFiltered := ByName(list, changeValue);
    var tempExpanded: seq<string> := [];
    var filtered: seq<AuthorizedApi> := [];
    for i := 0 to |list|
      invariant filtered == KeptAll(list, changeValue, list[..i])
      invariant tempExpanded == ExpandedAll(changeValue, list[..i])
    {
      var api := list[i];
      SearchStep(list, changeValue, i);
      var matched := MatchedPermissions(api.permissions, changeValue);
      ghost var before := filtered;
      if |matched| != 0 {
        if api.apiId !in tempExpanded {
          tempExpanded := tempExpanded + [api.apiId];
        }
        filtered := filtered + [api.(permissions := matched)];
      }
      var pushed := PushNameMatches(api, apiFiltered, |matched|);
      filtered := filtered + pushed;
      assert filtered == before + Kept(list, changeValue, api);
    }
    assert list[..|list|] == list;
    return Some(SearchResult(filtered, tempExpanded));
  }

  /** One API more for the search specification. */
  lemma SearchStep(list: seq<AuthorizedApi>, query: string, i: nat)
    requires i < |list|
    ensures KeptAll(list, query, list[..i + 1]) == KeptAll(list, query, list[..i]) + Kept(list, query, list[i])
    ensures ExpandedAll(query, list[..i + 1]) ==
      if |MatchedPermissions(list[i].permissions, query)| != 0 then AppendNew(ExpandedAll(query, list[..i]), list[i].apiId) else ExpandedAll(query, list[..i])
  {
    assert list[..i + 1][..i] == list[..i];
  }

  /** The per-API rule when API ids are distinct. */
  function KeptUnique(query: string, items: seq<AuthorizedApi>): seq<AuthorizedApi>
  {
    if items == [] then []
    else
      var api := items[|items| - 1];
      var matched := MatchedPermissions(api.permissions, query);
      var kept :=
        if |matched| != 0 then [api.(permissions := matched)]
        else if IncludesIgnoringCase(api.apiDisplayName, query) then [api]
        else [];
      KeptUnique(query, items[..|items| - 1]) + kept
  }

  lemma {:induction false} CountApiAbsent(items: seq<AuthorizedApi>, query: string, apiId: string)
    requires apiId !in ApiIds(items)
    ensures CountApi(ByName(items, query), apiId) == 0
  {
    if items != [] {
      var p := items[..|items| - 1];
      var last := items[|items| - 1];
      assert forall i :: 0 <= i < |p| ==> ApiIds(p)[i] == ApiIds(items)[i];
      CountApiAbsent(p, query, apiId);
      assert ApiIds(items)[|items| - 1] == last.apiId;
      var b := ByName(p, query);
      if IncludesIgnoringCase(last.apiDisplayName, query) {
        assert ByName(items, query) == b + [last];
        CountApiSnoc(b, last, apiId);
      } else {
        assert ByName(items, query) == b;
      }
    }
  }

  lemma {:induction false} CountApiUnique(items: seq<AuthorizedApi>, query: string, i: nat)
    requires NoDup(ApiIds(items)) && i < |items|
    ensures CountApi(ByName(items, query), items[i].apiId) == if IncludesIgnoringCase(items[i].apiDisplayName, query) then 1 else 0
  {
    var p := items[..|items| - 1];
    var last := items[|items| - 1];
    var a := items[i].apiId;
    var b := ByName(p, query);
    assert forall k :: 0 <= k < |p| ==> ApiIds(p)[k] == ApiIds(items)[k];
    if i == |items| - 1 {
      forall k | 0 <= k < |p| ensures ApiIds(p)[k] != a {
        assert ApiIds(items)[k] != ApiIds(items)[i];
      }
      CountApiAbsent(p, query, a);
    } else {
      assert ApiIds(items)[i] != ApiIds(items)[|items| - 1];
      CountApiUnique(p, query, i);
      assert p[i] == items[i];
    }
    if IncludesIgnoringCase(last.apiDisplayName, query) {
      assert ByName(items, query) == b + [last];
      CountApiSnoc(b, last, a);
    } else {
      assert ByName(items, query) == b;
    }
  }

  lemma {:induction false} KeptPrefix(list: seq<AuthorizedApi>, query: string, k: nat)
    requires NoDup(ApiIds(list)) && k <= |list|
    ensures KeptAll(list, query, list[..k]) == KeptUnique(query, list[..k])
  {
    if k > 0 {
      var api := list[k - 1];
      assert list[..k][..k - 1] == list[..k - 1];
      assert list[..k][k - 1] == api;
      KeptPrefix(list, query, k - 1);
      KeptOfUnique(list, query, k - 1);
    }
  }

  /** With distinct ids, the entries an API contributes follow the per-API rule. */
  lemma KeptOfUnique(list: seq<AuthorizedApi>, query: string, i: nat)
    requires NoDup(ApiIds(list)) && i < |list|
    ensures Kept(list, query, list[i]) ==
      var matched := MatchedPermissions(list[i].permissions, query);
      if |matched| != 0 then [list[i].(permissions := matched)]
      else if IncludesIgnoringCase(list[i].apiDisplayName, query) then [list[i]]
      else []
  {
    CountApiUnique(list, query, i);
    assert Copies(list[i], 1) == [list[i]];
    assert Copies(list[i], 0) == [];
  }

  /**
   * With distinct API ids, an API with a matching permission keeps exactly those permissions and
   * every other field, an API matching only by display name is kept whole, any other is dropped,
   * and the order of the list is kept.
   */
  lemma SearchWithUniqueApis(list: seq<AuthorizedApi>, query: string)
    requires NoDup(ApiIds(list))
    ensures KeptAll(list, query, list) == KeptUnique(query, list)
  {
    KeptPrefix(list, query, |list|);
    assert list[..|list|] == list;
  }

  /** Expanded are exactly the APIs with a matching permission, each once. */
  lemma {:induction false} ExpandedCharacterized(query: string, items: seq<AuthorizedApi>)
    ensures NoDup(ExpandedAll(query, items))
    ensures forall x :: x in ExpandedAll(query, items) <==>
      exists i :: 0 <= i < |items| && items[i].apiId == x && |MatchedPermissions(items[i].permissions, query)| != 0
  {
    if items != [] {
      var p := items[..|items| - 1];
      var last := items[|items| - 1];
      var e := ExpandedAll(query, p);
      ExpandedCharacterized(query, p);
      if |MatchedPermissions(last.permissions, query)| != 0 && last.apiId !in e {
        AppendKeepsNoDup(e, last.apiId);
      }
      forall x ensures x in ExpandedAll(query, items) <==>
        exists i :: 0 <= i < |items| && items[i].apiId == x && |MatchedPermissions(items[i].permissions, query)| != 0
      {
        ExpandsSnoc(query, p, items, x);
      }
    }
  }

  /** An entry with a matching permission for `x` is among the earlier ones or is the last one. */
  lemma ExpandsSnoc(query: string, p: seq<AuthorizedApi>, items: seq<AuthorizedApi>, x: string)
    requires items != [] && p == items[..|items| - 1]
    ensures (exists i :: 0 <= i < |items| && items[i].apiId == x && |MatchedPermissions(items[i].permissions, query)| != 0) <==>
      (exists i :: 0 <= i < |p| && p[i].apiId == x && |MatchedPermissions(p[i].permissions, query)| != 0)
      || (items[|items| - 1].apiId == x && |MatchedPermissions(items[|items| - 1].permissions, query)| != 0)
  {
    if exists i :: 0 <= i < |items| && items[i].apiId == x && |MatchedPermissions(items[i].permissions, query)| != 0 {
      var i :| 0 <= i < |items| && items[i].apiId == x && |MatchedPermissions(items[i].permissions, query)| != 0;
      if i < |p| {
        assert p[i] == items[i];
      }
    }
    if exists i :: 0 <= i < |p| && p[i].apiId == x && |MatchedPermissions(p[i].permissions, query)| != 0 {
      var i :| 0 <= i < |p| && p[i].apiId == x && |MatchedPermissions(p[i].permissions, query)| != 0;
      assert items[i] == p[i];
    }
  }

  /** `e` is `api` with some of its permissions. */
  predicate Narrows(e: AuthorizedApi, api: AuthorizedApi)
  {
    e.apiId == api.apiId && e.apiDisplayName == api.apiDisplayName
      && forall q :: q in e.permissions ==> q in api.permissions
  }

  /** Every kept API is a listed API with a subset of its permissions and its other fields as they were. */
  lemma {:induction false} KeptPermissionsAreOriginal(list: seq<AuthorizedApi>, query: string, items: seq<AuthorizedApi>)
    ensures forall e :: e in KeptAll(list, query, items) ==> exists i :: 0 <= i < |items| && Narrows(e, items[i])
  {
    if items != [] {
      var p := items[..|items| - 1];
      var last := items[|items| - 1];
      KeptPermissionsAreOriginal(list, query, p);
      forall e | e in KeptAll(list, query, items)
        ensures exists i :: 0 <= i < |items| && Narrows(e, items[i])
      {
        if e in KeptAll(list, query, p) {
          var i :| 0 <= i < |p| && Narrows(e, p[i]);
          assert items[i] == p[i];
        } else {
          assert e in Kept(list, query, last);
          assert Narrows(e, items[|items| - 1]);
        }
      }
    }
  }
}
