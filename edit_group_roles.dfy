/**
 * The roles tab of a group: application roles are keyed as "appId:roleName", the assigned ones fill
 * the checkboxes, clicks are recorded as added and removed keys, and saving regroups the keys by
 * application. Two lists (all roles, assigned roles) each have a search box and expandable accordions.
 */
module EditGroupRoles {
  import opened Wrappers
  import opened Seqs
  import opened Strings
  import opened AssignmentDiff

  datatype Role = Role(name: string)

  /** The roles of one application (`ApplicationRoleInterface`). */
  datatype ApplicationRole = ApplicationRole(app: string, roles: seq<Role>)

  datatype Application = Application(id: string, name: string)

  /** One entry of the update payload; a role is `undefined` when its key has no ':'. */
  datatype PayloadRoles = PayloadRoles(app: string, roles: seq<Option<string>>)

  datatype GroupRolePayload = GroupRolePayload(addedRoles: seq<PayloadRoles>, removedRoles: seq<PayloadRoles>)

  // ---- application names ----

  /** `appList.filter(item => item.id === appId)`. */
  function AppsWithId(appList: seq<Application>, appId: string): (r: seq<Application>)
    ensures forall i :: 0 <= i < |r| ==> r[i].id == appId
  {
    if appList == [] then []
    else (if appList[0].id == appId then [appList[0]] else []) + AppsWithId(appList[1..], appId)
  }

  /** The name of the only application with this id, or the id itself. */
  function GetApplicationName(appList: seq<Application>, appId: string): string
  {
    var found := AppsWithId(appList, appId);
    if |found| == 1 then found[0].name else appId
  }

  lemma {:induction false} AppsWithIdOne(appList: seq<Application>, appId: string, i: nat)
    requires i < |appList| && appList[i].id == appId
    requires forall j :: 0 <= j < |appList| && j != i ==> appList[j].id != appId
    ensures AppsWithId(appList, appId) == [appList[i]]
  {
    if i == 0 {
      AppsWithIdNone(appList[1..], appId);
    } else {
      AppsWithIdOne(appList[1..], appId, i - 1);
    }
  }

  lemma {:induction false} AppsWithIdNone(appList: seq<Application>, appId: string)
    requires forall j :: 0 <= j < |appList| ==> appList[j].id != appId
    ensures AppsWithId(appList, appId) == []
  {
    if appList != [] {
      AppsWithIdNone(appList[1..], appId);
    }
  }

  lemma {:induction false} AppsWithIdTwo(appList: seq<Application>, appId: string, i: nat, j: nat)
    requires i < j < |appList| && appList[i].id == appId && appList[j].id == appId
    ensures |AppsWithId(appList, appId)| >= 2
  {
    if i == 0 {
      AppsWithIdSome(appList[1..], appId, j - 1);
    } else {
      AppsWithIdTwo(appList[1..], appId, i - 1, j - 1);
    }
  }

  lemma {:induction false} AppsWithIdSome(appList: seq<Application>, appId: string, i: nat)
    requires i < |appList| && appList[i].id == appId
    ensures |AppsWithId(appList, appId)| >= 1
  {
    if i > 0 {
      AppsWithIdSome(appList[1..], appId, i - 1);
    }
  }

  /** An id that exactly one listed application carries resolves to that application's name. */
  lemma ApplicationNameOfUniqueId(appList: seq<Application>, appId: string, i: nat)
    requires i < |appList| && appList[i].id == appId
    requires forall j :: 0 <= j < |appList| && j != i ==> appList[j].id != appId
    ensures GetApplicationName(appList, appId) == appList[i].name
  {
    AppsWithIdOne(appList, appId, i);
  }

  /** An id that no application, or more than one, carries is shown as the id itself. */
  lemma ApplicationNameFallsBackToId(appList: seq<Application>, appId: string)
    requires (forall j :: 0 <= j < |appList| ==> appList[j].id != appId)
          || (exists i, j :: 0 <= i < j < |appList| && appList[i].id == appId && appList[j].id == appId)
    ensures GetApplicationName(appList, appId) == appId
  {
    if forall j :: 0 <= j < |appList| ==> appList[j].id != appId {
      AppsWithIdNone(appList, appId);
    } else {
      var i, j :| 0 <= i < j < |appList| && appList[i].id == appId && appList[j].id == appId;
      AppsWithIdTwo(appList, appId, i, j);
    }
  }

  // ---- default expansion and checked keys ----

  /** The application ids of a role list, in order. */
  function Apps(list: seq<ApplicationRole>): seq<string>
  {
    seq(|list|, i requires 0 <= i < |list| => list[i].app)
  }

  /** Every application of the list, in list order, starts expanded. */
  method DefaultExpandedApps(list: seq<ApplicationRole>) returns (expanded: seq<string>)
    ensures |expanded| == |list|
    ensures forall i :: 0 <= i < |list| ==> expanded[i] == list[i].app
  {
    expanded := [];
    for i := 0 to |list|
      invariant |expanded| == i
      invariant forall j :: 0 <= j < i ==> expanded[j] == list[j].app
    {
      expanded := expanded + [list[i].app];
    }
  }

  /** The key of a role of an application. */
  function QualifiedKey(app: string, roleName: string): string
  {
    app + ":" + roleName
  }

  function RoleKeys(app: string, roles: seq<Role>): (keys: seq<string>)
    ensures |keys| == |roles|
  {
    seq(|roles|, j requires 0 <= j < |roles| => QualifiedKey(app, roles[j].name))
  }

  /** The keys of a role list: application by application, each application's roles in order. */
  function QualifiedKeys(list: seq<ApplicationRole>): seq<string>
  {
    if list == [] then [] else QualifiedKeys(list[..|list| - 1]) + RoleKeys(list[|list| - 1].app, list[|list| - 1].roles)
  }

  function RoleCount(list: seq<ApplicationRole>): nat
  {
    if list == [] then 0 else RoleCount(list[..|list| - 1]) + |list[|list| - 1].roles|
  }

  /** `addCheckedRoles`: one key per assigned role, applications first and then roles, in input order. */
  method AddCheckedRoles(list: seq<ApplicationRole>) returns (keys: seq<string>)
    ensures keys == QualifiedKeys(list)
  {
    keys := [];
    for i := 0 to |list|
      invariant keys == QualifiedKeys(list[..i])
    {
      var app := list[i].app;
      var roles := list[i].roles;
      assert list[..i + 1][..i] == list[..i];
      for j := 0 to |roles|
        invariant keys == QualifiedKeys(list[..i]) + RoleKeys(app, roles[..j])
      {
        assert RoleKeys(app, roles[..j + 1]) == RoleKeys(app, roles[..j]) + [QualifiedKey(app, roles[j].name)];
        keys := keys + [QualifiedKey(app, roles[j].name)];
      }
      assert roles[..|roles|] == roles;
    }
    assert list[..|list|] == list;
  }

  /** There are as many keys as roles, and role `j` of application `i` has its key among them. */
  lemma {:induction false} QualifiedKeysCover(list: seq<ApplicationRole>)
    ensures |QualifiedKeys(list)| == RoleCount(list)
    ensures forall i, j :: 0 <= i < |list| && 0 <= j < |list[i].roles| ==>
      QualifiedKey(list[i].app, list[i].roles[j].name) in QualifiedKeys(list)
  {
    if list != [] {
      var p := list[..|list| - 1];
      var last := list[|list| - 1];
      QualifiedKeysCover(p);
      forall i, j | 0 <= i < |list| && 0 <= j < |list[i].roles|
        ensures QualifiedKey(list[i].app, list[i].roles[j].name) in QualifiedKeys(list)
      {
        if i < |list| - 1 {
          assert list[i] == p[i];
          assert QualifiedKey(p[i].app, p[i].roles[j].name) in QualifiedKeys(p);
        } else {
          assert RoleKeys(last.app, last.roles)[j] == QualifiedKey(list[i].app, list[i].roles[j].name);
        }
      }
    }
  }

  // ---- regrouping keys for the payload ----

  /** `key.split(":")[0]`: the application id. */
  function AppPart(key: string): string
  {
    Split(key, ":")[0]
  }

  /** `key.split(":")[1]`: the role name, the text between the first and the second ':'. */
  function RolePart(key: string): Option<string>
  {
    At(Split(key, ":"), 1)
  }

  /** `list.findIndex(item => item.app === app)`, with `None` for -1. */
  function FindApp(list: seq<PayloadRoles>, app: string): (r: Option<nat>)
    ensures r.Some? ==> r.value < |list| && list[r.value].app == app
    ensures r.Some? ==> forall j :: 0 <= j < r.value ==> list[j].app != app
    ensures r.None? ==> forall j :: 0 <= j < |list| ==> list[j].app != app
  {
    if list == [] then None
    else if list[0].app == app then Some(0)
    else match FindApp(list[1..], app)
      case None => None
      case Some(i) => Some(i + 1)
  }

  /** One step of `getOrderedRoleList`: the role joins its application's entry, or opens a new one. */
  function InsertKey(list: seq<PayloadRoles>, key: string): seq<PayloadRoles>
  {
    match FindApp(list, AppPart(key))
    case Some(i) => list[i := PayloadRoles(list[i].app, list[i].roles + [RolePart(key)])]
    case None => list + [PayloadRoles(AppPart(key), [RolePart(key)])]
  }

  function GroupFrom(list: seq<PayloadRoles>, keys: seq<string>): seq<PayloadRoles>
  {
    if keys == [] then list else InsertKey(GroupFrom(list, keys[..|keys| - 1]), keys[|keys| - 1])
  }

  /** The keys grouped by application, as `getOrderedRoleList` returns them. */
  function GroupByApp(keys: seq<string>): seq<PayloadRoles>
  {
    GroupFrom([], keys)
  }

  /** `getOrderedRoleList`. */
  method GetOrderedRoleList(roleNameList: seq<string>) returns (list: seq<PayloadRoles>)
    ensures list == GroupByApp(roleNameList)
  {
    list := [];
    for i := 0 to |roleNameList|
      invariant list == GroupByApp(roleNameList[..i])
    {
      var key := roleNameList[i];
      assert roleNameList[..i + 1][..i] == roleNameList[..i];
      var appId := Split(key, ":")[0];
      var role := At(Split(key, ":"), 1);
      var found := FindApp(list, appId);
      if found.Some? {
        var itemIndex := found.value;
        var item := list[itemIndex];
        item := PayloadRoles(item.app, item.roles + [role]);
        list := list[itemIndex := item];
      } else {
        list := list + [PayloadRoles(appId, [role])];
      }
    }
    assert roleNameList[..|roleNameList|] == roleNameList;
  }

  /** The application parts of the keys. */
  function AppParts(keys: seq<string>): (r: seq<string>)
    ensures |r| == |keys| && forall i :: 0 <= i < |keys| ==> r[i] == AppPart(keys[i])
  {
    seq(|keys|, i requires 0 <= i < |keys| => AppPart(keys[i]))
  }

  /** The role parts of the keys of one application, in key order. */
  function RolesOf(keys: seq<string>, app: string): seq<Option<string>>
  {
    if keys == [] then []
    else RolesOf(keys[..|keys| - 1], app) + (if AppPart(keys[|keys| - 1]) == app then [RolePart(keys[|keys| - 1])] else [])
  }

  lemma {:induction false} RolesOfAbsent(keys: seq<string>, app: string)
    requires app !in AppParts(keys)
    ensures RolesOf(keys, app) == []
  {
    if keys != [] {
      var p := keys[..|keys| - 1];
      assert AppParts(keys)[|keys| - 1] == AppPart(keys[|keys| - 1]);
      assert forall i :: 0 <= i < |p| ==> AppParts(p)[i] == AppParts(keys)[i];
      RolesOfAbsent(p, app);
    }
  }

  /**
   * The payload groups hold one entry per distinct application, in the order in which each
   * application first occurs, and each entry holds that application's roles in key order.
   */
  lemma {:induction false} GroupByAppCharacterized(keys: seq<string>)
    ensures |GroupByApp(keys)| == |Distinct(AppParts(keys))|
    ensures forall i :: 0 <= i < |GroupByApp(keys)| ==>
      GroupByApp(keys)[i] == PayloadRoles(Distinct(AppParts(keys))[i], RolesOf(keys, Distinct(AppParts(keys))[i]))
  {
    if keys != [] {
      var p := keys[..|keys| - 1];
      var k := keys[|keys| - 1];
      var a := AppPart(k);
      var g := GroupByApp(p);
      var d := Distinct(AppParts(p));
      GroupByAppCharacterized(p);
      DistinctFacts(AppParts(p));
      GroupByAppUnfold(keys);
      match FindApp(g, a)
      case Some(i) =>
        assert a in d;
        assert Distinct(AppParts(keys)) == d;
        assert GroupByApp(keys) == g[i := PayloadRoles(g[i].app, g[i].roles + [RolePart(k)])];
        InsertIntoExisting(g, d, p, k, i);
      case None =>
        assert a !in d;
        assert Distinct(AppParts(keys)) == d + [a];
        assert GroupByApp(keys) == g + [PayloadRoles(a, [RolePart(k)])];
        RolesOfAbsent(p, a);
        InsertAsNew(g, d, p, k);
    }
  }

  /** The grouping and the distinct applications of the keys, one key at a time. */
  lemma GroupByAppUnfold(keys: seq<string>)
    requires keys != []
    ensures keys == keys[..|keys| - 1] + [keys[|keys| - 1]]
    ensures Distinct(AppParts(keys)) == AppendNew(Distinct(AppParts(keys[..|keys| - 1])), AppPart(keys[|keys| - 1]))
    ensures GroupByApp(keys) == InsertKey(GroupByApp(keys[..|keys| - 1]), keys[|keys| - 1])
  {
    assert AppParts(keys)[..|keys| - 1] == AppParts(keys[..|keys| - 1]);
  }

  /** The roles of `x` after one key more. */
  lemma RolesOfSnoc(p: seq<string>, k: string, x: string)
    ensures RolesOf(p + [k], x) == RolesOf(p, x) + (if AppPart(k) == x then [RolePart(k)] else [])
  {
    assert (p + [k])[..|p|] == p;
  }

  /** A key of an application already grouped joins that application's entry. */
  lemma InsertIntoExisting(g: seq<PayloadRoles>, d: seq<string>, p: seq<string>, k: string, i: nat)
    requires |g| == |d| && i < |d| && d[i] == AppPart(k) && NoDup(d)
    requires forall j :: 0 <= j < |g| ==> g[j] == PayloadRoles(d[j], RolesOf(p, d[j]))
    ensures forall j :: 0 <= j < |d| ==>
      g[i := PayloadRoles(g[i].app, g[i].roles + [RolePart(k)])][j] == PayloadRoles(d[j], RolesOf(p + [k], d[j]))
  {
    forall j | 0 <= j < |d|
      ensures g[i := PayloadRoles(g[i].app, g[i].roles + [RolePart(k)])][j] == PayloadRoles(d[j], RolesOf(p + [k], d[j]))
    {
      RolesOfSnoc(p, k, d[j]);
    }
  }

  /** A key of a new application opens an entry at the end. */
  lemma InsertAsNew(g: seq<PayloadRoles>, d: seq<string>, p: seq<string>, k: string)
    requires |g| == |d| && AppPart(k) !in d && RolesOf(p, AppPart(k)) == []
    requires forall j :: 0 <= j < |g| ==> g[j] == PayloadRoles(d[j], RolesOf(p, d[j]))
    ensures forall j :: 0 <= j <= |d| ==>
      (g + [PayloadRoles(AppPart(k), [RolePart(k)])])[j] == PayloadRoles((d + [AppPart(k)])[j], RolesOf(p + [k], (d + [AppPart(k)])[j]))
  {
    forall j | 0 <= j <= |d|
      ensures (g + [PayloadRoles(AppPart(k), [RolePart(k)])])[j] == PayloadRoles((d + [AppPart(k)])[j], RolesOf(p + [k], (d + [AppPart(k)])[j]))
    {
      RolesOfSnoc(p, k, (d + [AppPart(k)])[j]);
    }
  }

  function TotalRoles(list: seq<PayloadRoles>): nat
  {
    if list == [] then 0 else TotalRoles(list[..|list| - 1]) + |list[|list| - 1].roles|
  }

  lemma {:induction false} TotalRolesUpdate(list: seq<PayloadRoles>, i: nat, e: PayloadRoles)
    requires i < |list|
    ensures TotalRoles(list[i := e]) == TotalRoles(list) - |list[i].roles| + |e.roles|
  {
    var u := list[i := e];
    if i < |list| - 1 {
      assert u[..|u| - 1] == list[..|list| - 1][i := e];
      TotalRolesUpdate(list[..|list| - 1], i, e);
    } else {
      assert u[..|u| - 1] == list[..|list| - 1];
    }
  }

  /** Every key contributes exactly one role to the payload. */
  lemma {:induction false} GroupByAppCount(keys: seq<string>)
    ensures TotalRoles(GroupByApp(keys)) == |keys|
  {
    if keys != [] {
      var p := keys[..|keys| - 1];
      var k := keys[|keys| - 1];
      var g := GroupByApp(p);
      GroupByAppCount(p);
      match FindApp(g, AppPart(k))
      case Some(i) =>
        TotalRolesUpdate(g, i, PayloadRoles(g[i].app, g[i].roles + [RolePart(k)]));
      case None =>
        var g2 := g + [PayloadRoles(AppPart(k), [RolePart(k)])];
        assert g2[..|g2| - 1] == g;
    }
  }

  /** The role list in payload form. */
  function ToPayload(list: seq<ApplicationRole>): seq<PayloadRoles>
  {
    seq(|list|, i requires 0 <= i < |list| => PayloadRoles(list[i].app, RoleNames(list[i].roles)))
  }

  function RoleNames(roles: seq<Role>): seq<Option<string>>
  {
    seq(|roles|, j requires 0 <= j < |roles| => Some(roles[j].name))
  }

  lemma {:induction false} GroupFromAppend(list: seq<PayloadRoles>, s: seq<string>, t: seq<string>)
    ensures GroupFrom(list, s + t) == GroupFrom(GroupFrom(list, s), t)
    decreases |t|
  {
    if t == [] {
      assert s + t == s;
    } else {
      var t0 := t[..|t| - 1];
      assert (s + t)[..|s + t| - 1] == s + t0;
      GroupFromAppend(list, s, t0);
    }
  }

  lemma SplitQualifiedKey(app: string, name: string)
    requires ':' !in app && ':' !in name
    ensures Split(QualifiedKey(app, name), ":") == [app, name]
  {
    assert QualifiedKey(app, name) == app + [':'] + name;
    SplitAfterFirst(app, ':', name);
    SplitNoChar(name, ':');
  }

  /** The keys of one application not yet in the payload form a new entry at its end. */
  lemma {:induction false} GroupRoleBlock(list: seq<PayloadRoles>, app: string, roles: seq<Role>)
    requires forall i :: 0 <= i < |list| ==> list[i].app != app
    requires |roles| >= 1 && ':' !in app
    requires forall j :: 0 <= j < |roles| ==> ':' !in roles[j].name
    ensures GroupFrom(list, RoleKeys(app, roles)) == list + [PayloadRoles(app, RoleNames(roles))]
    decreases |roles|
  {
    var keys := RoleKeys(app, roles);
    var p := roles[..|roles| - 1];
    var k := keys[|keys| - 1];
    RoleKeysSnoc(app, roles);
    KeyParts(app, roles[|roles| - 1].name);
    if |roles| == 1 {
      assert RoleNames(roles) == [RolePart(k)];
    } else {
      GroupRoleBlock(list, app, p);
      InsertIntoLastEntry(list, app, RoleNames(p), k);
      assert RoleNames(p) + [RolePart(k)] == RoleNames(roles);
    }
  }

  /** The last key of a role block, and the keys before it. */
  lemma RoleKeysSnoc(app: string, roles: seq<Role>)
    requires |roles| >= 1
    ensures RoleKeys(app, roles)[..|roles| - 1] == RoleKeys(app, roles[..|roles| - 1])
    ensures RoleKeys(app, roles)[|roles| - 1] == QualifiedKey(app, roles[|roles| - 1].name)
  {
  }

  /** A key built from a colon-free id and name splits back into them. */
  lemma KeyParts(app: string, name: string)
    requires ':' !in app && ':' !in name
    ensures AppPart(QualifiedKey(app, name)) == app && RolePart(QualifiedKey(app, name)) == Some(name)
  {
    SplitQualifiedKey(app, name);
  }

  /** A key of the application that opened the last entry joins that entry. */
  lemma InsertIntoLastEntry(list: seq<PayloadRoles>, app: string, names: seq<Option<string>>, k: string)
    requires forall i :: 0 <= i < |list| ==> list[i].app != app
    requires AppPart(k) == app
    ensures InsertKey(list + [PayloadRoles(app, names)], k) == list + [PayloadRoles(app, names + [RolePart(k)])]
  {
    var g := list + [PayloadRoles(app, names)];
    assert g[|list|].app == app;
    var f := FindApp(g, app);
    assert f.Some? && f.value == |list|;
  }

  /**
   * Regrouping the keys of a role list gives the list back, when application ids are distinct,
   * no id or role name contains ':' and every application has a role.
   */
  lemma {:induction false} GroupByAppOfQualifiedKeys(list: seq<ApplicationRole>)
    requires NoDup(Apps(list))
    requires forall i :: 0 <= i < |list| ==> ':' !in list[i].app && |list[i].roles| >= 1
    requires forall i, j :: 0 <= i < |list| && 0 <= j < |list[i].roles| ==> ':' !in list[i].roles[j].name
    ensures GroupByApp(QualifiedKeys(list)) == ToPayload(list)
  {
    if list != [] {
      var p := list[..|list| - 1];
      var last := list[|list| - 1];
      assert forall i :: 0 <= i < |p| ==> Apps(p)[i] == Apps(list)[i];
      GroupByAppOfQualifiedKeys(p);
      GroupFromAppend([], QualifiedKeys(p), RoleKeys(last.app, last.roles));
      var g := ToPayload(p);
      forall i | 0 <= i < |g| ensures g[i].app != last.app {
        assert Apps(list)[i] != Apps(list)[|list| - 1];
      }
      GroupRoleBlock(g, last.app, last.roles);
      ToPayloadSnoc(list);
    }
  }

  lemma ToPayloadSnoc(list: seq<ApplicationRole>)
    requires list != []
    ensures ToPayload(list) == ToPayload(list[..|list| - 1]) + [PayloadRoles(list[|list| - 1].app, RoleNames(list[|list| - 1].roles))]
  {
  }

  // ---- search ----

  /** `roles.filter(role => role.name matches the query)`. */
  function MatchedRoles(roles: seq<Role>, query: string): (r: seq<Role>)
    ensures |r| <= |roles|
    ensures forall i :: 0 <= i < |r| ==> r[i] in roles && IncludesIgnoringCase(r[i].name, query)
    ensures forall i :: 0 <= i < |roles| && IncludesIgnoringCase(roles[i].name, query) ==> roles[i] in r
  {
    if roles == [] then []
    else (if IncludesIgnoringCase(roles[0].name, query) then [roles[0]] else []) + MatchedRoles(roles[1..], query)
  }

  /** The application's name, as shown, matches the query. */
  predicate NameMatches(appList: seq<Application>, item: ApplicationRole, query: string)
  {
    IncludesIgnoringCase(GetApplicationName(appList, item.app), query)
  }

  /** `applicationsFiltered`: the entries whose application name matches. */
  function ByName(appList: seq<Application>, items: seq<ApplicationRole>, query: string): seq<ApplicationRole>
  {
    if items == [] then []
    else
      var last := items[|items| - 1];
      ByName(appList, items[..|items| - 1], query) + (if NameMatches(appList, last, query) then [last] else [])
  }

  function CountApp(items: seq<ApplicationRole>, app: string): nat
  {
    if items == [] then 0
    else CountApp(items[..|items| - 1], app) + (if items[|items| - 1].app == app then 1 else 0)
  }

  lemma CountAppSnoc(items: seq<ApplicationRole>, x: ApplicationRole, app: string)
    ensures CountApp(items + [x], app) == CountApp(items, app) + (if x.app == app then 1 else 0)
  {
    assert (items + [x])[..|items|] == items;
  }

  function Copies(item: ApplicationRole, n: nat): seq<ApplicationRole>
  {
    seq(n, _ => item)
  }

  /**
   * What one entry contributes to the result: its matched roles when there are any, and otherwise
   * one copy of it per name-matching entry with the same application id.
   */
  function Kept(appList: seq<Application>, list: seq<ApplicationRole>, query: string, item: ApplicationRole): seq<ApplicationRole>
  {
    var matched := MatchedRoles(item.roles, query);
    if |matched| != 0 then [ApplicationRole(item.app, matched)]
    else Copies(item, CountApp(ByName(appList, list, query), item.app))
  }

  function KeptAll(appList: seq<Application>, list: seq<ApplicationRole>, query: string, items: seq<ApplicationRole>): seq<ApplicationRole>
  {
    if items == [] then []
    else KeptAll(appList, list, query, items[..|items| - 1]) + Kept(appList, list, query, items[|items| - 1])
  }

  /** The applications with a matching role, each once, in list order. */
  function ExpandedAll(query: string, items: seq<ApplicationRole>): seq<string>
  {
    if items == [] then []
    else
      var e := ExpandedAll(query, items[..|items| - 1]);
      var last := items[|items| - 1];
      if |MatchedRoles(last.roles, query)| != 0 then AppendNew(e, last.app) else e
  }

  datatype SearchResult = SearchResult(filtered: seq<ApplicationRole>, expanded: seq<string>)

  /**
   * The inner loop of `searchFilter`: the entry is pushed once per name-matching entry with the
   * same application id, provided it has no matching role.
   */
  method PushNameMatches(application: ApplicationRole, applicationsFiltered: seq<ApplicationRole>, matchedCount: nat)
    returns (pushed: seq<ApplicationRole>)
    ensures pushed == if matchedCount != 0 then [] else Copies(application, CountApp(applicationsFiltered, application.app))
  {
    pushed := [];
    for j := 0 to |applicationsFiltered|
      invariant pushed == if matchedCount != 0 then [] else Copies(application, CountApp(applicationsFiltered[..j], application.app))
    {
      assert applicationsFiltered[..j + 1] == applicationsFiltered[..j] + [applicationsFiltered[j]];
      CountAppSnoc(applicationsFiltered[..j], applicationsFiltered[j], application.app);
      if applicationsFiltered[j].app == application.app && matchedCount == 0 {
        pushed := pushed + [application];
      }
    }
    assert applicationsFiltered[..|applicationsFiltered|] == applicationsFiltered;
  }

  /** `searchFilter`; nothing is set for an empty query. */
  method SearchFilter(appList: seq<Application>, list: seq<ApplicationRole>, changeValue: string)
    returns (result: Option<SearchResult>)
    ensures changeValue == "" ==> result.None?
    ensures changeValue != "" ==> result == Some(SearchResult(KeptAll(appList, list, changeValue, list), ExpandedAll(changeValue, list)))
  {
    if changeValue == "" {
      return None;
    }
    var applicationsFiltered := ByName(appList, list, changeValue);
    var tempExpanded: seq<string> := [];
    var filtered: seq<ApplicationRole> := [];
    for i := 0 to |list|
      invariant filtered == KeptAll(appList, list, changeValue, list[..i])
      invariant tempExpanded == ExpandedAll(changeValue, list[..i])
    {
      var application := list[i];
      SearchStep(appList, list, changeValue, i);
      var matched := MatchedRoles(application.roles, changeValue);
      ghost var before, expandedBefore := filtered, tempExpanded;
      if |matched| != 0 {
        if application.app !in tempExpanded {
          tempExpanded := tempExpanded + [application.app];
        }
        filtered := filtered + [ApplicationRole(application.app, matched)];
      }
      assert tempExpanded == if |matched| != 0 then AppendNew(expandedBefore, application.app) else expandedBefore;
      var pushed := PushNameMatches(application, applicationsFiltered, |matched|);
      filtered := filtered + pushed;
      assert filtered == before + Kept(appList, list, changeValue, application);
    }
    assert list[..|list|] == list;
    return Some(SearchResult(filtered, tempExpanded));
  }

  /** One entry more for the search specification. */
  lemma SearchStep(appList: seq<Application>, list: seq<ApplicationRole>, query: string, i: nat)
    requires i < |list|
    ensures KeptAll(appList, list, query, list[..i + 1]) == KeptAll(appList, list, query, list[..i]) + Kept(appList, list, query, list[i])
    ensures ExpandedAll(query, list[..i + 1]) ==
      if |MatchedRoles(list[i].roles, query)| != 0 then AppendNew(ExpandedAll(query, list[..i]), list[i].app) else ExpandedAll(query, list[..i])
  {
    assert list[..i + 1][..i] == list[..i];
  }

  /** The per-entry rule when application ids are distinct. */
  function KeptUnique(appList: seq<Application>, query: string, items: seq<ApplicationRole>): seq<ApplicationRole>
  {
    if items == [] then []
    else
      var item := items[|items| - 1];
      var matched := MatchedRoles(item.roles, query);
      var kept :=
        if |matched| != 0 then [ApplicationRole(item.app, matched)]
        else if NameMatches(appList, item, query) then [item]
        else [];
      KeptUnique(appList, query, items[..|items| - 1]) + kept
  }

  lemma {:induction false} CountAppAbsent(appList: seq<Application>, items: seq<ApplicationRole>, query: string, app: string)
    requires app !in Apps(items)
    ensures CountApp(ByName(appList, items, query), app) == 0
  {
    if items != [] {
      var p := items[..|items| - 1];
      assert forall i :: 0 <= i < |p| ==> Apps(p)[i] == Apps(items)[i];
      CountAppAbsent(appList, p, query, app);
      assert Apps(items)[|items| - 1] == items[|items| - 1].app;
      var b := ByName(appList, p, query);
      if NameMatches(appList, items[|items| - 1], query) {
        assert ByName(appList, items, query) == b + [items[|items| - 1]];
        CountAppSnoc(b, items[|items| - 1], app);
      } else {
        assert ByName(appList, items, query) == b;
      }
    }
  }

  /** With distinct ids, an application is counted among the name matches once if its name matches. */
  lemma {:induction false} CountAppUnique(appList: seq<Application>, items: seq<ApplicationRole>, query: string, i: nat)
    requires NoDup(Apps(items)) && i < |items|
    ensures CountApp(ByName(appList, items, query), items[i].app) == if NameMatches(appList, items[i], query) then 1 else 0
  {
    var p := items[..|items| - 1];
    var last := items[|items| - 1];
    var a := items[i].app;
    var b := ByName(appList, p, query);
    assert forall k :: 0 <= k < |p| ==> Apps(p)[k] == Apps(items)[k];
    if i == |items| - 1 {
      forall k | 0 <= k < |p| ensures Apps(p)[k] != a {
        assert Apps(items)[k] != Apps(items)[i];
      }
      CountAppAbsent(appList, p, query, a);
    } else {
      assert Apps(items)[i] != Apps(items)[|items| - 1];
      CountAppUnique(appList, p, query, i);
      assert p[i] == items[i];
    }
    if NameMatches(appList, last, query) {
      assert ByName(appList, items, query) == b + [last];
      CountAppSnoc(b, last, a);
    } else {
      assert ByName(appList, items, query) == b;
    }
  }

  /**
   * With distinct application ids, an application with a matching role keeps exactly its matching
   * roles, one that matches only by name is kept whole, any other is dropped; order is kept.
   */
  lemma SearchWithUniqueApps(appList: seq<Application>, list: seq<ApplicationRole>, query: string)
    requires NoDup(Apps(list))
    ensures KeptAll(appList, list, query, list) == KeptUnique(appList, query, list)
  {
    KeptPrefix(appList, list, query, |list|);
    assert list[..|list|] == list;
  }

  lemma {:induction false} KeptPrefix(appList: seq<Application>, list: seq<ApplicationRole>, query: string, k: nat)
    requires NoDup(Apps(list)) && k <= |list|
    ensures KeptAll(appList, list, query, list[..k]) == KeptUnique(appList, query, list[..k])
  {
    if k > 0 {
      var item := list[k - 1];
      assert list[..k][..k - 1] == list[..k - 1];
      assert list[..k][k - 1] == item;
      KeptPrefix(appList, list, query, k - 1);
      KeptOfUnique(appList, list, query, k - 1);
    }
  }

  /** With distinct ids, the entries an application contributes follow the per-entry rule. */
  lemma KeptOfUnique(appList: seq<Application>, list: seq<ApplicationRole>, query: string, i: nat)
    requires NoDup(Apps(list)) && i < |list|
    ensures Kept(appList, list, query, list[i]) ==
      var matched := MatchedRoles(list[i].roles, query);
      if |matched| != 0 then [ApplicationRole(list[i].app, matched)]
      else if NameMatches(appList, list[i], query) then [list[i]]
      else []
  {
    CountAppUnique(appList, list, query, i);
    assert Copies(list[i], 1) == [list[i]];
    assert Copies(list[i], 0) == [];
  }

  /** Expanded are exactly the applications with a matching role, each once. */
  lemma {:induction false} ExpandedCharacterized(query: string, items: seq<ApplicationRole>)
    ensures NoDup(ExpandedAll(query, items))
    ensures forall x :: x in ExpandedAll(query, items) <==>
      exists i :: 0 <= i < |items| && items[i].app == x && |MatchedRoles(items[i].roles, query)| != 0
  {
    if items != [] {
      var p := items[..|items| - 1];
      var last := items[|items| - 1];
      var e := ExpandedAll(query, p);
      ExpandedCharacterized(query, p);
      if |MatchedRoles(last.roles, query)| != 0 && last.app !in e {
        AppendKeepsNoDup(e, last.app);
      }
      forall x ensures x in ExpandedAll(query, items) <==>
        exists i :: 0 <= i < |items| && items[i].app == x && |MatchedRoles(items[i].roles, query)| != 0
      {
        ExpandsSnoc(query, p, items, x);
      }
    }
  }

  /** An entry with a matching role for `x` is among the earlier ones or is the last one. */
  lemma ExpandsSnoc(query: string, p: seq<ApplicationRole>, items: seq<ApplicationRole>, x: string)
    requires items != [] && p == items[..|items| - 1]
    ensures (exists i :: 0 <= i < |items| && items[i].app == x && |MatchedRoles(items[i].roles, query)| != 0) <==>
      (exists i :: 0 <= i < |p| && p[i].app == x && |MatchedRoles(p[i].roles, query)| != 0)
      || (items[|items| - 1].app == x && |MatchedRoles(items[|items| - 1].roles, query)| != 0)
  {
    if exists i :: 0 <= i < |items| && items[i].app == x && |MatchedRoles(items[i].roles, query)| != 0 {
      var i :| 0 <= i < |items| && items[i].app == x && |MatchedRoles(items[i].roles, query)| != 0;
      if i < |p| {
        assert p[i] == items[i];
      }
    }
    if exists i :: 0 <= i < |p| && p[i].app == x && |MatchedRoles(p[i].roles, query)| != 0 {
      var i :| 0 <= i < |p| && p[i].app == x && |MatchedRoles(p[i].roles, query)| != 0;
      assert items[i] == p[i];
    }
  }

  /** Every kept entry belongs to a listed application and keeps only roles it had. */
  lemma {:induction false} KeptRolesAreOriginal(appList: seq<Application>, list: seq<ApplicationRole>, query: string, items: seq<ApplicationRole>)
    ensures forall e :: e in KeptAll(appList, list, query, items) ==>
      exists i :: 0 <= i < |items| && items[i].app == e.app && forall r :: r in e.roles ==> r in items[i].roles
  {
    if items != [] {
      var p := items[..|items| - 1];
      var last := items[|items| - 1];
      KeptRolesAreOriginal(appList, list, query, p);
      forall e | e in KeptAll(appList, list, query, items)
        ensures exists i :: 0 <= i < |items| && items[i].app == e.app && forall r :: r in e.roles ==> r in items[i].roles
      {
        if e in KeptAll(appList, list, query, p) {
          var i :| 0 <= i < |p| && p[i].app == e.app && forall r :: r in e.roles ==> r in p[i].roles;
          assert items[i] == p[i];
        } else {
          assert e in Kept(appList, list, query, last);
          assert items[|items| - 1] == last;
        }
      }
    }
  }

  // ---- the loading flags ----

  /**
   * The four flags that decide what the tab renders: the parent's group-details flag and the
   * component's flags for the assigned roles, all roles and the application list.
   */
  datatype Loading = Loading(groupDetails: bool, assignedRoles: bool, applicationRoles: bool, applications: bool)

  /** The role lists, with their search field, render instead of the placeholder. */
  predicate RendersRoleLists(l: Loading)
  {
    !l.groupDetails && !l.assignedRoles && !l.applications
  }

  /** The assign-roles modal can open: the application list and all roles have settled. */
  predicate RendersAssignModal(l: Loading)
  {
    !l.applications && !l.applicationRoles
  }

  /** What happens to the flags. */
  datatype LoadEvent =
    | GroupDetailsLoading(loading: bool)
    | RoleRequestsStarted
    | AssignedRolesSettled
    | AllRolesSettled
    | ApplicationListSettled(loaded: bool)

  /**
   * One event on the flags as the component handles it: the two role requests raise their flags
   * when they start and lower them in `finally`; the application list flag is lowered only when the
   * list arrives, since the failure path only raises an alert.
   */
  function Step(l: Loading, e: LoadEvent): Loading
  {
    match e
    case GroupDetailsLoading(b) => l.(groupDetails := b)
    case RoleRequestsStarted => l.(assignedRoles := true, applicationRoles := true)
    case AssignedRolesSettled => l.(assignedRoles := false)
    case AllRolesSettled => l.(applicationRoles := false)
    case ApplicationListSettled(loaded) => if loaded then l.(applications := false) else l
  }

  /** The same step with the application list flag lowered on every outcome. */
  function StepWithFinally(l: Loading, e: LoadEvent): Loading
  {
    match e
    case ApplicationListSettled(_) => l.(applications := false)
    case _ => Step(l, e)
  }

  function Run(l: Loading, es: seq<LoadEvent>): Loading
    decreases |es|
  {
    if es == [] then l else Run(Step(l, es[0]), es[1..])
  }

  function RunWithFinally(l: Loading, es: seq<LoadEvent>): Loading
    decreases |es|
  {
    if es == [] then l else RunWithFinally(StepWithFinally(l, es[0]), es[1..])
  }

  /** The flags of a fresh mount: every request pending, the group details as the parent says. */
  function InitialLoading(groupDetails: bool): Loading
  {
    Loading(groupDetails, true, true, true)
  }

  /**
   * As long as the application list has not arrived, whatever else happens, neither the role
   * lists nor the assign modal ever render: a failed application request leaves the tab loading.
   */
  lemma {:induction false} PendingApplicationListHidesTab(l: Loading, es: seq<LoadEvent>)
    requires l.applications
    requires forall i :: 0 <= i < |es| ==> es[i] != ApplicationListSettled(true)
    ensures Run(l, es).applications
    ensures !RendersRoleLists(Run(l, es)) && !RendersAssignModal(Run(l, es))
    decreases |es|
  {
    if es != [] {
      assert Step(l, es[0]).applications;
      PendingApplicationListHidesTab(Step(l, es[0]), es[1..]);
    }
  }

  /** The whole sequence of a mount whose requests all settle, the application list with `loaded`. */
  function MountSettles(loaded: bool): seq<LoadEvent>
  {
    [ApplicationListSettled(loaded), RoleRequestsStarted, AssignedRolesSettled, AllRolesSettled, GroupDetailsLoading(false)]
  }

  /** As written, a mount whose application request fails never shows the lists or the modal. */
  lemma FailedApplicationListNeverRenders(groupDetails: bool)
    ensures !RendersRoleLists(Run(InitialLoading(groupDetails), MountSettles(false)))
    ensures !RendersAssignModal(Run(InitialLoading(groupDetails), MountSettles(false)))
  {
    PendingApplicationListHidesTab(InitialLoading(groupDetails), MountSettles(false));
  }

  /** With the flag lowered on every outcome, a mount whose requests all settle shows both. */
  lemma SettledMountRendersWithFinally(groupDetails: bool, loaded: bool)
    ensures RendersRoleLists(RunWithFinally(InitialLoading(groupDetails), MountSettles(loaded)))
    ensures RendersAssignModal(RunWithFinally(InitialLoading(groupDetails), MountSettles(loaded)))
  {
  }

  /** The application list request is the only event that differs between the two versions. */
  lemma {:induction false} FinallyOnlyChangesApplicationOutcome(l: Loading, es: seq<LoadEvent>)
    requires forall i :: 0 <= i < |es| ==> es[i] != ApplicationListSettled(false)
    ensures RunWithFinally(l, es) == Run(l, es)
    decreases |es|
  {
    if es != [] {
      assert StepWithFinally(l, es[0]) == Step(l, es[0]);
      FinallyOnlyChangesApplicationOutcome(Step(l, es[0]), es[1..]);
    }
  }

  // ---- a refetch of the assigned roles ----

  /**
   * What an assigned-roles response does to the key lists: `checked` takes the response's keys while
   * `added` and `removed` keep whatever earlier clicks left in them.
   */
  function AfterAssignedRoles(d: Diff, list: seq<ApplicationRole>): Diff
  {
    Diff(QualifiedKeys(list), d.added, d.removed)
  }

  /**
   * A save followed by the refetch of the group: a role added and saved is part of the new baseline
   * but stays in `added`, so the state is no longer consistent with the baseline, and unchecking the
   * role afterwards only drops it from `added`: the next save sends no removal for it.
   */
  lemma RefetchAfterSaveKeepsStaleAdded()
    ensures var key := QualifiedKey("app", "role");
      var saved := [ApplicationRole("app", [Role("role")])];
      var refetched := AfterAssignedRoles(Toggle(Start([]), key), saved);
      && !Consistent(refetched, set k | k in QualifiedKeys(saved))
      && key !in Toggle(refetched, key).checked
      && GroupByApp(Toggle(refetched, key).removed) == []
  {
    var key := QualifiedKey("app", "role");
    var saved := [ApplicationRole("app", [Role("role")])];
    assert QualifiedKeys(saved) == QualifiedKeys([]) + RoleKeys("app", [Role("role")]);
    assert QualifiedKeys(saved) == [key];
    var refetched := AfterAssignedRoles(Toggle(Start([]), key), saved);
    assert key in refetched.added && key in (set k | k in QualifiedKeys(saved));
    assert Toggle(refetched, key).removed == [];
  }

  /** The response handled as a fresh baseline: the pending changes are discarded. */
  function AfterAssignedRolesWithReset(list: seq<ApplicationRole>): Diff
  {
    Start(QualifiedKeys(list))
  }

  /** With the reset, any clicks after any refetch stay consistent with the refetched baseline. */
  lemma RefetchWithResetConsistent(list: seq<ApplicationRole>, clicks: seq<string>)
    ensures Consistent(ToggleAll(AfterAssignedRolesWithReset(list), clicks), set k | k in QualifiedKeys(list))
  {
    FromStartConsistent(QualifiedKeys(list), clicks);
  }

  // ---- the component ----

  /** The two role lists of the tab: all roles of the organization, and the group's assigned roles. */
  datatype Pane = AllRoles | AssignedRoles

  class GroupRolesEditor {
    var isGroupDetailsRequestLoading: bool
    var isAssignedRolesFetchRequestLoading: bool
    var isApplicationRolesFetchRequestLoading: bool
    var isApplicationsFetchRequestLoading: bool
    var appList: Option<seq<Application>>
    var allApplicationRoleList: seq<ApplicationRole>
    var allFilteredApplicationRoleList: seq<ApplicationRole>
    var selectedApplicationRoleList: seq<ApplicationRole>
    var selectedFilteredApplicationRoleList: seq<ApplicationRole>
    var checkedRoles: seq<string>
    var addedRoles: seq<string>
    var removedRoles: seq<string>
    var expandedApplications: seq<string>
    var expandedAssignedApplications: seq<string>

    /** The three key lists of the checkboxes. */
    function Keys(): Diff
      reads this
    {
      Diff(checkedRoles, addedRoles, removedRoles)
    }

    /** The four loading flags. */
    function Flags(): Loading
      reads this
    {
      Loading(isGroupDetailsRequestLoading, isAssignedRolesFetchRequestLoading,
              isApplicationRolesFetchRequestLoading, isApplicationsFetchRequestLoading)
    }

    /** Once the application-list flag is down, the list is defined. */
    ghost predicate Valid()
      reads this
    {
      !isApplicationsFetchRequestLoading ==> appList.Some?
    }

    /**
     * Every list starts empty, the application list is `undefined` and every request of the
     * component is pending; the group-details flag is the parent's.
     */
    constructor(groupDetailsLoading: bool)
      ensures Valid() && Flags() == InitialLoading(groupDetailsLoading)
      ensures appList == None && allApplicationRoleList == [] && allFilteredApplicationRoleList == []
      ensures selectedApplicationRoleList == [] && selectedFilteredApplicationRoleList == []
      ensures Keys() == Diff([], [], [])
      ensures expandedApplications == [] && expandedAssignedApplications == []
    {
      isGroupDetailsRequestLoading := groupDetailsLoading;
      isAssignedRolesFetchRequestLoading := true;
      isApplicationRolesFetchRequestLoading := true;
      isApplicationsFetchRequestLoading := true;
      appList := None;
      allApplicationRoleList := [];
      allFilteredApplicationRoleList := [];
      selectedApplicationRoleList := [];
      selectedFilteredApplicationRoleList := [];
      checkedRoles := [];
      addedRoles := [];
      removedRoles := [];
      expandedApplications := [];
      expandedAssignedApplications := [];
    }

    /** The parent's `isGroupDetailsRequestLoading` prop changes. */
    method SetGroupDetailsLoading(loading: bool)
      requires Valid()
      modifies this
      ensures Valid()
      ensures Flags() == Step(old(Flags()), GroupDetailsLoading(loading))
      ensures appList == old(appList)
      ensures allApplicationRoleList == old(allApplicationRoleList)
      ensures allFilteredApplicationRoleList == old(allFilteredApplicationRoleList)
      ensures selectedApplicationRoleList == old(selectedApplicationRoleList)
      ensures selectedFilteredApplicationRoleList == old(selectedFilteredApplicationRoleList)
      ensures Keys() == old(Keys())
      ensures expandedApplications == old(expandedApplications)
      ensures expandedAssignedApplications == old(expandedAssignedApplications)
    {
      isGroupDetailsRequestLoading := loading;
    }

    /** The effect on `group`: both role requests start and raise their flags; nothing else changes. */
    method RequestGroupRoles()
      requires Valid()
      modifies this
      ensures Valid()
      ensures Flags() == Step(old(Flags()), RoleRequestsStarted)
      ensures appList == old(appList)
      ensures allApplicationRoleList == old(allApplicationRoleList)
      ensures allFilteredApplicationRoleList == old(allFilteredApplicationRoleList)
      ensures selectedApplicationRoleList == old(selectedApplicationRoleList)
      ensures selectedFilteredApplicationRoleList == old(selectedFilteredApplicationRoleList)
      ensures Keys() == old(Keys())
      ensures expandedApplications == old(expandedApplications)
      ensures expandedAssignedApplications == old(expandedAssignedApplications)
    {
      isAssignedRolesFetchRequestLoading := true;
      isApplicationRolesFetchRequestLoading := true;
    }

    /**
     * The application list request. The list and the lowered flag come only with a response; a
     * failure only raises an alert, so a pending flag stays up and the tab keeps loading.
     */
    method ReceiveApplicationList(response: Fetch<seq<Application>>)
      requires Valid()
      modifies this
      ensures Valid()
      ensures appList == if response.Loaded? then Some(response.value) else old(appList)
      ensures Flags() == Step(old(Flags()), ApplicationListSettled(response.Loaded?))
      ensures response.Failed? && old(isApplicationsFetchRequestLoading) ==>
        !RendersRoleLists(Flags()) && !RendersAssignModal(Flags())
      ensures allApplicationRoleList == old(allApplicationRoleList)
      ensures allFilteredApplicationRoleList == old(allFilteredApplicationRoleList)
      ensures selectedApplicationRoleList == old(selectedApplicationRoleList)
      ensures selectedFilteredApplicationRoleList == old(selectedFilteredApplicationRoleList)
      ensures Keys() == old(Keys())
      ensures expandedApplications == old(expandedApplications)
      ensures expandedAssignedApplications == old(expandedAssignedApplications)
    {
      if response.Loaded? {
        appList := Some(response.value);
        isApplicationsFetchRequestLoading := false;
      }
    }

    /**
     * The assigned roles request. On success the assigned lists take the response, the checkboxes the
     * response's keys and every assigned application is expanded; `added` and `removed` are left as
     * they are. A failure with a description changes nothing; any other failure empties the lists.
     */
    method ReceiveAssignedRoles(response: Fetch<seq<ApplicationRole>>)
      requires Valid()
      modifies this
      ensures Valid()
      ensures response.Loaded? ==>
        && selectedApplicationRoleList == response.value
        && selectedFilteredApplicationRoleList == response.value
        && Keys() == AfterAssignedRoles(old(Keys()), response.value)
        && expandedAssignedApplications == Apps(response.value)
      ensures response == Failed(true) ==>
        && selectedApplicationRoleList == old(selectedApplicationRoleList)
        && selectedFilteredApplicationRoleList == old(selectedFilteredApplicationRoleList)
      ensures response == Failed(false) ==>
        selectedApplicationRoleList == [] && selectedFilteredApplicationRoleList == []
      ensures response.Failed? ==>
        Keys() == old(Keys()) && expandedAssignedApplications == old(expandedAssignedApplications)
      ensures !isAssignedRolesFetchRequestLoading
      ensures unchanged(this`isGroupDetailsRequestLoading, this`isApplicationRolesFetchRequestLoading)
      ensures unchanged(this`isApplicationsFetchRequestLoading)
      ensures Flags() == Step(old(Flags()), AssignedRolesSettled)
      ensures appList == old(appList)
      ensures allApplicationRoleList == old(allApplicationRoleList)
      ensures allFilteredApplicationRoleList == old(allFilteredApplicationRoleList)
      ensures expandedApplications == old(expandedApplications)
    {
      match response {
        case Loaded(list) =>
          selectedApplicationRoleList := list;
          selectedFilteredApplicationRoleList := list;
          checkedRoles := AddCheckedRoles(list);
          expandedAssignedApplications := DefaultExpandedApps(list);
        case Failed(hasDescription) =>
          if !hasDescription {
            selectedApplicationRoleList := [];
            selectedFilteredApplicationRoleList := [];
          }
      }
      isAssignedRolesFetchRequestLoading := false;
    }

    /**
     * The request for all roles of the organization: on success both lists take the response and
     * every application is expanded; a failure without a description empties both lists.
     */
    method ReceiveAllRoles(response: Fetch<seq<ApplicationRole>>)
      requires Valid()
      modifies this
      ensures Valid()
      ensures response.Loaded? ==>
        && allApplicationRoleList == response.value
        && allFilteredApplicationRoleList == response.value
        && expandedApplications == Apps(response.value)
      ensures response == Failed(true) ==>
        && allApplicationRoleList == old(allApplicationRoleList)
        && allFilteredApplicationRoleList == old(allFilteredApplicationRoleList)
      ensures response == Failed(false) ==>
        allApplicationRoleList == [] && allFilteredApplicationRoleList == []
      ensures response.Failed? ==> expandedApplications == old(expandedApplications)
      ensures !isApplicationRolesFetchRequestLoading
      ensures unchanged(this`isGroupDetailsRequestLoading, this`isAssignedRolesFetchRequestLoading)
      ensures unchanged(this`isApplicationsFetchRequestLoading)
      ensures Flags() == Step(old(Flags()), AllRolesSettled)
      ensures appList == old(appList)
      ensures selectedApplicationRoleList == old(selectedApplicationRoleList)
      ensures selectedFilteredApplicationRoleList == old(selectedFilteredApplicationRoleList)
      ensures Keys() == old(Keys())
      ensures expandedAssignedApplications == old(expandedAssignedApplications)
    {
      match response {
        case Loaded(list) =>
          allApplicationRoleList := list;
          allFilteredApplicationRoleList := list;
          expandedApplications := DefaultExpandedApps(list);
        case Failed(hasDescription) =>
          if !hasDescription {
            allApplicationRoleList := [];
            allFilteredApplicationRoleList := [];
          }
      }
      isApplicationRolesFetchRequestLoading := false;
    }

    /** `handleCheckboxChange`: the key "appId:roleName" is toggled in the three key lists. */
    method HandleCheckboxChange(appId: string, roleName: string)
      requires Valid()
      modifies this
      ensures Valid()
      ensures Keys() == Toggle(old(Keys()), QualifiedKey(appId, roleName))
      ensures unchanged(this`isGroupDetailsRequestLoading, this`isAssignedRolesFetchRequestLoading)
      ensures unchanged(this`isApplicationRolesFetchRequestLoading, this`isApplicationsFetchRequestLoading)
      ensures appList == old(appList)
      ensures allApplicationRoleList == old(allApplicationRoleList)
      ensures allFilteredApplicationRoleList == old(allFilteredApplicationRoleList)
      ensures selectedApplicationRoleList == old(selectedApplicationRoleList)
      ensures selectedFilteredApplicationRoleList == old(selectedFilteredApplicationRoleList)
      ensures expandedApplications == old(expandedApplications)
      ensures expandedAssignedApplications == old(expandedAssignedApplications)
    {
      var key := QualifiedKey(appId, roleName);
      if key in checkedRoles {
        checkedRoles := RemoveAll(checkedRoles, key);
        if key in addedRoles {
          addedRoles := RemoveAll(addedRoles, key);
        } else {
          removedRoles := removedRoles + [key];
        }
      } else {
        checkedRoles := checkedRoles + [key];
        if key in removedRoles {
          removedRoles := RemoveAll(removedRoles, key);
        } else {
          addedRoles := addedRoles + [key];
        }
      }
    }

    /** `handleAccordionTitleClick` on one of the two lists. */
    method HandleAccordionTitleClick(pane: Pane, app: string)
      requires Valid()
      modifies this
      ensures Valid()
      ensures pane == AllRoles ==>
        expandedApplications == ToggleMember(old(expandedApplications), app)
        && expandedAssignedApplications == old(expandedAssignedApplications)
      ensures pane == AssignedRoles ==>
        expandedAssignedApplications == ToggleMember(old(expandedAssignedApplications), app)
        && expandedApplications == old(expandedApplications)
      ensures unchanged(this`isGroupDetailsRequestLoading, this`isAssignedRolesFetchRequestLoading)
      ensures unchanged(this`isApplicationRolesFetchRequestLoading, this`isApplicationsFetchRequestLoading)
      ensures appList == old(appList)
      ensures allApplicationRoleList == old(allApplicationRoleList)
      ensures allFilteredApplicationRoleList == old(allFilteredApplicationRoleList)
      ensures selectedApplicationRoleList == old(selectedApplicationRoleList)
      ensures selectedFilteredApplicationRoleList == old(selectedFilteredApplicationRoleList)
      ensures Keys() == old(Keys())
    {
      if pane == AllRoles {
        expandedApplications := ToggleMember(expandedApplications, app);
      } else {
        expandedAssignedApplications := ToggleMember(expandedAssignedApplications, app);
      }
    }

    /**
     * `handleSearchFieldChange` on one of the two lists: a non-empty query filters the unfiltered
     * list of that pane, an empty one restores it with every application expanded. The filter reads
     * the application list, which is defined wherever a search field renders (`Valid` and the
     * render predicates: both need the application-list flag down).
     */
    method HandleSearchFieldChange(pane: Pane, query: string)
      requires appList.Some?
      requires Valid()
      modifies this
      ensures Valid()
      ensures var list := if pane == AllRoles then old(allApplicationRoleList) else old(selectedApplicationRoleList);
        var filtered := if |query| > 0 then KeptAll(old(appList).value, list, query, list) else list;
        var expanded := if |query| > 0 then ExpandedAll(query, list) else Apps(list);
        if pane == AllRoles then
          && allFilteredApplicationRoleList == filtered && expandedApplications == expanded
          && selectedFilteredApplicationRoleList == old(selectedFilteredApplicationRoleList)
          && expandedAssignedApplications == old(expandedAssignedApplications)
        else
          && selectedFilteredApplicationRoleList == filtered && expandedAssignedApplications == expanded
          && allFilteredApplicationRoleList == old(allFilteredApplicationRoleList)
          && expandedApplications == old(expandedApplications)
      ensures unchanged(this`isGroupDetailsRequestLoading, this`isAssignedRolesFetchRequestLoading)
      ensures unchanged(this`isApplicationRolesFetchRequestLoading, this`isApplicationsFetchRequestLoading)
      ensures appList == old(appList)
      ensures allApplicationRoleList == old(allApplicationRoleList)
      ensures selectedApplicationRoleList == old(selectedApplicationRoleList)
      ensures Keys() == old(Keys())
    {
      var list := if pane == AllRoles then allApplicationRoleList else selectedApplicationRoleList;
      var filtered, expanded;
      if |query| > 0 {
        var result := SearchFilter(appList.value, list, query);
        filtered, expanded := result.value.filtered, result.value.expanded;
      } else {
        filtered := list;
        expanded := DefaultExpandedApps(list);
      }
      if pane == AllRoles {
        allFilteredApplicationRoleList, expandedApplications := filtered, expanded;
      } else {
        selectedFilteredApplicationRoleList, expandedAssignedApplications := filtered, expanded;
      }
    }

    /** `updateGroupRolesList`: the payload sent on save, the added and removed keys regrouped. */
    method UpdateGroupRolesList() returns (payload: GroupRolePayload)
      ensures payload.addedRoles == GroupByApp(addedRoles) && payload.removedRoles == GroupByApp(removedRoles)
    {
      var orderedAddedRoles := GetOrderedRoleList(addedRoles);
      var orderedRemovedRoles := GetOrderedRoleList(removedRoles);
      payload := GroupRolePayload(orderedAddedRoles, orderedRemovedRoles);
    }
  }
}
