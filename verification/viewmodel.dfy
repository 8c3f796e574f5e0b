/** The app list screen's state holder: the installed apps, the filter choices and the scroll position,
    and the list it shows, which is the installed apps filtered by type and search query and then
    sorted (`filterAndSortApps`). */
module AppList {
  import opened Strings
  import opened AppModel

  // ---------------------------------------------------------------------------------------------
  // Filtering
  // ---------------------------------------------------------------------------------------------

  /** The `appFilter` test: every app under `All`, only apps that are not system apps otherwise. */
  predicate PassesTypeFilter(appFilter: AppFilter, app: AppInfo) {
    appFilter.All? || !app.isSystemApp
  }

  /** The search test: a blank query lets everything through; otherwise the lower-cased name or package
      name must contain the lower-cased query. */
  predicate MatchesQuery(query: string, app: AppInfo) {
    || IsBlank(query)
    || Contains(Lowercase(app.appName), Lowercase(query))
    || Contains(Lowercase(app.packageName), Lowercase(query))
  }

  /** Lower-casing neither creates nor removes whitespace. */
  lemma LowerCharWhitespace(c: char)
    ensures IsWhitespace(LowerChar(c)) == IsWhitespace(c)
  {
  }

  /** The search is case-insensitive: two queries that differ only in the case of their letters let the
      same apps through. */
  lemma SearchCaseInsensitive(q1: string, q2: string, app: AppInfo)
    requires Lowercase(q1) == Lowercase(q2)
    ensures MatchesQuery(q1, app) == MatchesQuery(q2, app)
  {
    assert |q1| == |q2|;
    forall i | 0 <= i < |q1| ensures IsWhitespace(q1[i]) == IsWhitespace(q2[i]) {
      assert Lowercase(q1)[i] == Lowercase(q2)[i];
      LowerCharWhitespace(q1[i]);
      LowerCharWhitespace(q2[i]);
    }
  }

  /** The `when (filterState.appFilter)` step: `filter { !it.isSystemApp }` under `UserAppsOnly`. */
  function TypeFilter(appFilter: AppFilter, apps: seq<AppInfo>): (r: seq<AppInfo>)
    ensures forall x :: multiset(r)[x] == if PassesTypeFilter(appFilter, x) then multiset(apps)[x] else 0
  {
    if apps == [] then []
    else
      assert apps == [apps[0]] + apps[1..];
      (if PassesTypeFilter(appFilter, apps[0]) then [apps[0]] else []) + TypeFilter(appFilter, apps[1..])
  }

  /** The search step: no filtering for a blank query, else `filter` by name or package name. */
  function SearchFilter(query: string, apps: seq<AppInfo>): (r: seq<AppInfo>)
    ensures forall x :: multiset(r)[x] == if MatchesQuery(query, x) then multiset(apps)[x] else 0
  {
    if IsBlank(query) || apps == [] then apps
    else
      assert apps == [apps[0]] + apps[1..];
      (if MatchesQuery(query, apps[0]) then [apps[0]] else []) + SearchFilter(query, apps[1..])
  }

  /** An app that passes both filters. */
  predicate Shown(state: FilterState, app: AppInfo) {
    PassesTypeFilter(state.appFilter, app) && MatchesQuery(state.searchQuery, app)
  }

  /** The apps that survive both filters, in their original order. */
  function Selected(state: FilterState, apps: seq<AppInfo>): seq<AppInfo> {
    SearchFilter(state.searchQuery, TypeFilter(state.appFilter, apps))
  }

  // ---------------------------------------------------------------------------------------------
  // Sorting
  // ---------------------------------------------------------------------------------------------

  /** `a` may precede `b` under `order`: the selector of `sortedBy` compared ascending, or that of
      `sortedByDescending` compared descending. Names compare lower-cased. */
  predicate KeyLe(order: SortOrder, a: AppInfo, b: AppInfo) {
    match order
    case NameAsc => LexLe(Lowercase(a.appName), Lowercase(b.appName))
    case NameDesc => LexLe(Lowercase(b.appName), Lowercase(a.appName))
    case InstallDateAsc => a.installTime <= b.installTime
    case InstallDateDesc => b.installTime <= a.installTime
    case UpdateDateDesc => b.updateTime <= a.updateTime
    case SizeDesc => b.appSize <= a.appSize
  }

  /** `a` and `b` have equal sort keys. */
  predicate SameKey(order: SortOrder, a: AppInfo, b: AppInfo) {
    KeyLe(order, a, b) && KeyLe(order, b, a)
  }

  lemma KeyLeTotal(order: SortOrder, a: AppInfo, b: AppInfo)
    ensures KeyLe(order, a, b) || KeyLe(order, b, a)
  {
    if order.NameAsc? || order.NameDesc? {
      LexLeTotal(Lowercase(a.appName), Lowercase(b.appName));
    }
  }

  lemma KeyLeTransitive(order: SortOrder, a: AppInfo, b: AppInfo, c: AppInfo)
    requires KeyLe(order, a, b) && KeyLe(order, b, c)
    ensures KeyLe(order, a, c)
  {
    if order.NameAsc? {
      LexLeTransitive(Lowercase(a.appName), Lowercase(b.appName), Lowercase(c.appName));
    } else if order.NameDesc? {
      LexLeTransitive(Lowercase(c.appName), Lowercase(b.appName), Lowercase(a.appName));
    }
  }

  /** The list is ordered by `order`: every app may precede every later one. */
  predicate Sorted(order: SortOrder, apps: seq<AppInfo>) {
    forall i, j :: 0 <= i < j < |apps| ==> KeyLe(order, apps[i], apps[j])
  }

  /** The apps of `apps` whose key equals that of `a`, in order. */
  function WithKeyOf(order: SortOrder, a: AppInfo, apps: seq<AppInfo>): seq<AppInfo> {
    if apps == [] then []
    else (if SameKey(order, apps[0], a) then [apps[0]] else []) + WithKeyOf(order, a, apps[1..])
  }

  /** `x` placed into the sorted list `apps` in front of the first app it may precede. */
  function Insert(order: SortOrder, x: AppInfo, apps: seq<AppInfo>): (r: seq<AppInfo>)
    ensures multiset(r) == multiset(apps) + multiset{x}
    ensures |r| == |apps| + 1
  {
    if apps == [] then [x]
    else if KeyLe(order, x, apps[0]) then [x] + apps
    else
      assert apps == [apps[0]] + apps[1..];
      [apps[0]] + Insert(order, x, apps[1..])
  }

  /** Kotlin's stable `sortedBy` / `sortedByDescending`, as an insertion sort. */
  function Sort(order: SortOrder, apps: seq<AppInfo>): (r: seq<AppInfo>)
    ensures multiset(r) == multiset(apps)
  {
    if apps == [] then []
    else
      assert apps == [apps[0]] + apps[1..];
      Insert(order, apps[0], Sort(order, apps[1..]))
  }

  lemma SortedTail(order: SortOrder, apps: seq<AppInfo>)
    requires Sorted(order, apps) && apps != []
    ensures Sorted(order, apps[1..])
  {
    var t := apps[1..];
    forall i, j | 0 <= i < j < |t| ensures KeyLe(order, t[i], t[j]) {
      assert t[i] == apps[i + 1] && t[j] == apps[j + 1];
    }
  }

  lemma {:induction false} InsertSorted(order: SortOrder, x: AppInfo, apps: seq<AppInfo>)
    requires Sorted(order, apps)
    ensures Sorted(order, Insert(order, x, apps))
  {
    if apps != [] {
      if KeyLe(order, x, apps[0]) {
        var r := [x] + apps;
        forall i, j | 0 <= i < j < |r| ensures KeyLe(order, r[i], r[j]) {
          if i == 0 && j > 1 {
            KeyLeTransitive(order, x, apps[0], r[j]);
          }
        }
      } else {
        KeyLeTotal(order, x, apps[0]);
        var rest := Insert(order, x, apps[1..]);
        SortedTail(order, apps);
        InsertSorted(order, x, apps[1..]);
        var r := [apps[0]] + rest;
        forall k | 0 <= k < |rest| ensures KeyLe(order, apps[0], rest[k]) {
          assert rest[k] in multiset(apps[1..]) + multiset{x};
          if rest[k] != x {
            var m :| 0 <= m < |apps[1..]| && apps[1..][m] == rest[k];
            assert apps[m + 1] == rest[k];
          }
        }
        assert Sorted(order, r);
      }
    }
  }

  /** The sorted list is ordered by `order`. */
  lemma {:induction false} SortSorted(order: SortOrder, apps: seq<AppInfo>)
    ensures Sorted(order, Sort(order, apps))
  {
    if apps != [] {
      SortSorted(order, apps[1..]);
      InsertSorted(order, apps[0], Sort(order, apps[1..]));
    }
  }

  lemma WithKeyOfCons(order: SortOrder, a: AppInfo, h: AppInfo, t: seq<AppInfo>)
    ensures WithKeyOf(order, a, [h] + t) == (if SameKey(order, h, a) then [h] else []) + WithKeyOf(order, a, t)
  {
    assert ([h] + t)[1..] == t;
  }

  /** Inserting `x` keeps the relative order of the apps with any one key, and puts `x` first among
      those with its own key. */
  lemma {:induction false} InsertStable(order: SortOrder, x: AppInfo, apps: seq<AppInfo>, a: AppInfo)
    requires Sorted(order, apps)
    ensures WithKeyOf(order, a, Insert(order, x, apps)) == WithKeyOf(order, a, [x] + apps)
  {
    if apps != [] && !KeyLe(order, x, apps[0]) {
      var h, t := apps[0], apps[1..];
      assert apps == [h] + t;
      SortedTail(order, apps);
      InsertStable(order, x, t, a);
      var A0 := if SameKey(order, h, a) then [h] else [];
      var X := if SameKey(order, x, a) then [x] else [];
      // x sorts strictly after h, so the two never share a key
      assert A0 == [] || X == [] by {
        if SameKey(order, x, a) && SameKey(order, h, a) {
          KeyLeTransitive(order, x, a, h);
        }
      }
      calc {
        WithKeyOf(order, a, Insert(order, x, apps));
        WithKeyOf(order, a, [h] + Insert(order, x, t));
        { WithKeyOfCons(order, a, h, Insert(order, x, t)); }
        A0 + WithKeyOf(order, a, Insert(order, x, t));
        A0 + WithKeyOf(order, a, [x] + t);
        { WithKeyOfCons(order, a, x, t); }
        A0 + (X + WithKeyOf(order, a, t));
        { assert A0 + X == X + A0; }
        X + (A0 + WithKeyOf(order, a, t));
        { WithKeyOfCons(order, a, h, t); }
        X + WithKeyOf(order, a, apps);
        { WithKeyOfCons(order, a, x, apps); }
        WithKeyOf(order, a, [x] + apps);
      }
    }
  }

  /** The sort is stable: for every key, the apps with that key come out in their input order. */
  lemma {:induction false} SortStable(order: SortOrder, apps: seq<AppInfo>, a: AppInfo)
    ensures WithKeyOf(order, a, Sort(order, apps)) == WithKeyOf(order, a, apps)
  {
    if apps != [] {
      SortStable(order, apps[1..], a);
      SortSorted(order, apps[1..]);
      InsertStable(order, apps[0], Sort(order, apps[1..]), a);
      assert apps == [apps[0]] + apps[1..];
      assert WithKeyOf(order, a, [apps[0]] + Sort(order, apps[1..])) ==
        (if SameKey(order, apps[0], a) then [apps[0]] else []) + WithKeyOf(order, a, Sort(order, apps[1..]));
    }
  }

  // ---------------------------------------------------------------------------------------------
  // filterAndSortApps
  // ---------------------------------------------------------------------------------------------

  /** `filterAndSortApps`: type filter, then search filter, then the chosen sort. */
  function FilterAndSortApps(apps: seq<AppInfo>, state: FilterState): (r: seq<AppInfo>)
    ensures multiset(r) == multiset(Selected(state, apps))
    ensures forall x :: multiset(r)[x] == if Shown(state, x) then multiset(apps)[x] else 0
  {
    Sort(state.sortOrder, Selected(state, apps))
  }

  /** The shown list is a rearrangement of part of the input: no app appears more often than it does in
      the input. */
  lemma FilterAndSortSubMultiset(apps: seq<AppInfo>, state: FilterState)
    ensures multiset(FilterAndSortApps(apps, state)) <= multiset(apps)
  {
    var r := FilterAndSortApps(apps, state);
    forall x ensures multiset(r)[x] <= multiset(apps)[x] {
    }
  }

  /** Every shown app passes the type filter and the search. */
  lemma FilterAndSortSound(apps: seq<AppInfo>, state: FilterState)
    ensures forall x :: x in FilterAndSortApps(apps, state) ==>
      && x in apps
      && (state.appFilter.UserAppsOnly? ==> !x.isSystemApp)
      && (!IsBlank(state.searchQuery) ==>
            Contains(Lowercase(x.appName), Lowercase(state.searchQuery)) ||
            Contains(Lowercase(x.packageName), Lowercase(state.searchQuery)))
  {
    var r := FilterAndSortApps(apps, state);
    forall x | x in r ensures x in apps && PassesTypeFilter(state.appFilter, x) && MatchesQuery(state.searchQuery, x) {
      assert multiset(r)[x] > 0;
    }
  }

  /** Every input app that passes the type filter and the search is shown, as often as it occurs. */
  lemma FilterAndSortComplete(apps: seq<AppInfo>, state: FilterState)
    ensures forall x :: x in apps && PassesTypeFilter(state.appFilter, x) && MatchesQuery(state.searchQuery, x) ==>
      x in FilterAndSortApps(apps, state)
  {
    var r := FilterAndSortApps(apps, state);
    forall x | x in apps && PassesTypeFilter(state.appFilter, x) && MatchesQuery(state.searchQuery, x)
      ensures x in r
    {
      assert multiset(apps)[x] > 0;
    }
  }

  /** Under `All` with a blank query nothing is dropped: the shown list is a permutation of the input. */
  lemma FilterAndSortKeepsAll(apps: seq<AppInfo>, state: FilterState)
    requires state.appFilter.All? && IsBlank(state.searchQuery)
    ensures multiset(FilterAndSortApps(apps, state)) == multiset(apps)
  {
    var r := FilterAndSortApps(apps, state);
    assert forall x :: multiset(r)[x] == multiset(apps)[x];
  }

  /** The shown list is ordered by the chosen sort order. */
  lemma FilterAndSortOrdered(apps: seq<AppInfo>, state: FilterState)
    ensures Sorted(state.sortOrder, FilterAndSortApps(apps, state))
  {
    SortSorted(state.sortOrder, Selected(state, apps));
  }

  /** Apps with equal sort keys are shown in the order the filters left them in. */
  lemma FilterAndSortStable(apps: seq<AppInfo>, state: FilterState, a: AppInfo)
    ensures WithKeyOf(state.sortOrder, a, FilterAndSortApps(apps, state)) ==
      WithKeyOf(state.sortOrder, a, Selected(state, apps))
  {
    SortStable(state.sortOrder, Selected(state, apps), a);
  }

  /** Choosing another sort order only rearranges the shown apps. */
  lemma SortOrderOnlyReorders(apps: seq<AppInfo>, state: FilterState, order: SortOrder)
    ensures multiset(FilterAndSortApps(apps, state.(sortOrder := order))) == multiset(FilterAndSortApps(apps, state))
  {
    assert Selected(state.(sortOrder := order), apps) == Selected(state, apps);
  }

  // ---------------------------------------------------------------------------------------------
  // The view model
  // ---------------------------------------------------------------------------------------------

  /** `AppListViewModel` without its flows: the current values of `_allApps`, `_filterState` and
      `_scrollPosition`; `apps` is derived from the first two. */
  class AppListViewModel {
    var allApps: seq<AppInfo>
    var filterState: FilterState
    var scrollPosition: int

    constructor()
      ensures allApps == [] && filterState == FilterState() && scrollPosition == 0
    {
      allApps := [];
      filterState := FilterState();
      scrollPosition := 0;
    }

    /** The `apps` flow: the installed apps filtered and sorted by the current choices. */
    function Apps(): (r: seq<AppInfo>)
      reads this
      ensures multiset(r) <= multiset(allApps)
      ensures Sorted(filterState.sortOrder, r)
    {
      FilterAndSortSubMultiset(allApps, filterState);
      FilterAndSortOrdered(allApps, filterState);
      FilterAndSortApps(allApps, filterState)
    }

    /** The store into `_allApps` of `loadApps`: the installed apps on success, the empty list when
        listing them fails. Only the app list changes. */
    method SetApps(apps: seq<AppInfo>)
      modifies this
      ensures allApps == apps
      ensures filterState == old(filterState) && scrollPosition == old(scrollPosition)
      ensures multiset(Apps()) == multiset(Selected(filterState, apps))
    {
      allApps := apps;
    }

    /** `updateSortOrder`: replaces the sort order and nothing else, so the shown apps are only
        rearranged. */
    method UpdateSortOrder(sortOrder: SortOrder)
      modifies this
      ensures filterState == old(filterState).(sortOrder := sortOrder)
      ensures allApps == old(allApps) && scrollPosition == old(scrollPosition)
      ensures multiset(Apps()) == multiset(old(Apps()))
    {
      SortOrderOnlyReorders(allApps, filterState, sortOrder);
      filterState := filterState.(sortOrder := sortOrder);
    }

    /** `updateAppFilter`: replaces the app filter and nothing else. */
    method UpdateAppFilter(appFilter: AppFilter)
      modifies this
      ensures filterState == old(filterState).(appFilter := appFilter)
      ensures allApps == old(allApps) && scrollPosition == old(scrollPosition)
    {
      filterState := filterState.(appFilter := appFilter);
    }

    /** `updateSearchQuery`: replaces the search query and nothing else. */
    method UpdateSearchQuery(query: string)
      modifies this
      ensures filterState == old(filterState).(searchQuery := query)
      ensures allApps == old(allApps) && scrollPosition == old(scrollPosition)
    {
      filterState := filterState.(searchQuery := query);
    }

    /** `updateScrollPosition`: stores exactly the given position and touches nothing else; the shown
        list stays as it was. */
    method UpdateScrollPosition(position: int)
      modifies this
      ensures scrollPosition == position
      ensures allApps == old(allApps) && filterState == old(filterState)
      ensures Apps() == old(Apps())
    {
      scrollPosition := position;
    }
  }
}
