/**
 * The application service (src/app/core/services/app.service.ts): the state
 * behind the dashboard page (configuration, search text, selected tab,
 * settings) and the lists derived from it: the merged tile list, the tabs,
 * the filtered tiles and lookups by id.
 *
 * The observable streams become functions of a configuration; the subjects
 * the service writes become the fields of the class `AppService`.
 */
module AppService {
  import opened Text
  import opened DashboardModels
  import CategoryService

  // =====================================================================
  // The merged tile list (apps$)
  // =====================================================================

  function AppName(a: SelfhostedApp): string {
    a.name
  }

  /** A bookmark shown as a tile of the "bookmarks" category. */
  function BookmarkAsApp(b: Bookmark): (a: SelfhostedApp)
    ensures a.category == BookmarksCategory.id
    ensures a.id == b.id && a.name == b.name && a.url == b.url && a.tags == b.tags
    ensures a.description == b.description && a.icon == b.icon && a.openNewTab == b.openNewTab
  {
    SelfhostedApp(b.id, b.name, b.description, b.url, b.icon, BookmarksCategory.id, b.openNewTab, b.tags)
  }

  function BookmarkTiles(bookmarks: seq<Bookmark>): (r: seq<SelfhostedApp>)
    ensures |r| == |bookmarks| && forall k :: 0 <= k < |bookmarks| ==> r[k] == BookmarkAsApp(bookmarks[k])
  {
    seq(|bookmarks|, k requires 0 <= k < |bookmarks| => BookmarkAsApp(bookmarks[k]))
  }

  /** `apps$`: the configured applications in their order, then, when
      bookmarks are allowed, the bookmarks as tiles sorted by name.  Only the
      bookmark tiles are sorted. */
  function MergedApps(c: DashboardConfig): (r: seq<SelfhostedApp>)
    ensures |c.applications| <= |r| && r[..|c.applications|] == c.applications
    ensures SortedBy(r[|c.applications|..], AppName)
    ensures c.settings.allowBookmarks ==> multiset(r[|c.applications|..]) == multiset(BookmarkTiles(c.bookmarks))
    ensures !c.settings.allowBookmarks ==> r == c.applications
  {
    var tiles := if c.settings.allowBookmarks then SortBy(BookmarkTiles(c.bookmarks), AppName) else [];
    var r := c.applications + tiles;
    assert r[|c.applications|..] == tiles;
    r
  }

  /** Every tile after the configured applications is a bookmark of the
      configuration, in the "bookmarks" category. */
  lemma MergedTailIsBookmarks(c: DashboardConfig, k: nat)
    requires |c.applications| <= k < |MergedApps(c)|
    ensures MergedApps(c)[k].category == BookmarksCategory.id
    ensures exists j :: 0 <= j < |c.bookmarks| && MergedApps(c)[k] == BookmarkAsApp(c.bookmarks[j])
  {
    var r := MergedApps(c);
    var tail := r[|c.applications|..];
    assert c.settings.allowBookmarks;
    assert tail[k - |c.applications|] == r[k];
    assert r[k] in multiset(tail);
    assert r[k] in multiset(BookmarkTiles(c.bookmarks));
    var j :| 0 <= j < |c.bookmarks| && BookmarkTiles(c.bookmarks)[j] == r[k];
  }

  /** With bookmarks allowed, every bookmark has its tile in the list. */
  lemma EveryBookmarkShown(c: DashboardConfig, j: nat)
    requires c.settings.allowBookmarks && j < |c.bookmarks|
    ensures BookmarkAsApp(c.bookmarks[j]) in MergedApps(c)[|c.applications|..]
  {
    var tiles := BookmarkTiles(c.bookmarks);
    assert tiles[j] in multiset(tiles);
  }

  // =====================================================================
  // The tile filter (filterApps)
  // =====================================================================

  /** The test `getAppsByCategory` filters with: the tile's category is the
      one asked for. */
  function OfCategory(categoryId: string): SelfhostedApp -> bool {
    (a: SelfhostedApp) => a.category == categoryId
  }

  /** The category partition: the "apps" tab holds every tile that is not a
      bookmark, any other tab the tiles of its own category. */
  predicate InCategory(app: SelfhostedApp, categoryId: string) {
    if categoryId == AppCategory.id then app.category != BookmarksCategory.id
    else app.category == categoryId
  }

  function Candidates(apps: seq<SelfhostedApp>, categoryId: string, searchAll: bool): (r: seq<SelfhostedApp>)
    ensures forall app :: multiset(r)[app] ==
              if searchAll || InCategory(app, categoryId) then multiset(apps)[app] else 0
  {
    if searchAll then apps
    else
      var inTab := (app: SelfhostedApp) => InCategory(app, categoryId);
      assert forall app :: multiset(Filter(apps, inTab))[app] ==
               if InCategory(app, categoryId) then multiset(apps)[app] else 0 by {
        forall app ensures multiset(Filter(apps, inTab))[app] ==
                             if InCategory(app, categoryId) then multiset(apps)[app] else 0 {
          FilterMultiplicity(apps, inTab, app);
        }
      }
      Filter(apps, inTab)
  }

  /** The text match: the lower-cased query occurs in the lower-cased name,
      description or one of the tags. */
  predicate Matches(app: SelfhostedApp, lowerQuery: string): (r: bool)
    ensures lowerQuery == [] ==> r
  {
    assert lowerQuery == [] ==> OccursAt(Lower(app.name), lowerQuery, 0);
    || Includes(Lower(app.name), lowerQuery)
    || Includes(Lower(app.description), lowerQuery)
    || exists k :: 0 <= k < |app.tags| && Includes(Lower(app.tags[k]), lowerQuery)
  }

  /** Typing more characters never brings a tile back: whatever matches a
      query matches each of its prefixes. */
  lemma QueryPrefixMatches(app: SelfhostedApp, lowerQuery: string, n: nat)
    requires n <= |lowerQuery| && Matches(app, lowerQuery)
    ensures Matches(app, lowerQuery[..n])
  {
    var p := lowerQuery[..n];
    if Includes(Lower(app.name), lowerQuery) {
      IncludesPrefix(Lower(app.name), lowerQuery, n);
    } else if Includes(Lower(app.description), lowerQuery) {
      IncludesPrefix(Lower(app.description), lowerQuery, n);
    } else {
      var k :| 0 <= k < |app.tags| && Includes(Lower(app.tags[k]), lowerQuery);
      IncludesPrefix(Lower(app.tags[k]), lowerQuery, n);
    }
  }

  /** The test the query filter applies. */
  function MatchesQuery(lowerQuery: string): SelfhostedApp -> bool {
    (app: SelfhostedApp) => Matches(app, lowerQuery)
  }

  /** `filterApps`: the candidates of the tab (or all tiles when `searchAll`),
      then, unless the query is blank, those that match the query.  The
      query is lower-cased but not trimmed. */
  function FilterApps(apps: seq<SelfhostedApp>, query: string, categoryId: string, searchAll: bool): (r: seq<SelfhostedApp>)
    ensures IsSubsequence(r, apps)
    ensures multiset(r) <= multiset(apps)
    ensures !AllSpace(query) ==>
              forall app :: multiset(r)[app] ==
                if Matches(app, Lower(query)) then multiset(Candidates(apps, categoryId, searchAll))[app] else 0
  {
    var candidates := Candidates(apps, categoryId, searchAll);
    CandidatesAreSubsequence(apps, categoryId, searchAll);
    BlankIffAllSpace(query);
    if IsBlank(query) then candidates
    else
      var lowerQuery := Lower(query);
      var r := Filter(candidates, MatchesQuery(lowerQuery));
      FilterIsSubsequence(candidates, MatchesQuery(lowerQuery));
      SubsequenceTransitive(r, candidates, apps);
      assert forall app :: multiset(r)[app] ==
               if Matches(app, lowerQuery) then multiset(candidates)[app] else 0 by {
        forall app ensures multiset(r)[app] == if Matches(app, lowerQuery) then multiset(candidates)[app] else 0 {
          FilterMultiplicity(candidates, MatchesQuery(lowerQuery), app);
        }
      }
      r
  }

  lemma CandidatesAreSubsequence(apps: seq<SelfhostedApp>, categoryId: string, searchAll: bool)
    ensures IsSubsequence(Candidates(apps, categoryId, searchAll), apps)
    ensures multiset(Candidates(apps, categoryId, searchAll)) <= multiset(apps)
  {
    if searchAll {
      SubsequenceRefl(apps);
    } else {
      FilterIsSubsequence(apps, app => InCategory(app, categoryId));
    }
  }

  lemma {:induction false} SubsequenceTransitive<T>(a: seq<T>, b: seq<T>, c: seq<T>)
    requires IsSubsequence(a, b) && IsSubsequence(b, c)
    ensures IsSubsequence(a, c)
    decreases |c|
  {
    if a != [] {
      assert b != [] && c != [];
      if b[0] == c[0] && IsSubsequence(b[1..], c[1..]) {
        if a[0] == b[0] && IsSubsequence(a[1..], b[1..]) {
          SubsequenceTransitive(a[1..], b[1..], c[1..]);
        } else {
          SubsequenceTransitive(a, b[1..], c[1..]);
        }
      } else {
        SubsequenceTransitive(a, b, c[1..]);
      }
    }
  }

  /** With `searchAll` every tile is a candidate, whatever the tab. */
  lemma SearchAllIgnoresCategory(apps: seq<SelfhostedApp>, categoryId: string, app: SelfhostedApp)
    ensures app in Candidates(apps, categoryId, true) <==> app in apps
  {
  }

  /** Without `searchAll`, the candidates are exactly the tiles of the tab:
      for "apps" every tile that is not a bookmark, otherwise the tiles of
      that category. */
  lemma CategoryPartition(apps: seq<SelfhostedApp>, categoryId: string, app: SelfhostedApp)
    ensures app in Candidates(apps, categoryId, false) <==>
              app in apps && (if categoryId == "apps" then app.category != "bookmarks" else app.category == categoryId)
  {
    FilterMembers(apps, a => InCategory(a, categoryId), app);
  }

  /** A blank query keeps every candidate, in order. */
  lemma BlankQueryKeepsCandidates(apps: seq<SelfhostedApp>, query: string, categoryId: string, searchAll: bool)
    requires AllSpace(query)
    ensures FilterApps(apps, query, categoryId, searchAll) == Candidates(apps, categoryId, searchAll)
  {
    BlankIffAllSpace(query);
  }

  /** Any other query keeps exactly the candidates whose name, description or
      a tag contains it, ignoring case; the query's own spaces count. */
  lemma QueryMatch(apps: seq<SelfhostedApp>, query: string, categoryId: string, searchAll: bool, app: SelfhostedApp)
    requires !AllSpace(query)
    ensures app in FilterApps(apps, query, categoryId, searchAll) <==>
              app in Candidates(apps, categoryId, searchAll) && Matches(app, Lower(query))
  {
    BlankIffAllSpace(query);
    var lowerQuery := Lower(query);
    FilterMembers(Candidates(apps, categoryId, searchAll), MatchesQuery(lowerQuery), app);
  }

  /** Filtering the result again with the same query and tab changes
      nothing. */
  lemma FilterAppsIdempotent(apps: seq<SelfhostedApp>, query: string, categoryId: string, searchAll: bool)
    ensures var r := FilterApps(apps, query, categoryId, searchAll);
            FilterApps(r, query, categoryId, searchAll) == r
  {
    var r := FilterApps(apps, query, categoryId, searchAll);
    var inTab := (a: SelfhostedApp) => InCategory(a, categoryId);
    var c := Candidates(apps, categoryId, searchAll);
    var c2 := Candidates(r, categoryId, searchAll);
    if !searchAll {
      forall k | 0 <= k < |r| ensures inTab(r[k]) {
        assert r[k] in r;
        FilterMembers(apps, inTab, r[k]);
        if !IsBlank(query) {
          FilterMembers(c, MatchesQuery(Lower(query)), r[k]);
        }
      }
      FilterAll(r, inTab);
    }
    assert c2 == r;
    if !IsBlank(query) {
      FilterIdempotent(c, MatchesQuery(Lower(query)));
    }
  }

  // =====================================================================
  // filteredApps$
  // =====================================================================

  /** `filteredApps$`: a query that is not blank searches every tile,
      whatever tab is selected. */
  function FilteredApps(apps: seq<SelfhostedApp>, query: string, categoryId: string): (r: seq<SelfhostedApp>)
    ensures IsSubsequence(r, apps)
    ensures AllSpace(query) ==> r == Candidates(apps, categoryId, false)
    ensures !AllSpace(query) ==> forall app :: app in r <==> app in apps && Matches(app, Lower(query))
    ensures !AllSpace(query) ==>
              forall app :: multiset(r)[app] == if Matches(app, Lower(query)) then multiset(apps)[app] else 0
  {
    BlankIffAllSpace(query);
    if AllSpace(query) then
      BlankQueryKeepsCandidates(apps, query, categoryId, false);
      FilterApps(apps, query, categoryId, false)
    else
      SearchMatchesEveryTile(apps, query, categoryId);
      FilterApps(apps, query, categoryId, true)
  }

  /** A search over every tile keeps exactly the tiles that match. */
  lemma SearchMatchesEveryTile(apps: seq<SelfhostedApp>, query: string, categoryId: string)
    requires !AllSpace(query)
    ensures forall app :: app in FilterApps(apps, query, categoryId, true) <==> app in apps && Matches(app, Lower(query))
  {
    forall app ensures app in FilterApps(apps, query, categoryId, true) <==> app in apps && Matches(app, Lower(query)) {
      QueryMatch(apps, query, categoryId, true, app);
      SearchAllIgnoresCategory(apps, categoryId, app);
    }
  }

  /** With a query that is not blank the selected tab makes no difference. */
  lemma SearchBypassesTabs(apps: seq<SelfhostedApp>, query: string, tab1: string, tab2: string)
    requires !AllSpace(query)
    ensures FilteredApps(apps, query, tab1) == FilteredApps(apps, query, tab2)
  {
    BlankIffAllSpace(query);
  }

  // =====================================================================
  // Worked examples
  // =====================================================================

  function Tile(id: string, category: string, tags: seq<string>): SelfhostedApp {
    SelfhostedApp(id, id, "", "https://example.org", IconConfig(UrlIcon, ""), category, true, tags)
  }

  /** The "apps" tab with an empty query shows the two applications and not
      the bookmark tile. */
  lemma AppsTabExample()
    ensures var a1 := Tile("a1", "apps", []);
            var a2 := Tile("a2", "apps", []);
            var b1 := Tile("b1", "bookmarks", ["b1-tag"]);
            FilteredApps([a1, a2, b1], "", "apps") == [a1, a2]
  {
    var a1 := Tile("a1", "apps", []);
    var a2 := Tile("a2", "apps", []);
    var b1 := Tile("b1", "bookmarks", ["b1-tag"]);
    assert AllSpace("");
    BlankIffAllSpace("");
    BlankQueryKeepsCandidates([a1, a2, b1], "", "apps", false);
    TabCandidates(a1, a2, b1, "apps");
  }

  lemma TabCandidates(a1: SelfhostedApp, a2: SelfhostedApp, b1: SelfhostedApp, tab: string)
    requires InCategory(a1, tab) && InCategory(a2, tab) && !InCategory(b1, tab)
    ensures Candidates([a1, a2, b1], tab, false) == [a1, a2]
  {
    var inTab := (a: SelfhostedApp) => InCategory(a, tab);
    assert Filter([b1], inTab) == [];
    assert [a2, b1][1..] == [b1];
    assert Filter([a2, b1], inTab) == [a2];
    assert [a1, a2, b1][1..] == [a2, b1];
  }

  /** Typing a tag that only the bookmark has finds the bookmark although the
      "apps" tab is selected. */
  lemma SearchBypassExample()
    ensures var a1 := Tile("a1", "apps", []);
            var a2 := Tile("a2", "apps", []);
            var b1 := Tile("b1", "bookmarks", ["b1-tag"]);
            FilteredApps([a1, a2, b1], "b1-tag", "apps") == [b1]
  {
    var a1 := Tile("a1", "apps", []);
    var a2 := Tile("a2", "apps", []);
    var b1 := Tile("b1", "bookmarks", ["b1-tag"]);
    var q := "b1-tag";
    BypassQuery();
    BypassMatches();
    BlankIffAllSpace(q);
    var m := MatchesQuery(q);
    assert [a1, a2, b1][1..] == [a2, b1] && [a2, b1][1..] == [b1];
    assert Filter([b1], m) == [b1];
    assert Filter([a1, a2, b1], m) == [b1];
  }

  lemma BypassQuery()
    ensures !AllSpace("b1-tag") && Lower("b1-tag") == "b1-tag"
  {
    assert !IsSpace("b1-tag"[0]);
  }

  lemma BypassMatches()
    ensures !Matches(Tile("a1", "apps", []), "b1-tag")
    ensures !Matches(Tile("a2", "apps", []), "b1-tag")
    ensures Matches(Tile("b1", "bookmarks", ["b1-tag"]), "b1-tag")
  {
    var b1 := Tile("b1", "bookmarks", ["b1-tag"]);
    assert OccursAt(Lower(b1.tags[0]), "b1-tag", 0);
  }

  /** The match ignores case and looks at the name, the description and the
      tags: "GRAF", "metr" and "monIT" all find Grafana. */
  lemma CaseInsensitiveExample()
    ensures var g := SelfhostedApp("grafana", "Grafana", "metrics", "https://grafana.example",
                                   IconConfig(NameIcon, "grafana"), "apps", true, ["monitoring"]);
            Matches(g, Lower("GRAF")) && Matches(g, Lower("metr")) && Matches(g, Lower("monIT"))
  {
    var g := SelfhostedApp("grafana", "Grafana", "metrics", "https://grafana.example",
                           IconConfig(NameIcon, "grafana"), "apps", true, ["monitoring"]);
    assert Lower("GRAF") == "graf";
    assert Lower(g.name)[0..4] == "graf";
    assert OccursAt(Lower(g.name), "graf", 0);
    assert Lower("metr") == "metr";
    assert Lower(g.description)[0..4] == "metr";
    assert OccursAt(Lower(g.description), "metr", 0);
    assert Lower("monIT") == "monit";
    assert Lower(g.tags[0])[0..5] == "monit";
    assert OccursAt(Lower(g.tags[0]), "monit", 0);
  }

  /** The query is not trimmed: " grafana" with its leading space does not
      find an application named "Grafana" with nothing else to match. */
  lemma UntrimmedQueryExample()
    ensures var g := SelfhostedApp("grafana", "Grafana", "", "https://grafana.example",
                                   IconConfig(NameIcon, "grafana"), "apps", true, []);
            FilteredApps([g], " grafana", "apps") == []
  {
    var g := SelfhostedApp("grafana", "Grafana", "", "https://grafana.example",
                           IconConfig(NameIcon, "grafana"), "apps", true, []);
    var q := " grafana";
    assert !AllSpace(q) by { assert !IsSpace(q[1]); }
    assert !Matches(g, Lower(q)) by { assert |Lower(q)| > |Lower(g.name)|; }
    UnmatchedTileHidden(g, q, "apps");
  }

  lemma UnmatchedTileHidden(app: SelfhostedApp, query: string, tab: string)
    requires !AllSpace(query) && !Matches(app, Lower(query))
    ensures FilteredApps([app], query, tab) == []
  {
    BlankIffAllSpace(query);
    assert Filter([app], MatchesQuery(Lower(query))) == [];
  }

  // =====================================================================
  // The service's state
  // =====================================================================

  /** The application service: its subjects are the fields. */
  class AppService {
    var config: Option<DashboardConfig>
    var searchQuery: string
    var selectedCategory: string
    var settings: DashboardSettings
    var haveSearch: bool

    /** No configuration yet, an empty search, the "Apps" tab, the default
        settings.  (Loading the configuration over HTTP is not part of this
        model.) */
    constructor()
      ensures config == None && searchQuery == "" && !haveSearch
      ensures selectedCategory == AppCategory.id
      ensures settings == DefaultDashboardConfig.settings
    {
      config := None;
      searchQuery := "";
      selectedCategory := AppCategory.id;
      settings := DefaultDashboardConfig.settings;
      haveSearch := false;
    }

    /** `initializeConfig`, with the reactions it sets off: the settings are
        taken from the configuration, and when the "Apps" tab is hidden the
        selection moves to the first configured category.  The search is
        untouched. */
    method InitializeConfig(c: DashboardConfig)
      requires c.settings.showAllCategory || c.categories != []
      modifies this
      ensures config == Some(c) && settings == c.settings
      ensures selectedCategory == (if c.settings.showAllCategory then old(selectedCategory) else c.categories[0].id)
      ensures searchQuery == old(searchQuery) && haveSearch == old(haveSearch)
    {
      config := Some(c);
      if !c.settings.showAllCategory {
        selectedCategory := c.categories[0].id;
      }
      settings := c.settings;
    }

    /** `setSearchQuery`: the query is kept as typed; a search is on exactly
        when it is not blank. */
    method SetSearchQuery(query: string)
      modifies this
      ensures searchQuery == query
      ensures haveSearch <==> !AllSpace(query)
      ensures config == old(config) && selectedCategory == old(selectedCategory) && settings == old(settings)
    {
      BlankIffAllSpace(query);
      searchQuery := query;
      haveSearch := Trim(query) != "";
    }

    /** `setSelectedCategory`: any id is taken as given. */
    method SetSelectedCategory(categoryId: string)
      modifies this
      ensures selectedCategory == categoryId
      ensures config == old(config) && searchQuery == old(searchQuery)
      ensures haveSearch == old(haveSearch) && settings == old(settings)
    {
      selectedCategory := categoryId;
    }

    /** The tiles on screen: the merged list, filtered by the current query
        and tab; nothing before a configuration is set. */
    function Tiles(): (r: Option<seq<SelfhostedApp>>)
      reads this
      ensures r.Some? <==> config.Some?
      ensures r.Some? ==> IsSubsequence(r.value, MergedApps(config.value))
      ensures r.Some? ==> r.value == FilteredApps(MergedApps(config.value), searchQuery, selectedCategory)
    {
      if config.None? then None
      else Some(FilteredApps(MergedApps(config.value), searchQuery, selectedCategory))
    }

    /** The tabs: nothing before a configuration is set. */
    function Tabs(): (r: Option<seq<Category>>)
      reads this
      ensures r.Some? <==> config.Some?
      ensures r.Some? ==> |r.value| >= |config.value.categories|
    {
      if config.None? then None
      else
        var c := config.value;
        CategoryService.TabCount(c.settings, c.categories);
        Some(CategoryService.Categories(c.settings, c.categories))
    }

    /** `getAppById`: the first configured application with that id. */
    function GetAppById(appId: string): (r: Option<SelfhostedApp>)
      reads this
      ensures config.None? ==> r.None?
      ensures r.Some? ==> r.value in config.value.applications && r.value.id == appId
      ensures config.Some? && r.None? ==> forall a :: a in config.value.applications ==> a.id != appId
      ensures r.Some? ==>
                exists i ::
                  && 0 <= i < |config.value.applications|
                  && config.value.applications[i] == r.value
                  && forall k :: 0 <= k < i ==> config.value.applications[k].id != appId
    {
      if config.None? then None
      else
        var apps := config.value.applications;
        var i := FindIndex(apps, (a: SelfhostedApp) => a.id == appId);
        if i < 0 then None else Some(apps[i])
    }

    /** `getSearchEngineById`: the first configured engine with that id. */
    function GetSearchEngineById(engineId: string): (r: Option<SearchEngine>)
      reads this
      ensures config.None? ==> r.None?
      ensures r.Some? ==> r.value in config.value.searchEngines && r.value.id == engineId
      ensures config.Some? && r.None? ==> forall e :: e in config.value.searchEngines ==> e.id != engineId
      ensures r.Some? ==>
                exists i ::
                  && 0 <= i < |config.value.searchEngines|
                  && config.value.searchEngines[i] == r.value
                  && forall k :: 0 <= k < i ==> config.value.searchEngines[k].id != engineId
    {
      if config.None? then None
      else
        var engines := config.value.searchEngines;
        var i := FindIndex(engines, (e: SearchEngine) => e.id == engineId);
        if i < 0 then None else Some(engines[i])
    }

    /** `getAppsByCategory`: no applications before a configuration is set;
        every configured application for "apps" (bookmarks are not among
        them); otherwise the applications of that category, in order. */
    function GetAppsByCategory(categoryId: string): (r: seq<SelfhostedApp>)
      reads this
      ensures config.None? ==> r == []
      ensures config.Some? && categoryId == AppCategory.id ==> r == config.value.applications
      ensures config.Some? ==> IsSubsequence(r, config.value.applications)
      ensures config.Some? && categoryId != AppCategory.id ==>
                forall a :: a in r <==> a in config.value.applications && a.category == categoryId
      ensures config.Some? && categoryId != AppCategory.id ==>
                forall a :: multiset(r)[a] == if a.category == categoryId then multiset(config.value.applications)[a] else 0
    {
      if config.None? then []
      else if categoryId == AppCategory.id then
        SubsequenceRefl(config.value.applications);
        config.value.applications
      else
        var p := OfCategory(categoryId);
        FilterIsSubsequence(config.value.applications, p);
        forall a ensures a in Filter(config.value.applications, p) <==> a in config.value.applications && p(a) {
          FilterMembers(config.value.applications, p, a);
        }
        forall a ensures multiset(Filter(config.value.applications, p))[a] == if p(a) then multiset(config.value.applications)[a] else 0 {
          FilterMultiplicity(config.value.applications, p, a);
        }
        Filter(config.value.applications, p)
    }

    /** `getAppCountByCategory`: the length of that list. */
    function GetAppCountByCategory(categoryId: string): (n: nat)
      reads this
      ensures config.None? ==> n == 0
      ensures config.Some? ==> n <= |config.value.applications|
      ensures config.Some? && categoryId == AppCategory.id ==> n == |config.value.applications|
      ensures config.Some? && categoryId != AppCategory.id ==> n == Count(config.value.applications, OfCategory(categoryId))
    {
      var r := GetAppsByCategory(categoryId);
      if config.None? then |r|
      else
        SubsequenceLength(r, config.value.applications);
        FilterLength(config.value.applications, OfCategory(categoryId));
        |r|
    }
  }

  lemma {:induction false} SubsequenceRefl<T>(s: seq<T>)
    ensures IsSubsequence(s, s)
  {
    if s != [] {
      SubsequenceRefl(s[1..]);
    }
  }

  lemma {:induction false} SubsequenceLength<T>(a: seq<T>, b: seq<T>)
    requires IsSubsequence(a, b)
    ensures |a| <= |b|
    decreases |b|
  {
    if a != [] {
      if a[0] == b[0] && IsSubsequence(a[1..], b[1..]) {
        SubsequenceLength(a[1..], b[1..]);
      } else {
        SubsequenceLength(a, b[1..]);
      }
    }
  }
}
