/**
 * The search service (src/app/core/services/search.service.ts): the search
 * text, the search engines picked by id from a catalogue, and the same tile
 * filter as the application service.
 *
 * The engine catalogue and the list of configured engine ids are parameters:
 * the catalogue constant and the settings field the service reads are not
 * defined by the configuration model.
 */
module SearchService {
  import opened Text
  import opened DashboardModels
  import AppService

  /** `getSearchEngineById`: the first engine of the catalogue with that id,
      or none. */
  function GetSearchEngineById(catalogue: seq<SearchEngine>, engineId: string): (r: Option<SearchEngine>)
    ensures r.Some? ==> r.value in catalogue && r.value.id == engineId
    ensures r.None? <==> forall e :: e in catalogue ==> e.id != engineId
    ensures r.Some? ==>
              exists i ::
                && 0 <= i < |catalogue|
                && catalogue[i] == r.value
                && forall k :: 0 <= k < i ==> catalogue[k].id != engineId
  {
    var i := FindIndex(catalogue, (e: SearchEngine) => e.id == engineId);
    if i < 0 then None else Some(catalogue[i])
  }

  /** `searchEngines$`: each configured id looked up in the catalogue.  The
      list keeps the ids' length and order, and an id with no engine stays
      as an absent entry. */
  function SearchEngines(catalogue: seq<SearchEngine>, engineIds: seq<string>): (r: seq<Option<SearchEngine>>)
    ensures |r| == |engineIds|
    ensures forall k :: 0 <= k < |engineIds| ==> r[k] == GetSearchEngineById(catalogue, engineIds[k])
  {
    seq(|engineIds|, k requires 0 <= k < |engineIds| => GetSearchEngineById(catalogue, engineIds[k]))
  }

  /** Every present entry is a catalogue engine with the id asked for. */
  lemma PresentEnginesMatchIds(catalogue: seq<SearchEngine>, engineIds: seq<string>, k: nat)
    requires k < |engineIds|
    ensures var r := SearchEngines(catalogue, engineIds);
            (r[k].Some? ==> r[k].value in catalogue && r[k].value.id == engineIds[k])
            && (r[k].None? <==> forall e :: e in catalogue ==> e.id != engineIds[k])
  {
  }

  /** `filterApps`, whose `searchAll` is false when left out.  Its body is the
      application service's filter, line for line. */
  function FilterApps(apps: seq<SelfhostedApp>, query: string, categoryId: string, searchAll: Option<bool>): (r: seq<SelfhostedApp>)
    ensures IsSubsequence(r, apps)
    ensures searchAll.None? ==> r == AppService.FilterApps(apps, query, categoryId, false)
    ensures searchAll.Some? ==> r == AppService.FilterApps(apps, query, categoryId, searchAll.value)
  {
    AppService.FilterApps(apps, query, categoryId, if searchAll.Some? then searchAll.value else false)
  }

  /** Leaving `searchAll` out confines the search to the tab: with a query
      that is not blank, a tile outside the tab is never returned. */
  lemma OmittedSearchAllKeepsTab(apps: seq<SelfhostedApp>, query: string, categoryId: string, app: SelfhostedApp)
    requires app in FilterApps(apps, query, categoryId, None)
    ensures app in apps && AppService.InCategory(app, categoryId)
  {
    AppService.CategoryPartition(apps, categoryId, app);
    if AllSpace(query) {
      AppService.BlankQueryKeepsCandidates(apps, query, categoryId, false);
    } else {
      AppService.QueryMatch(apps, query, categoryId, false, app);
    }
  }

  /** The search service's state: the search text and whether a search is on. */
  class SearchService {
    var searchQuery: string
    var haveSearch: bool

    constructor()
      ensures searchQuery == "" && !haveSearch
    {
      searchQuery := "";
      haveSearch := false;
    }

    /** `setSearchQuery`: the query is kept as typed; a search is on exactly
        when it is not blank. */
    method SetSearchQuery(query: string)
      modifies this
      ensures searchQuery == query
      ensures haveSearch <==> !AllSpace(query)
    {
      BlankIffAllSpace(query);
      searchQuery := query;
      haveSearch := Trim(query) != "";
    }
  }
}
