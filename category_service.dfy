/**
 * The category service (src/app/core/services/category.service.ts): the
 * list of category tabs derived from a configuration, and the id of the
 * selected tab.
 */
module CategoryService {
  import opened Text
  import opened DashboardModels

  function CategoryName(c: Category): string {
    c.name
  }

  /** The synthetic tabs the settings ask for: "Apps", then "Bookmarks". */
  function Synthetic(settings: DashboardSettings): (r: seq<Category>)
    ensures AppCategory in r <==> settings.showAllCategory
    ensures BookmarksCategory in r <==> settings.allowBookmarks
    ensures |r| == (if settings.showAllCategory then 1 else 0) + (if settings.allowBookmarks then 1 else 0)
    ensures |r| == 2 ==> r[0] == AppCategory
  {
    (if settings.showAllCategory then [AppCategory] else [])
    + (if settings.allowBookmarks then [BookmarksCategory] else [])
  }

  /** `categories$`: the synthetic tabs and the configured categories, sorted
      together by name.  Nothing is merged or dropped, so a configured
      category that repeats a synthetic one appears twice. */
  function Categories(settings: DashboardSettings, categories: seq<Category>): (r: seq<Category>)
    ensures SortedBy(r, CategoryName)
    ensures multiset(r) == multiset(Synthetic(settings)) + multiset(categories)
  {
    SortBy(Synthetic(settings) + categories, CategoryName)
  }

  /** "Apps" is listed whenever `showAllCategory` is set, and "Bookmarks"
      whenever `allowBookmarks` is set. */
  lemma SyntheticTabsListed(settings: DashboardSettings, categories: seq<Category>)
    ensures settings.showAllCategory ==> AppCategory in Categories(settings, categories)
    ensures settings.allowBookmarks ==> BookmarksCategory in Categories(settings, categories)
  {
    var r := Categories(settings, categories);
    if settings.showAllCategory {
      assert AppCategory in multiset(Synthetic(settings));
      assert AppCategory in multiset(r);
    }
    if settings.allowBookmarks {
      assert BookmarksCategory in multiset(Synthetic(settings));
      assert BookmarksCategory in multiset(r);
    }
  }

  /** Every configured category is listed. */
  lemma ConfiguredTabsListed(settings: DashboardSettings, categories: seq<Category>, k: nat)
    requires k < |categories|
    ensures categories[k] in Categories(settings, categories)
  {
    assert categories[k] in multiset(categories);
    assert categories[k] in multiset(Categories(settings, categories));
  }

  /** The list has one entry per synthetic tab asked for and one per
      configured category: there is no de-duplication. */
  lemma TabCount(settings: DashboardSettings, categories: seq<Category>)
    ensures |Categories(settings, categories)|
            == (if settings.showAllCategory then 1 else 0) + (if settings.allowBookmarks then 1 else 0) + |categories|
  {
    var r := Categories(settings, categories);
    assert |r| == |multiset(r)|;
    assert |multiset(Synthetic(settings) + categories)| == |Synthetic(settings) + categories|;
  }

  /** The category service's state: the selected tab. */
  class CategoryService {
    var selectedCategory: string

    /** The "Apps" tab is selected at first. */
    constructor()
      ensures selectedCategory == AppCategory.id
    {
      selectedCategory := AppCategory.id;
    }

    /** `setSelectedCategory`: any id is taken as given, without checking
        that a tab has it. */
    method SetSelectedCategory(categoryId: string)
      modifies this
      ensures selectedCategory == categoryId
    {
      selectedCategory := categoryId;
    }
  }
}
