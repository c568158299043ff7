/** Menu management (app/menu/page.tsx): the list of menu items narrowed by the
    search box and the category selector, whose "everything" value is 'ALL'. */
module MenuManagement {
  import opened Lists
  import opened Text
  import opened OrderLines
  import Catalog

  /** The selector value that shows every category on this page. */
  const EveryCategory: string := "ALL"

  /** `filteredItems`: the items whose lowercased name contains the lowercased
      query and whose category is the selected one (any category under 'ALL'),
      in menu order. */
  function FilterMenu(items: seq<Item>, query: string, category: string): (r: seq<Item>)
    ensures IsSubsequence(r, items)
    ensures forall x :: x in r <==>
      x in items && Includes(Lower(x.name), Lower(query)) && (category == "ALL" || x.category == category)
    ensures forall x :: multiset(r)[x] ==
              if Includes(Lower(x.name), Lower(query)) && (category == "ALL" || x.category == category) then multiset(items)[x] else 0
  {
    Catalog.FilterItems(items, query, category, EveryCategory)
  }

  /** The page's initial state (empty query, 'ALL') lists the whole menu. */
  lemma InitialViewShowsWholeMenu(items: seq<Item>)
    ensures FilterMenu(items, "", "ALL") == items
  {
    Catalog.ShowsEverything(items, EveryCategory);
  }

  /** Choosing a category other than 'ALL' shows only items of that category. */
  lemma CategoryNarrows(items: seq<Item>, query: string, category: string)
    requires category != "ALL"
    ensures forall i :: 0 <= i < |FilterMenu(items, query, category)| ==>
      FilterMenu(items, query, category)[i].category == category
  {
    Catalog.OnlySelectedCategory(items, query, category, EveryCategory);
    var r := FilterMenu(items, query, category);
    forall i | 0 <= i < |r| ensures r[i].category == category {
      assert r[i] in r;
    }
  }

  /** The letter case of the query does not matter: queries that lowercase
      alike ('wings', 'WINGS') select the same items. */
  lemma QueryCaseIgnored(items: seq<Item>, q1: string, q2: string, category: string)
    requires Lower(q1) == Lower(q2)
    ensures FilterMenu(items, q1, category) == FilterMenu(items, q2, category)
  {
    Catalog.CaseInsensitive(items, q1, q2, category, EveryCategory);
  }

  /** Filtering the filtered list again with the same inputs changes nothing. */
  lemma FilterMenuIdempotent(items: seq<Item>, query: string, category: string)
    ensures FilterMenu(FilterMenu(items, query, category), query, category) == FilterMenu(items, query, category)
  {
    Catalog.Idempotent(items, query, category, EveryCategory);
  }
}
