/** The search-and-category filter shared by the storefront (app/page.tsx) and
    menu management (app/menu/page.tsx). The two pages differ only in the
    category value that stands for "every category" ('All' on one, 'ALL' on
    the other), which is a parameter here. */
module Catalog {
  import opened Lists
  import opened Text
  import opened OrderLines

  /** The filter callback: the lowercased name contains the lowercased query,
      and either the category selector is on "everything" or it names the
      item's category exactly. */
  predicate Matches(item: Item, query: string, selected: string, everything: string)
  {
    Includes(Lower(item.name), Lower(query)) && (selected == everything || item.category == selected)
  }

  function Matching(query: string, selected: string, everything: string): Item -> bool
  {
    (item: Item) => Matches(item, query, selected, everything)
  }

  /** The items the callback above accepts, in their order. */
  function FilterItems(items: seq<Item>, query: string, selected: string, everything: string): (r: seq<Item>)
    ensures IsSubsequence(r, items)
    ensures forall x :: x in r <==> x in items && Matches(x, query, selected, everything)
    ensures forall x :: multiset(r)[x] == if Matches(x, query, selected, everything) then multiset(items)[x] else 0
  {
    Filter(items, Matching(query, selected, everything))
  }

  /** An empty query with the selector on "everything" hides nothing. */
  lemma ShowsEverything(items: seq<Item>, everything: string)
    ensures FilterItems(items, "", everything, everything) == items
  {
    forall i | 0 <= i < |items|
      ensures Matching("", everything, everything)(items[i])
    {
      assert Includes(Lower(items[i].name), Lower(""));
    }
    FilterKeepsAll(items, Matching("", everything, everything));
  }

  /** With a concrete category selected, only items of that category are shown. */
  lemma OnlySelectedCategory(items: seq<Item>, query: string, selected: string, everything: string)
    requires selected != everything
    ensures forall x :: x in FilterItems(items, query, selected, everything) ==> x.category == selected
  {
  }

  /** Queries that lowercase alike select the same items. */
  lemma CaseInsensitive(items: seq<Item>, q1: string, q2: string, selected: string, everything: string)
    requires Lower(q1) == Lower(q2)
    ensures FilterItems(items, q1, selected, everything) == FilterItems(items, q2, selected, everything)
  {
    FilterAgrees(items, Matching(q1, selected, everything), Matching(q2, selected, everything));
  }

  /** Filtering the shown items again with the same inputs shows them unchanged. */
  lemma Idempotent(items: seq<Item>, query: string, selected: string, everything: string)
    ensures var r := FilterItems(items, query, selected, everything);
      FilterItems(r, query, selected, everything) == r
  {
    FilterIdempotent(items, Matching(query, selected, everything));
  }
}
