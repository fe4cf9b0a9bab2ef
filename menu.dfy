/** The menu page's category filter (src/pages/Index.tsx). The menu itself is a parameter. */
module Menu {
  import opened RamenTypes
  import opened Seqs

  /** Keeps the menu entries of one category. */
  function InCategory(category: string): RamenItem -> bool
  {
    (item: RamenItem) => item.category == category
  }

  /** `filteredItems`: the whole menu for 'All', otherwise the entries of the chosen category. */
  function FilteredItems(menu: seq<RamenItem>, category: string): seq<RamenItem>
  {
    if category == "All" then menu else Filter(menu, InCategory(category))
  }

  /**
   * 'All' shows the menu unchanged. Any other category shows only entries of
   * that category, every one of them (each as often as the menu lists it), in
   * menu order, and never more entries than the menu has.
   */
  lemma FilteredItemsShows(menu: seq<RamenItem>, category: string)
    ensures category == "All" ==> FilteredItems(menu, category) == menu
    ensures category != "All" ==>
      forall item :: item in FilteredItems(menu, category) ==> item.category == category
    ensures category != "All" ==>
      forall item ::
        multiset(FilteredItems(menu, category))[item] == (if item.category == category then multiset(menu)[item] else 0)
    ensures IsSubsequence(FilteredItems(menu, category), menu)
    ensures |FilteredItems(menu, category)| <= |menu|
  {
    if category == "All" {
      FilterKeepsAll(menu, (item: RamenItem) => true);
      FilterIsSubsequence(menu, (item: RamenItem) => true);
    } else {
      FilterCounts(menu, InCategory(category));
      FilterIsSubsequence(menu, InCategory(category));
    }
  }

  /** No entry of the chosen category is dropped. */
  lemma FilteredItemsComplete(menu: seq<RamenItem>, category: string, i: nat)
    requires i < |menu| && menu[i].category == category
    ensures menu[i] in FilteredItems(menu, category)
  {
    FilteredItemsShows(menu, category);
    assert menu[i] in multiset(menu);
    assert menu[i] in multiset(FilteredItems(menu, category));
  }
}
