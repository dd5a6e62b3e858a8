/** Menu items and the category filter shown above the menu grid. */
module Menu {
  import opened Seqs

  /** A catalog entry. `description` is "" for the built-in defaults, which have none. */
  datatype MenuItem = MenuItem(id: nat, name: string, price: real, category: string,
                               description: string, image: string)

  /** The category chip that stands for "no filter". */
  const AllCategory: string := "All"

  /** The filter callback `item => item.category === activeCategory`. */
  function InCategory(category: string): MenuItem -> bool {
    (item: MenuItem) => item.category == category
  }

  /** `filteredMenuItems`: the whole menu under "All", otherwise the items of the active category. */
  function FilterByCategory(items: seq<MenuItem>, category: string): (r: seq<MenuItem>)
    ensures category == AllCategory ==> r == items
    ensures category != AllCategory ==> forall x :: x in r <==> x in items && x.category == category
  {
    if category == AllCategory then items
    else Filter(InCategory(category), items)
  }

  /** For a real category the result keeps exactly the matching items, each as often as it occurs,
      in menu order. */
  lemma FilterByCategoryExact(items: seq<MenuItem>, category: string, x: MenuItem)
    requires category != AllCategory
    ensures IsSubsequence(FilterByCategory(items, category), items)
    ensures multiset(FilterByCategory(items, category))[x]
            == if x.category == category then multiset(items)[x] else 0
  {
    FilterIsSubsequence(InCategory(category), items);
    FilterCount(InCategory(category), items, x);
  }
}
