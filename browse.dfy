/** The browse page of the clothing-exchange app: the fetched items, the
    four filters (search text, category, size, condition), and the filtered
    list the page recomputes whenever the items or the filters change. */
module Browse {
  import opened JsText
  import opened JsArray

  datatype Item = Item(
    title: string,
    description: string,
    tags: Option<string>,
    category: string,
    size: string,
    condition: string)

  datatype Filters = Filters(category: string, size: string, condition: string, search: string)

  datatype FilterKey = Category | Size | Condition | Search

  const NoFilters := Filters("", "", "", "")

  /** The search test: the lower-cased query in the lower-cased title,
      description, or tags when the item has tags. */
  predicate MatchesSearch(item: Item, query: string) {
    || Includes(Lower(item.title), Lower(query))
    || Includes(Lower(item.description), Lower(query))
    || (Present(item.tags) && Includes(Lower(item.tags.value), Lower(query)))
  }

  /** All active filters at once: each applies only when its value is not empty. */
  predicate Matches(f: Filters, item: Item) {
    && (f.search != "" ==> MatchesSearch(item, f.search))
    && (f.category != "" ==> item.category == f.category)
    && (f.size != "" ==> item.size == f.size)
    && (f.condition != "" ==> item.condition == f.condition)
  }

  /** One step of the page's filtering: the filter when it is active, the
      list unchanged otherwise. */
  function Narrow(xs: seq<Item>, active: bool, p: Item -> bool): seq<Item> {
    if active then Filter(xs, p) else xs
  }

  /** A skipped filter is a filter that keeps everything. */
  lemma NarrowIsFilter(xs: seq<Item>, active: bool, p: Item -> bool, keep: Item -> bool)
    requires forall x :: keep(x) == (active ==> p(x))
    ensures Narrow(xs, active, p) == Filter(xs, keep)
  {
    if active {
      FilterSameTest(xs, p, keep);
    } else {
      FilterAll(xs, keep);
    }
  }

  /** The four step tests of the page, one per filter. */
  function SearchTest(f: Filters): Item -> bool {
    (item: Item) => MatchesSearch(item, f.search)
  }

  function CategoryTest(f: Filters): Item -> bool {
    (item: Item) => item.category == f.category
  }

  function SizeTest(f: Filters): Item -> bool {
    (item: Item) => item.size == f.size
  }

  function ConditionTest(f: Filters): Item -> bool {
    (item: Item) => item.condition == f.condition
  }

  /** The four filters in the page's order, each skipped when its value is empty. */
  function Visible(items: seq<Item>, f: Filters): (r: seq<Item>)
    ensures |r| <= |items|
    ensures forall x | x in r :: x in items
  {
    var s1 := Narrow(items, f.search != "", SearchTest(f));
    var s2 := Narrow(s1, f.category != "", CategoryTest(f));
    var s3 := Narrow(s2, f.size != "", SizeTest(f));
    Narrow(s3, f.condition != "", ConditionTest(f))
  }

  /** Two successive steps are one filter with both tests. */
  lemma NarrowTwice(xs: seq<Item>, p: Item -> bool, active: bool, q: Item -> bool, both: Item -> bool)
    requires forall x :: both(x) == (p(x) && (active ==> q(x)))
    ensures Narrow(Filter(xs, p), active, q) == Filter(xs, both)
  {
    if active {
      FilterFilter(xs, p, q);
      FilterSameTest(xs, x => p(x) && q(x), both);
    } else {
      FilterSameTest(xs, p, both);
    }
  }

  /** The successive filters keep exactly the items that pass every active
      filter, in their stored order. */
  lemma VisibleIsOneFilter(items: seq<Item>, f: Filters)
    ensures Visible(items, f) == Filter(items, (item: Item) => Matches(f, item))
  {
    var t1 := (x: Item) => f.search != "" ==> SearchTest(f)(x);
    var t2 := (x: Item) => (f.search != "" ==> SearchTest(f)(x)) && (f.category != "" ==> CategoryTest(f)(x));
    var t3 := (x: Item) =>
      && (f.search != "" ==> SearchTest(f)(x))
      && (f.category != "" ==> CategoryTest(f)(x))
      && (f.size != "" ==> SizeTest(f)(x));
    NarrowIsFilter(items, f.search != "", SearchTest(f), t1);
    NarrowTwice(items, t1, f.category != "", CategoryTest(f), t2);
    NarrowTwice(items, t2, f.size != "", SizeTest(f), t3);
    NarrowTwice(items, t3, f.condition != "", ConditionTest(f), (item: Item) => Matches(f, item));
  }

  /** With every filter empty the whole list is shown. */
  lemma NoFiltersShowEverything(items: seq<Item>)
    ensures Visible(items, NoFilters) == items
  {
  }

  /** `handleFilterChange`: only the named key takes the new value. */
  function WithFilter(f: Filters, key: FilterKey, value: string): (g: Filters)
    ensures key == Category ==> g == f.(category := value)
    ensures key == Size ==> g == f.(size := value)
    ensures key == Condition ==> g == f.(condition := value)
    ensures key == Search ==> g == f.(search := value)
  {
    match key
    case Category => f.(category := value)
    case Size => f.(size := value)
    case Condition => f.(condition := value)
    case Search => f.(search := value)
  }

  /** The results counter: "item" for exactly one result, "items" otherwise. */
  function CountLabel(n: nat): (s: string)
    ensures n == 1 <==> s == "1 item found"
    ensures n != 1 ==> s == NatToString(n) + " items found"
  {
    NatToString(n) + " item" + (if n != 1 then "s" else "") + " found"
  }

  class BrowsePage {
    var items: seq<Item>
    var filteredItems: seq<Item>
    var filters: Filters
    var loading: bool

    /** The filtered list is up to date with the items and the filters. */
    ghost predicate Valid()
      reads this
    {
      filteredItems == Visible(items, filters)
    }

    constructor ()
      ensures Valid() && items == [] && filters == NoFilters && loading
    {
      items := [];
      filteredItems := [];
      filters := NoFilters;
      loading := true;
    }

    /** `applyFilters`: the list is narrowed filter by filter. */
    method ApplyFilters()
      modifies this
      ensures Valid()
      ensures items == old(items) && filters == old(filters) && loading == old(loading)
    {
      var f := filters;
      var filtered := items;
      if f.search != "" {
        filtered := Filter(filtered, SearchTest(f));
      }
      if f.category != "" {
        filtered := Filter(filtered, CategoryTest(f));
      }
      if f.size != "" {
        filtered := Filter(filtered, SizeTest(f));
      }
      if f.condition != "" {
        filtered := Filter(filtered, ConditionTest(f));
      }
      filteredItems := filtered;
    }

    /** `fetchItems`: a fetched list replaces the items, a failure keeps
        them; loading ends either way, and the filters are re-applied. */
    method FetchItems(reply: Option<seq<Item>>)
      modifies this
      ensures Valid() && !loading && filters == old(filters)
      ensures reply.Some? ==> items == reply.value
      ensures reply.None? ==> items == old(items)
    {
      if reply.Some? {
        items := reply.value;
      }
      loading := false;
      ApplyFilters();
    }

    /** `handleFilterChange`, then the re-applied filters. */
    method HandleFilterChange(key: FilterKey, value: string)
      modifies this
      ensures filters == WithFilter(old(filters), key, value)
      ensures Valid() && items == old(items) && loading == old(loading)
    {
      filters := WithFilter(filters, key, value);
      ApplyFilters();
    }

    /** `clearFilters`: every filter empty, so every item is shown. */
    method ClearFilters()
      modifies this
      ensures filters == NoFilters && filteredItems == items
      ensures Valid() && items == old(items) && loading == old(loading)
    {
      filters := NoFilters;
      ApplyFilters();
      NoFiltersShowEverything(items);
    }
  }
}
