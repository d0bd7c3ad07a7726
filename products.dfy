/**
 * The product list page (app/products/page.tsx). Unlike the other list
 * pages it keeps the filtered list in a state variable that an effect
 * recomputes stage by stage whenever a filter input or the sort changes.
 * Dates are written as integers yyyymmdd, whose order is the calendar order.
 */
module Products {

  import Text
  import Lists
  import Sorting

  datatype Product = Product(
    id: string,
    name: string,
    category: string,
    price: real,
    stock: int,
    status: string,
    lastUpdated: int,
    sales: int)

  /** The six products of the page's catalogue. */
  const Catalogue: seq<Product> := [
    Product("PROD-001", "Wireless Headphones", "Electronics", 199.99, 45, "active", 20240115, 234),
    Product("PROD-002", "Smart Watch", "Electronics", 299.99, 12, "low-stock", 20240114, 156),
    Product("PROD-003", "Coffee Maker", "Home & Kitchen", 89.99, 0, "out-of-stock", 20240113, 89),
    Product("PROD-004", "Yoga Mat", "Sports & Fitness", 29.99, 78, "active", 20240112, 312),
    Product("PROD-005", "Bluetooth Speaker", "Electronics", 79.99, 23, "active", 20240111, 198),
    Product("PROD-006", "Desk Lamp", "Home & Office", 45.99, 5, "low-stock", 20240110, 67)
  ]

  /** The price range the page starts with and `clearFilters` restores. */
  const DefaultMinPrice: real := 0.0
  const DefaultMaxPrice: real := 1000.0

  predicate SearchMatches(p: Product, term: string)
  {
    Text.ContainsIgnoringCase(p.name, term)
    || Text.ContainsIgnoringCase(p.category, term)
    || Text.ContainsIgnoringCase(p.id, term)
  }

  predicate PriceMatches(p: Product, min: real, max: real)
  {
    min <= p.price <= max
  }

  /** The filter inputs and the sort, as one value. */
  datatype Query = Query(
    searchTerm: string,
    categories: seq<string>,
    statuses: seq<string>,
    minPrice: real,
    maxPrice: real,
    sortBy: string,
    sortOrder: Sorting.Direction)

  /** All the filter stages at once: the specification of the effect. */
  predicate Passes(p: Product, q: Query)
  {
    SearchMatches(p, q.searchTerm)
    && Lists.FacetAllows(q.categories, p.category)
    && Lists.FacetAllows(q.statuses, p.status)
    && PriceMatches(p, q.minPrice, q.maxPrice)
  }

  function PassesQuery(q: Query): Product -> bool
  {
    p => Passes(p, q)
  }

  /**
   * The value the comparator reads for `sortBy`. For a key it does not
   * know the comparator answers 0 for every pair, which a constant key gives.
   */
  function Key(sortBy: string, p: Product): Sorting.SortKey
  {
    if sortBy == "name" then Sorting.Str(Text.Lower(p.name))
    else if sortBy == "price" then Sorting.Num(p.price)
    else if sortBy == "stock" then Sorting.Num(p.stock as real)
    else if sortBy == "lastUpdated" then Sorting.Num(p.lastUpdated as real)
    else Sorting.Num(0.0)
  }

  function KeyOf(sortBy: string): Product -> Sorting.SortKey
  {
    p => Key(sortBy, p)
  }

  /** The list the effect should produce: the matching products, sorted when a sort key is set. */
  function FilteredProducts(all: seq<Product>, q: Query): seq<Product>
  {
    var matching := Lists.Filter(all, PassesQuery(q));
    if q.sortBy != "" then Sorting.SortBy(matching, KeyOf(q.sortBy), q.sortOrder) else matching
  }

  /**
   * The filtered list holds exactly the matching products, as often as in
   * the catalogue; with a sort key it is ordered by that key, and otherwise
   * it keeps the catalogue's order.
   */
  lemma FilteredProductsCorrect(all: seq<Product>, q: Query)
    ensures var r := FilteredProducts(all, q);
      && (forall p :: multiset(r)[p] == if Passes(p, q) then multiset(all)[p] else 0)
      && (forall p :: p in r <==> p in all && Passes(p, q))
      && (q.sortBy != "" ==> Sorting.Sorted(r, KeyOf(q.sortBy), q.sortOrder))
      && (q.sortBy != "" ==> forall k :: Sorting.WithKey(r, KeyOf(q.sortBy), k) == Sorting.WithKey(Lists.Filter(all, PassesQuery(q)), KeyOf(q.sortBy), k))
      && (q.sortBy == "" ==> Lists.IsSubsequence(r, all))
  {
    var m := Lists.Filter(all, PassesQuery(q));
    var r := FilteredProducts(all, q);
    forall p ensures multiset(r)[p] == if Passes(p, q) then multiset(all)[p] else 0 {
      Lists.FilterCount(all, PassesQuery(q), p);
    }
    forall p ensures p in r <==> p in m {
      assert p in r <==> p in multiset(r);
      assert p in m <==> p in multiset(m);
    }
    if q.sortBy != "" {
      Sorting.SortBySorted(m, KeyOf(q.sortBy), q.sortOrder);
      forall k ensures Sorting.WithKey(r, KeyOf(q.sortBy), k) == Sorting.WithKey(m, KeyOf(q.sortBy), k) {
        Sorting.SortByStable(m, KeyOf(q.sortBy), q.sortOrder, k);
      }
    } else {
      Lists.FilterIsSubsequence(all, PassesQuery(q));
    }
  }

  /** A sort key the comparator does not know leaves the catalogue order as it is. */
  lemma UnknownSortKeyKeepsOrder(all: seq<Product>, q: Query)
    requires q.sortBy !in {"", "name", "price", "stock", "lastUpdated"}
    ensures FilteredProducts(all, q) == Lists.Filter(all, PassesQuery(q))
  {
    var m := Lists.Filter(all, PassesQuery(q));
    Sorting.SortByConstantKey(m, KeyOf(q.sortBy), q.sortOrder, Sorting.Num(0.0));
  }

  /** What the sort order means for each known key. */
  lemma FilteredProductsOrder(all: seq<Product>, q: Query, i: int, j: int)
    requires 0 <= i < j < |FilteredProducts(all, q)|
    ensures var a, b := FilteredProducts(all, q)[i], FilteredProducts(all, q)[j];
      && (q.sortBy == "price" && q.sortOrder == Sorting.Asc ==> a.price <= b.price)
      && (q.sortBy == "price" && q.sortOrder == Sorting.Desc ==> a.price >= b.price)
      && (q.sortBy == "stock" && q.sortOrder == Sorting.Asc ==> a.stock <= b.stock)
      && (q.sortBy == "stock" && q.sortOrder == Sorting.Desc ==> a.stock >= b.stock)
      && (q.sortBy == "lastUpdated" && q.sortOrder == Sorting.Asc ==> a.lastUpdated <= b.lastUpdated)
      && (q.sortBy == "lastUpdated" && q.sortOrder == Sorting.Desc ==> a.lastUpdated >= b.lastUpdated)
      && (q.sortBy == "name" && q.sortOrder == Sorting.Asc ==> !Sorting.StrLess(Text.Lower(b.name), Text.Lower(a.name)))
      && (q.sortBy == "name" && q.sortOrder == Sorting.Desc ==> !Sorting.StrLess(Text.Lower(a.name), Text.Lower(b.name)))
  {
    if q.sortBy != "" {
      var m := Lists.Filter(all, PassesQuery(q));
      Sorting.SortBySorted(m, KeyOf(q.sortBy), q.sortOrder);
      var r := FilteredProducts(all, q);
      assert Sorting.InOrder(KeyOf(q.sortBy)(r[i]), KeyOf(q.sortBy)(r[j]), q.sortOrder);
    }
  }

  /** `hasActiveFilters`: the search term is not part of it. */
  predicate HasActiveFilters(q: Query)
  {
    |q.categories| > 0 || |q.statuses| > 0 || q.minPrice > DefaultMinPrice
    || q.maxPrice < DefaultMaxPrice || q.sortBy != ""
  }

  /** The price range applies even at its defaults: a product above 1000 stays hidden although no filter reads as active. */
  lemma DefaultPriceRangeHides(p: Product)
    requires p.price > DefaultMaxPrice
    ensures var q := Query("", [], [], DefaultMinPrice, DefaultMaxPrice, "", Sorting.Asc);
      !HasActiveFilters(q) && !Passes(p, q)
  {
  }

  /** With the default inputs every catalogue product is shown, in catalogue order. */
  lemma DefaultQueryShowsCatalogue()
    ensures FilteredProducts(Catalogue, Query("", [], [], DefaultMinPrice, DefaultMaxPrice, "", Sorting.Asc)) == Catalogue
  {
    var q := Query("", [], [], DefaultMinPrice, DefaultMaxPrice, "", Sorting.Asc);
    forall p | p in Catalogue ensures Passes(p, q) {
      Text.ContainsIgnoringCaseEmpty(p.name);
    }
    Lists.FilterAll(Catalogue, PassesQuery(q));
  }

  predicate IsActive(p: Product) { p.status == "active" }
  predicate IsLowStock(p: Product) { p.status == "low-stock" }
  predicate IsOutOfStock(p: Product) { p.status == "out-of-stock" }

  /** The status cards count the whole catalogue, whatever the filters show. */
  lemma CatalogueCounts()
    ensures |Catalogue| == 6
    ensures Lists.Count(Catalogue, IsActive) == 3
    ensures Lists.Count(Catalogue, IsLowStock) == 2
    ensures Lists.Count(Catalogue, IsOutOfStock) == 1
  {
    assert Catalogue[1..][1..][1..][1..][1..][1..] == [];
  }

  function IdOf(p: Product): string { p.id }

  /** The page's state; `filteredProducts` is the effect's output. */
  class ProductList {
    const products: seq<Product>
    var searchTerm: string
    var selectedCategories: seq<string>
    var selectedStatuses: seq<string>
    var minPrice: real
    var maxPrice: real
    var sortBy: string
    var sortOrder: Sorting.Direction
    var filteredProducts: seq<Product>
    var selectedProducts: seq<string>

    function CurrentQuery(): Query
      reads this
    {
      Query(searchTerm, selectedCategories, selectedStatuses, minPrice, maxPrice, sortBy, sortOrder)
    }

    /** The effect has run: the stored list is the one the inputs specify. */
    predicate Valid()
      reads this
    {
      filteredProducts == FilteredProducts(products, CurrentQuery())
    }

    function Header(): Lists.HeaderBox
      reads this
    {
      Lists.HeaderState(|selectedProducts|, |filteredProducts|)
    }

    constructor(products: seq<Product>)
      ensures Valid()
      ensures this.products == products
      ensures searchTerm == "" && selectedCategories == [] && selectedStatuses == []
      ensures minPrice == DefaultMinPrice && maxPrice == DefaultMaxPrice
      ensures sortBy == "" && sortOrder == Sorting.Asc && selectedProducts == []
    {
      this.products := products;
      searchTerm := "";
      selectedCategories := [];
      selectedStatuses := [];
      minPrice := DefaultMinPrice;
      maxPrice := DefaultMaxPrice;
      sortBy := "";
      sortOrder := Sorting.Asc;
      filteredProducts := products;
      selectedProducts := [];
      new;
      Refresh();
    }

    /**
     * The effect: filter by the search, then by category and status when
     * those selections are non-empty, then by price, then sort in place
     * when a sort key is set.
     */
    method Refresh()
      modifies this
      ensures Valid()
      ensures searchTerm == old(searchTerm) && selectedCategories == old(selectedCategories)
      ensures selectedStatuses == old(selectedStatuses) && minPrice == old(minPrice) && maxPrice == old(maxPrice)
      ensures sortBy == old(sortBy) && sortOrder == old(sortOrder) && selectedProducts == old(selectedProducts)
    {
      var q := CurrentQuery();
      var filtered := Lists.Filter(products, SearchStage(q));
      if |selectedCategories| > 0 {
        Lists.FilterFilter(products, SearchStage(q), CategoryStage(q), UpToCategory(q));
        filtered := Lists.Filter(filtered, CategoryStage(q));
      } else {
        Lists.FilterAgree(products, SearchStage(q), UpToCategory(q));
      }
      if |selectedStatuses| > 0 {
        Lists.FilterFilter(products, UpToCategory(q), StatusStage(q), UpToStatus(q));
        filtered := Lists.Filter(filtered, StatusStage(q));
      } else {
        Lists.FilterAgree(products, UpToCategory(q), UpToStatus(q));
      }
      Lists.FilterFilter(products, UpToStatus(q), PriceStage(q), PassesQuery(q));
      filtered := Lists.Filter(filtered, PriceStage(q));
      if sortBy != "" {
        filtered := Sorting.SortBy(filtered, KeyOf(sortBy), sortOrder);
      }
      filteredProducts := filtered;
    }

    method SetSearchTerm(term: string)
      modifies this
      ensures Valid()
      ensures searchTerm == term && selectedCategories == old(selectedCategories)
      ensures selectedStatuses == old(selectedStatuses) && minPrice == old(minPrice) && maxPrice == old(maxPrice)
      ensures sortBy == old(sortBy) && sortOrder == old(sortOrder) && selectedProducts == old(selectedProducts)
    {
      searchTerm := term;
      Refresh();
    }

    method ToggleCategory(category: string, checked: bool)
      modifies this
      ensures Valid()
      ensures selectedCategories == Lists.Toggle(old(selectedCategories), category, checked)
      ensures searchTerm == old(searchTerm)
      ensures selectedStatuses == old(selectedStatuses) && minPrice == old(minPrice) && maxPrice == old(maxPrice)
      ensures sortBy == old(sortBy) && sortOrder == old(sortOrder) && selectedProducts == old(selectedProducts)
    {
      selectedCategories := Lists.Toggle(selectedCategories, category, checked);
      Refresh();
    }

    method ToggleStatus(status: string, checked: bool)
      modifies this
      ensures Valid()
      ensures selectedStatuses == Lists.Toggle(old(selectedStatuses), status, checked)
      ensures searchTerm == old(searchTerm) && selectedCategories == old(selectedCategories)
      ensures minPrice == old(minPrice) && maxPrice == old(maxPrice)
      ensures sortBy == old(sortBy) && sortOrder == old(sortOrder) && selectedProducts == old(selectedProducts)
    {
      selectedStatuses := Lists.Toggle(selectedStatuses, status, checked);
      Refresh();
    }

    /** The two price inputs. */
    method SetPriceRange(min: real, max: real)
      modifies this
      ensures Valid()
      ensures minPrice == min && maxPrice == max
      ensures searchTerm == old(searchTerm) && selectedCategories == old(selectedCategories)
      ensures selectedStatuses == old(selectedStatuses)
      ensures sortBy == old(sortBy) && sortOrder == old(sortOrder) && selectedProducts == old(selectedProducts)
    {
      minPrice := min;
      maxPrice := max;
      Refresh();
    }

    /** A column header: the current key flips the order, another key sorts ascending. */
    method SortHeaderClick(key: string)
      modifies this
      ensures Valid()
      ensures sortBy == key
      ensures old(sortBy) == key ==> sortOrder != old(sortOrder)
      ensures old(sortBy) != key ==> sortOrder == Sorting.Asc
      ensures searchTerm == old(searchTerm) && selectedCategories == old(selectedCategories)
      ensures selectedStatuses == old(selectedStatuses) && minPrice == old(minPrice) && maxPrice == old(maxPrice)
      ensures selectedProducts == old(selectedProducts)
    {
      if sortBy == key {
        sortOrder := if sortOrder == Sorting.Asc then Sorting.Desc else Sorting.Asc;
      } else {
        sortBy := key;
        sortOrder := Sorting.Asc;
      }
      Refresh();
    }

    /** The header box: checking selects every filtered product, unchecking clears. */
    method HandleSelectAll(checked: bool)
      requires Valid()
      modifies this
      ensures Valid()
      ensures checked ==> selectedProducts == Lists.Map(filteredProducts, IdOf)
      ensures !checked ==> selectedProducts == []
      ensures Header() == if checked && |filteredProducts| > 0 then Lists.Checked else Lists.Unchecked
      ensures searchTerm == old(searchTerm) && selectedCategories == old(selectedCategories)
      ensures selectedStatuses == old(selectedStatuses) && minPrice == old(minPrice) && maxPrice == old(maxPrice)
      ensures sortBy == old(sortBy) && sortOrder == old(sortOrder) && filteredProducts == old(filteredProducts)
    {
      if checked {
        selectedProducts := Lists.Map(filteredProducts, IdOf);
      } else {
        selectedProducts := [];
      }
    }

    method HandleSelectProduct(id: string, checked: bool)
      requires Valid()
      modifies this
      ensures Valid()
      ensures selectedProducts == Lists.Toggle(old(selectedProducts), id, checked)
      ensures searchTerm == old(searchTerm) && selectedCategories == old(selectedCategories)
      ensures selectedStatuses == old(selectedStatuses) && minPrice == old(minPrice) && maxPrice == old(maxPrice)
      ensures sortBy == old(sortBy) && sortOrder == old(sortOrder) && filteredProducts == old(filteredProducts)
    {
      selectedProducts := Lists.Toggle(selectedProducts, id, checked);
    }

    /** `clearFilters`: every input back to its default; afterwards no filter reads as active. */
    method ClearFilters()
      modifies this
      ensures Valid()
      ensures selectedCategories == [] && selectedStatuses == []
      ensures minPrice == DefaultMinPrice && maxPrice == DefaultMaxPrice
      ensures sortBy == "" && sortOrder == Sorting.Asc && searchTerm == ""
      ensures selectedProducts == old(selectedProducts)
      ensures !HasActiveFilters(CurrentQuery())
    {
      selectedCategories := [];
      selectedStatuses := [];
      minPrice := DefaultMinPrice;
      maxPrice := DefaultMaxPrice;
      sortBy := "";
      sortOrder := Sorting.Asc;
      searchTerm := "";
      Refresh();
    }
  }

  // The effect's stages, each as the predicate its `filter` call applies,
  // and the conjunctions of the stages so far.

  function SearchStage(q: Query): Product -> bool
  {
    p => SearchMatches(p, q.searchTerm)
  }

  function CategoryStage(q: Query): Product -> bool
  {
    (p: Product) => p.category in q.categories
  }

  function StatusStage(q: Query): Product -> bool
  {
    (p: Product) => p.status in q.statuses
  }

  function PriceStage(q: Query): Product -> bool
  {
    p => PriceMatches(p, q.minPrice, q.maxPrice)
  }

  function UpToCategory(q: Query): Product -> bool
  {
    p => SearchMatches(p, q.searchTerm) && Lists.FacetAllows(q.categories, p.category)
  }

  function UpToStatus(q: Query): Product -> bool
  {
    p => SearchMatches(p, q.searchTerm) && Lists.FacetAllows(q.categories, p.category)
         && Lists.FacetAllows(q.statuses, p.status)
  }
}
