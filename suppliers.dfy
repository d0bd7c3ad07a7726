/**
 * The supplier list page (app/suppliers/page.tsx): a search, two facet
 * filters, a sort by one of four columns, selection and statistics.
 * Dates are written as integers yyyymmdd, whose order is the calendar order.
 */
module Suppliers {

  import Text
  import Lists
  import Sorting

  datatype Supplier = Supplier(
    id: string,
    name: string,
    email: string,
    phone: string,
    cnpj: string,
    category: string,
    status: string,
    totalInvoices: int,
    totalAmount: real,
    lastInvoice: int,
    address: string)

  /** The page's five suppliers. */
  const MockSuppliers: seq<Supplier> := [
    Supplier("1", "Tech Solutions Ltda", "contato@techsolutions.com.br", "(11) 98765-4321",
             "12.345.678/0001-90", "Technology", "active", 15, 45000.0, 20240115, "São Paulo, SP"),
    Supplier("2", "Office Supplies Co.", "vendas@officesupplies.com.br", "(11) 97654-3210",
             "98.765.432/0001-10", "Office Supplies", "active", 8, 12000.0, 20240120, "Rio de Janeiro, RJ"),
    Supplier("3", "Cloud Services Inc.", "billing@cloudservices.com", "+1 (555) 123-4567",
             "11.222.333/0001-44", "Services", "inactive", 3, 8500.0, 20231210, "International"),
    Supplier("4", "Marketing Agency", "financeiro@marketingagency.com.br", "(21) 91234-5678",
             "55.666.777/0001-88", "Marketing", "active", 12, 35000.0, 20240118, "Belo Horizonte, MG"),
    Supplier("5", "Equipment Rental", "locacao@equipmentrental.com.br", "(11) 95555-1234",
             "99.888.777/0001-66", "Equipment", "pending", 5, 18000.0, 20240112, "Campinas, SP")
  ]

  datatype SortField = Name | TotalAmount | TotalInvoices | LastInvoice

  /** Name and e-mail are compared case-insensitively; the CNPJ is searched for the term as typed. */
  predicate SearchMatches(s: Supplier, term: string)
  {
    Text.ContainsIgnoringCase(s.name, term)
    || Text.ContainsIgnoringCase(s.email, term)
    || Text.Includes(s.cnpj, term)
  }

  predicate Passes(s: Supplier, term: string, categories: seq<string>, statuses: seq<string>)
  {
    SearchMatches(s, term) && Lists.FacetAllows(categories, s.category) && Lists.FacetAllows(statuses, s.status)
  }

  function PassesFilters(term: string, categories: seq<string>, statuses: seq<string>): Supplier -> bool
  {
    s => Passes(s, term, categories, statuses)
  }

  function Key(field: SortField, s: Supplier): Sorting.SortKey
  {
    match field
    case Name => Sorting.Str(Text.Lower(s.name))
    case TotalAmount => Sorting.Num(s.totalAmount)
    case TotalInvoices => Sorting.Num(s.totalInvoices as real)
    case LastInvoice => Sorting.Num(s.lastInvoice as real)
  }

  function KeyOf(field: SortField): Supplier -> Sorting.SortKey
  {
    s => Key(field, s)
  }

  /** `filteredSuppliers` */
  function FilteredSuppliers(all: seq<Supplier>, term: string, categories: seq<string>, statuses: seq<string>,
                             field: SortField, dir: Sorting.Direction): seq<Supplier>
  {
    Sorting.SortBy(Lists.Filter(all, PassesFilters(term, categories, statuses)), KeyOf(field), dir)
  }

  /** The list is a permutation of the matching suppliers, ordered by the column. */
  lemma FilteredSuppliersCorrect(all: seq<Supplier>, term: string, categories: seq<string>, statuses: seq<string>,
                                 field: SortField, dir: Sorting.Direction)
    ensures var r := FilteredSuppliers(all, term, categories, statuses, field, dir);
      && (forall s :: multiset(r)[s] == if Passes(s, term, categories, statuses) then multiset(all)[s] else 0)
      && (forall s :: s in r <==> s in all && Passes(s, term, categories, statuses))
      && Sorting.Sorted(r, KeyOf(field), dir)
      && (forall k :: Sorting.WithKey(r, KeyOf(field), k) == Sorting.WithKey(Lists.Filter(all, PassesFilters(term, categories, statuses)), KeyOf(field), k))
  {
    var f := Lists.Filter(all, PassesFilters(term, categories, statuses));
    var r := FilteredSuppliers(all, term, categories, statuses, field, dir);
    forall s ensures multiset(r)[s] == if Passes(s, term, categories, statuses) then multiset(all)[s] else 0 {
      Lists.FilterCount(all, PassesFilters(term, categories, statuses), s);
    }
    forall s ensures s in r <==> s in f {
      assert s in r <==> s in multiset(r);
      assert s in f <==> s in multiset(f);
    }
    Sorting.SortBySorted(f, KeyOf(field), dir);
    forall k ensures Sorting.WithKey(r, KeyOf(field), k) == Sorting.WithKey(f, KeyOf(field), k) {
      Sorting.SortByStable(f, KeyOf(field), dir, k);
    }
  }

  /** Names sort lower-cased, amounts and invoice counts numerically, last invoices by date. */
  lemma FilteredSuppliersOrder(all: seq<Supplier>, term: string, categories: seq<string>, statuses: seq<string>,
                               field: SortField, dir: Sorting.Direction, i: int, j: int)
    requires 0 <= i < j < |FilteredSuppliers(all, term, categories, statuses, field, dir)|
    ensures var r := FilteredSuppliers(all, term, categories, statuses, field, dir);
      && (field == TotalAmount && dir == Sorting.Asc ==> r[i].totalAmount <= r[j].totalAmount)
      && (field == TotalAmount && dir == Sorting.Desc ==> r[i].totalAmount >= r[j].totalAmount)
      && (field == TotalInvoices && dir == Sorting.Asc ==> r[i].totalInvoices <= r[j].totalInvoices)
      && (field == TotalInvoices && dir == Sorting.Desc ==> r[i].totalInvoices >= r[j].totalInvoices)
      && (field == LastInvoice && dir == Sorting.Asc ==> r[i].lastInvoice <= r[j].lastInvoice)
      && (field == LastInvoice && dir == Sorting.Desc ==> r[i].lastInvoice >= r[j].lastInvoice)
      && (field == Name && dir == Sorting.Asc ==> !Sorting.StrLess(Text.Lower(r[j].name), Text.Lower(r[i].name)))
      && (field == Name && dir == Sorting.Desc ==> !Sorting.StrLess(Text.Lower(r[i].name), Text.Lower(r[j].name)))
  {
    var f := Lists.Filter(all, PassesFilters(term, categories, statuses));
    Sorting.SortBySorted(f, KeyOf(field), dir);
    var r := FilteredSuppliers(all, term, categories, statuses, field, dir);
    assert Sorting.InOrder(KeyOf(field)(r[i]), KeyOf(field)(r[j]), dir);
  }

  /** With no search and no facet every supplier is listed. */
  lemma ClearedFiltersShowAll(all: seq<Supplier>, field: SortField, dir: Sorting.Direction)
    ensures multiset(FilteredSuppliers(all, "", [], [], field, dir)) == multiset(all)
  {
    forall s | s in all ensures Passes(s, "", [], []) {
      Text.ContainsIgnoringCaseEmpty(s.name);
    }
    Lists.FilterAll(all, PassesFilters("", [], []));
  }

  predicate IsActive(s: Supplier) { s.status == "active" }

  function AmountOf(s: Supplier): real { s.totalAmount }

  function InvoicesOf(s: Supplier): real { s.totalInvoices as real }

  /** The statistics cards are sums over every supplier, whatever the filters show. */
  lemma MockStatistics()
    ensures Lists.Count(MockSuppliers, IsActive) == 3
    ensures Lists.Sum(MockSuppliers, AmountOf) == 118500.0
    ensures Lists.Sum(MockSuppliers, InvoicesOf) == 43.0
  {
    assert MockSuppliers[1..][1..][1..][1..][1..] == [];
  }

  function IdOf(s: Supplier): string { s.id }

  /** The page's state; the filtered list is recomputed from it on every render. */
  class SupplierList {
    const suppliers: seq<Supplier>
    var searchTerm: string
    var selectedSuppliers: seq<string>
    var sortField: SortField
    var sortDirection: Sorting.Direction
    var selectedCategories: seq<string>
    var selectedStatuses: seq<string>

    constructor(suppliers: seq<Supplier>)
      ensures this.suppliers == suppliers
      ensures searchTerm == "" && selectedSuppliers == []
      ensures sortField == Name && sortDirection == Sorting.Asc
      ensures selectedCategories == [] && selectedStatuses == []
    {
      this.suppliers := suppliers;
      searchTerm := "";
      selectedSuppliers := [];
      sortField := Name;
      sortDirection := Sorting.Asc;
      selectedCategories := [];
      selectedStatuses := [];
    }

    function Filtered(): seq<Supplier>
      reads this
    {
      FilteredSuppliers(suppliers, searchTerm, selectedCategories, selectedStatuses, sortField, sortDirection)
    }

    predicate HasActiveFilters()
      reads this
    {
      |selectedCategories| > 0 || |selectedStatuses| > 0 || searchTerm != ""
    }

    predicate HeaderChecked()
      reads this
    {
      Lists.HeaderState(|selectedSuppliers|, |Filtered()|) == Lists.Checked
    }

    method SetSearchTerm(term: string)
      modifies this
      ensures searchTerm == term && selectedSuppliers == old(selectedSuppliers)
      ensures sortField == old(sortField) && sortDirection == old(sortDirection)
      ensures selectedCategories == old(selectedCategories) && selectedStatuses == old(selectedStatuses)
    {
      searchTerm := term;
    }

    method ToggleCategory(category: string, checked: bool)
      modifies this
      ensures selectedCategories == Lists.Toggle(old(selectedCategories), category, checked)
      ensures searchTerm == old(searchTerm) && selectedSuppliers == old(selectedSuppliers)
      ensures sortField == old(sortField) && sortDirection == old(sortDirection)
      ensures selectedStatuses == old(selectedStatuses)
    {
      selectedCategories := Lists.Toggle(selectedCategories, category, checked);
    }

    method ToggleStatus(status: string, checked: bool)
      modifies this
      ensures selectedStatuses == Lists.Toggle(old(selectedStatuses), status, checked)
      ensures searchTerm == old(searchTerm) && selectedSuppliers == old(selectedSuppliers)
      ensures sortField == old(sortField) && sortDirection == old(sortDirection)
      ensures selectedCategories == old(selectedCategories)
    {
      selectedStatuses := Lists.Toggle(selectedStatuses, status, checked);
    }

    /** `handleSort` */
    method HandleSort(field: SortField)
      modifies this
      ensures (sortField, sortDirection) == Sorting.NextSort(old(sortField), old(sortDirection), field)
      ensures searchTerm == old(searchTerm) && selectedSuppliers == old(selectedSuppliers)
      ensures selectedCategories == old(selectedCategories) && selectedStatuses == old(selectedStatuses)
    {
      if sortField == field {
        sortDirection := if sortDirection == Sorting.Asc then Sorting.Desc else Sorting.Asc;
      } else {
        sortField := field;
        sortDirection := Sorting.Asc;
      }
    }

    /** The header box: checking selects every filtered supplier, unchecking clears. */
    method HandleSelectAll(checked: bool)
      modifies this
      ensures checked ==> selectedSuppliers == Lists.Map(Filtered(), IdOf)
      ensures !checked ==> selectedSuppliers == []
      ensures HeaderChecked() <==> checked && |Filtered()| > 0
      ensures searchTerm == old(searchTerm)
      ensures sortField == old(sortField) && sortDirection == old(sortDirection)
      ensures selectedCategories == old(selectedCategories) && selectedStatuses == old(selectedStatuses)
    {
      if checked {
        selectedSuppliers := Lists.Map(Filtered(), IdOf);
      } else {
        selectedSuppliers := [];
      }
    }

    method HandleSelectSupplier(id: string, checked: bool)
      modifies this
      ensures selectedSuppliers == Lists.Toggle(old(selectedSuppliers), id, checked)
      ensures searchTerm == old(searchTerm)
      ensures sortField == old(sortField) && sortDirection == old(sortDirection)
      ensures selectedCategories == old(selectedCategories) && selectedStatuses == old(selectedStatuses)
    {
      selectedSuppliers := Lists.Toggle(selectedSuppliers, id, checked);
    }

    /** `clearFilters`: facets and search are reset, the sort and the selection stay. */
    method ClearFilters()
      modifies this
      ensures selectedCategories == [] && selectedStatuses == [] && searchTerm == ""
      ensures selectedSuppliers == old(selectedSuppliers)
      ensures sortField == old(sortField) && sortDirection == old(sortDirection)
      ensures !HasActiveFilters()
      ensures multiset(Filtered()) == multiset(suppliers)
    {
      selectedCategories := [];
      selectedStatuses := [];
      searchTerm := "";
      ClearedFiltersShowAll(suppliers, sortField, sortDirection);
    }
  }
}
