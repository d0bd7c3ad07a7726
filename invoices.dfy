/**
 * The invoice list page (app/sales/invoices/page.tsx): six filters, a sort
 * by one of four columns, pagination, the selection check boxes and the
 * statistics cards.
 */
module Invoices {

  import opened Wrappers
  import Text
  import Lists
  import Sorting
  import Paging

  datatype InvoiceStatus = Paid | Pending | Overdue | OtherStatus(name: string)

  /** An invoice record; dates are day numbers and amounts exact reals. */
  datatype Invoice = Invoice(
    id: string,
    supplier: string,
    supplierEmail: string,
    amount: real,
    dueDate: int,
    status: InvoiceStatus,
    paymentMethod: string,
    issueDate: int,
    category: string)

  /** The three tabs above the table. */
  datatype Tab = AllTab | PendingTab | PaidTab

  datatype SortField = Supplier | Amount | DueDate | IssueDate

  /** The due-date select: all dates, the current month, the current year or a picked range. */
  datatype DateFilter = AllDates | CurrentMonth | Annual | Custom

  /** A date range whose bounds may each be unset. */
  datatype DateRange = DateRange(from: Option<int>, to: Option<int>)

  /** The two ranges the clock determines when the page renders. */
  datatype Calendar = Calendar(currentMonth: DateRange, currentYear: DateRange)

  /** Every filter input the page holds, as one value. */
  datatype Query = Query(
    tab: Tab,
    searchTerm: string,
    categories: seq<string>,
    paymentMethods: seq<string>,
    minAmount: Option<real>,
    maxAmount: Option<real>,
    dates: DateRange)

  /** The range `getDateFilterRange` returns for the chosen option. */
  function DateFilterRange(f: DateFilter, custom: DateRange, cal: Calendar): (r: DateRange)
    ensures f == AllDates ==> r.from.None? && r.to.None?
    ensures f == Custom ==> r == custom
  {
    match f
    case AllDates => DateRange(None, None)
    case CurrentMonth => cal.currentMonth
    case Annual => cal.currentYear
    case Custom => custom
  }

  predicate TabMatches(inv: Invoice, tab: Tab)
  {
    match tab
    case PendingTab => inv.status == Pending || inv.status == Overdue
    case PaidTab => inv.status == Paid
    case AllTab => true
  }

  predicate SearchMatches(inv: Invoice, term: string)
  {
    Text.ContainsIgnoringCase(inv.supplier, term) || Text.ContainsIgnoringCase(inv.id, term)
  }

  /** An empty minimum counts as 0 and an empty maximum as no bound; both ends are inclusive. */
  predicate AmountMatches(inv: Invoice, min: Option<real>, max: Option<real>)
  {
    inv.amount >= (if min.Some? then min.value else 0.0)
    && (max.None? || inv.amount <= max.value)
  }

  /** Only the bounds that are set apply, both inclusive. */
  predicate DueDateMatches(inv: Invoice, range: DateRange)
  {
    (range.from.None? || inv.dueDate >= range.from.value)
    && (range.to.None? || inv.dueDate <= range.to.value)
  }

  /** The predicate the page passes to `filter`. */
  predicate Passes(inv: Invoice, q: Query)
  {
    TabMatches(inv, q.tab)
    && SearchMatches(inv, q.searchTerm)
    && Lists.FacetAllows(q.categories, inv.category)
    && Lists.FacetAllows(q.paymentMethods, inv.paymentMethod)
    && AmountMatches(inv, q.minAmount, q.maxAmount)
    && DueDateMatches(inv, q.dates)
  }

  function PassesQuery(q: Query): Invoice -> bool
  {
    inv => Passes(inv, q)
  }

  /** The value the comparator reads: the lower-cased supplier, the amount or a date. */
  function Key(field: SortField, inv: Invoice): Sorting.SortKey
  {
    match field
    case Supplier => Sorting.Str(Text.Lower(inv.supplier))
    case Amount => Sorting.Num(inv.amount)
    case DueDate => Sorting.Num(inv.dueDate as real)
    case IssueDate => Sorting.Num(inv.issueDate as real)
  }

  function KeyOf(field: SortField): Invoice -> Sorting.SortKey
  {
    inv => Key(field, inv)
  }

  /** `filteredInvoices`: the matching invoices sorted by the chosen column. */
  function FilteredInvoices(all: seq<Invoice>, q: Query, field: SortField, dir: Sorting.Direction): seq<Invoice>
  {
    Sorting.SortBy(Lists.Filter(all, PassesQuery(q)), KeyOf(field), dir)
  }

  /**
   * The filtered list holds exactly the invoices that pass every filter, as
   * often as they occur in the data, ordered by the column, and invoices with
   * equal keys keep the order of the data.
   */
  lemma FilteredInvoicesCorrect(all: seq<Invoice>, q: Query, field: SortField, dir: Sorting.Direction)
    ensures var r := FilteredInvoices(all, q, field, dir);
      && (forall inv :: inv in r <==> inv in all && Passes(inv, q))
      && (forall inv :: multiset(r)[inv] == if Passes(inv, q) then multiset(all)[inv] else 0)
      && Sorting.Sorted(r, KeyOf(field), dir)
      && (forall k :: Sorting.WithKey(r, KeyOf(field), k) == Sorting.WithKey(Lists.Filter(all, PassesQuery(q)), KeyOf(field), k))
  {
    var f := Lists.Filter(all, PassesQuery(q));
    var r := FilteredInvoices(all, q, field, dir);
    forall inv ensures multiset(r)[inv] == if Passes(inv, q) then multiset(all)[inv] else 0 {
      Lists.FilterCount(all, PassesQuery(q), inv);
    }
    forall inv ensures inv in r <==> inv in f {
      assert inv in r <==> inv in multiset(r);
      assert inv in f <==> inv in multiset(f);
    }
    Sorting.SortBySorted(f, KeyOf(field), dir);
    forall k ensures Sorting.WithKey(r, KeyOf(field), k) == Sorting.WithKey(f, KeyOf(field), k) {
      Sorting.SortByStable(f, KeyOf(field), dir, k);
    }
  }

  /**
   * What the sort order means column by column: amounts numerically, dates
   * chronologically, suppliers by their lower-cased names.
   */
  lemma FilteredInvoicesOrder(all: seq<Invoice>, q: Query, field: SortField, dir: Sorting.Direction, i: int, j: int)
    requires 0 <= i < j < |FilteredInvoices(all, q, field, dir)|
    ensures var a, b := FilteredInvoices(all, q, field, dir)[i], FilteredInvoices(all, q, field, dir)[j];
      && (field == Amount && dir == Sorting.Asc ==> a.amount <= b.amount)
      && (field == Amount && dir == Sorting.Desc ==> a.amount >= b.amount)
      && (field == DueDate && dir == Sorting.Asc ==> a.dueDate <= b.dueDate)
      && (field == DueDate && dir == Sorting.Desc ==> a.dueDate >= b.dueDate)
      && (field == IssueDate && dir == Sorting.Asc ==> a.issueDate <= b.issueDate)
      && (field == IssueDate && dir == Sorting.Desc ==> a.issueDate >= b.issueDate)
      && (field == Supplier && dir == Sorting.Asc ==> !Sorting.StrLess(Text.Lower(b.supplier), Text.Lower(a.supplier)))
      && (field == Supplier && dir == Sorting.Desc ==> !Sorting.StrLess(Text.Lower(a.supplier), Text.Lower(b.supplier)))
  {
    var f := Lists.Filter(all, PassesQuery(q));
    Sorting.SortBySorted(f, KeyOf(field), dir);
    var r := FilteredInvoices(all, q, field, dir);
    assert Sorting.InOrder(KeyOf(field)(r[i]), KeyOf(field)(r[j]), dir);
  }

  /** With every filter cleared the page shows each invoice of the tab whose amount is not negative. */
  lemma ClearedQueryPasses(inv: Invoice, tab: Tab)
    ensures Passes(inv, Query(tab, "", [], [], None, None, DateRange(None, None)))
        <==> TabMatches(inv, tab) && inv.amount >= 0.0
  {
    Text.ContainsIgnoringCaseEmpty(inv.supplier);
  }

  /** The figures of the four statistics cards. */
  datatype Stats = Stats(totalFiltered: real, pendingFiltered: real, paidFiltered: real, overdueCount: nat)

  predicate IsOpen(inv: Invoice) { inv.status == Pending || inv.status == Overdue }

  predicate IsPaid(inv: Invoice) { inv.status == Paid }

  predicate IsOverdue(inv: Invoice) { inv.status == Overdue }

  function AmountOf(inv: Invoice): real { inv.amount }

  /** `filteredStats`: sums and a count over the filtered list before pagination. */
  function FilteredStats(filtered: seq<Invoice>): (r: Stats)
    ensures r.overdueCount <= |filtered|
    ensures r.overdueCount == |Lists.Filter(filtered, IsOverdue)|
  {
    Stats(
      Lists.Sum(filtered, AmountOf),
      Lists.Sum(Lists.Filter(filtered, IsOpen), AmountOf),
      Lists.Sum(Lists.Filter(filtered, IsPaid), AmountOf),
      Lists.Count(filtered, IsOverdue))
  }

  /** When every status is pending, overdue or paid, the total splits into open plus paid. */
  lemma StatsTotalSplits(filtered: seq<Invoice>)
    requires forall inv :: inv in filtered ==> inv.status in {Pending, Overdue, Paid}
    ensures FilteredStats(filtered).totalFiltered
         == FilteredStats(filtered).pendingFiltered + FilteredStats(filtered).paidFiltered
  {
    Lists.SumPartition(filtered, AmountOf, IsOpen, IsPaid);
  }

  /** The sort order does not change the statistics' total: it is the sum over the matching invoices. */
  lemma StatsTotalIgnoresSort(all: seq<Invoice>, q: Query, field: SortField, dir: Sorting.Direction)
    ensures FilteredStats(FilteredInvoices(all, q, field, dir)).totalFiltered
         == Lists.Sum(Lists.Filter(all, PassesQuery(q)), AmountOf)
  {
    Sorting.SortBySum(Lists.Filter(all, PassesQuery(q)), KeyOf(field), dir, AmountOf);
  }

  function IdOf(inv: Invoice): string { inv.id }

  /** The state the invoice list page keeps. */
  class InvoiceList {
    const invoices: seq<Invoice>
    var activeTab: Tab
    var searchTerm: string
    var selectedInvoices: seq<string>
    var sortField: SortField
    var sortDirection: Sorting.Direction
    var currentPage: nat
    var itemsPerPage: int
    var selectedCategories: seq<string>
    var selectedPaymentMethods: seq<string>
    var minAmount: Option<real>
    var maxAmount: Option<real>
    var dateFilter: DateFilter
    var customDateRange: DateRange

    /** Pages count from 1 and the rows-per-page value is one the select offers. */
    predicate Valid()
      reads this
    {
      currentPage >= 1 && Paging.ValidPerPage(itemsPerPage)
    }

    constructor(invoices: seq<Invoice>)
      ensures Valid()
      ensures this.invoices == invoices
      ensures activeTab == PendingTab && searchTerm == "" && selectedInvoices == []
      ensures sortField == DueDate && sortDirection == Sorting.Asc
      ensures currentPage == 1 && itemsPerPage == 10
      ensures selectedCategories == [] && selectedPaymentMethods == []
      ensures minAmount == None && maxAmount == None
      ensures dateFilter == AllDates && customDateRange == DateRange(None, None)
    {
      this.invoices := invoices;
      activeTab := PendingTab;
      searchTerm := "";
      selectedInvoices := [];
      sortField := DueDate;
      sortDirection := Sorting.Asc;
      currentPage := 1;
      itemsPerPage := 10;
      selectedCategories := [];
      selectedPaymentMethods := [];
      minAmount := None;
      maxAmount := None;
      dateFilter := AllDates;
      customDateRange := DateRange(None, None);
    }

    function CurrentQuery(cal: Calendar): Query
      reads this
    {
      Query(activeTab, searchTerm, selectedCategories, selectedPaymentMethods, minAmount, maxAmount,
            DateFilterRange(dateFilter, customDateRange, cal))
    }

    function Filtered(cal: Calendar): seq<Invoice>
      reads this
    {
      FilteredInvoices(invoices, CurrentQuery(cal), sortField, sortDirection)
    }

    /** `paginatedInvoices` */
    function Page(cal: Calendar): (r: seq<Invoice>)
      requires Valid()
      reads this
      ensures itemsPerPage > 0 ==> |r| <= itemsPerPage
      ensures itemsPerPage == Paging.ShowAll ==> r == Filtered(cal)
    {
      Paging.PageOf(Filtered(cal), itemsPerPage, currentPage)
    }

    function TotalPages(cal: Calendar): Option<nat>
      requires Valid()
      reads this
    {
      Paging.TotalPages(|Filtered(cal)|, itemsPerPage)
    }

    /** The header check box: as many selected ids as rows on the page, and the page not empty. */
    predicate HeaderChecked(cal: Calendar)
      requires Valid()
      reads this
    {
      Lists.HeaderState(|selectedInvoices|, |Page(cal)|) == Lists.Checked
    }

    predicate HasActiveFilters()
      reads this
    {
      |selectedCategories| > 0 || |selectedPaymentMethods| > 0
      || minAmount.Some? || maxAmount.Some? || searchTerm != "" || dateFilter != AllDates
      || customDateRange.from.Some? || customDateRange.to.Some?
    }

    /** The pagination bar shows only for a page size and more than one page. */
    predicate PagerShown(cal: Calendar)
      requires Valid()
      reads this
    {
      itemsPerPage != Paging.ShowAll && TotalPages(cal).Some? && TotalPages(cal).value > 1
    }

    method SetTab(tab: Tab)
      modifies this
      ensures activeTab == tab
      ensures searchTerm == old(searchTerm) && selectedInvoices == old(selectedInvoices)
      ensures sortField == old(sortField) && sortDirection == old(sortDirection)
      ensures currentPage == old(currentPage) && itemsPerPage == old(itemsPerPage)
      ensures selectedCategories == old(selectedCategories) && selectedPaymentMethods == old(selectedPaymentMethods)
      ensures minAmount == old(minAmount) && maxAmount == old(maxAmount)
      ensures dateFilter == old(dateFilter) && customDateRange == old(customDateRange)
    {
      activeTab := tab;
    }

    method SetSearchTerm(term: string)
      modifies this
      ensures searchTerm == term
      ensures activeTab == old(activeTab) && selectedInvoices == old(selectedInvoices)
      ensures sortField == old(sortField) && sortDirection == old(sortDirection)
      ensures currentPage == old(currentPage) && itemsPerPage == old(itemsPerPage)
      ensures selectedCategories == old(selectedCategories) && selectedPaymentMethods == old(selectedPaymentMethods)
      ensures minAmount == old(minAmount) && maxAmount == old(maxAmount)
      ensures dateFilter == old(dateFilter) && customDateRange == old(customDateRange)
    {
      searchTerm := term;
    }

    /** A category check box: checking appends, unchecking removes every occurrence. */
    method ToggleCategory(category: string, checked: bool)
      modifies this
      ensures selectedCategories == Lists.Toggle(old(selectedCategories), category, checked)
      ensures activeTab == old(activeTab) && searchTerm == old(searchTerm) && selectedInvoices == old(selectedInvoices)
      ensures sortField == old(sortField) && sortDirection == old(sortDirection)
      ensures currentPage == old(currentPage) && itemsPerPage == old(itemsPerPage)
      ensures selectedPaymentMethods == old(selectedPaymentMethods)
      ensures minAmount == old(minAmount) && maxAmount == old(maxAmount)
      ensures dateFilter == old(dateFilter) && customDateRange == old(customDateRange)
    {
      selectedCategories := Lists.Toggle(selectedCategories, category, checked);
    }

    /** A payment-method check box, like the category boxes. */
    method TogglePaymentMethod(paymentMethod: string, checked: bool)
      modifies this
      ensures selectedPaymentMethods == Lists.Toggle(old(selectedPaymentMethods), paymentMethod, checked)
      ensures activeTab == old(activeTab) && searchTerm == old(searchTerm) && selectedInvoices == old(selectedInvoices)
      ensures sortField == old(sortField) && sortDirection == old(sortDirection)
      ensures currentPage == old(currentPage) && itemsPerPage == old(itemsPerPage)
      ensures selectedCategories == old(selectedCategories)
      ensures minAmount == old(minAmount) && maxAmount == old(maxAmount)
      ensures dateFilter == old(dateFilter) && customDateRange == old(customDateRange)
    {
      selectedPaymentMethods := Lists.Toggle(selectedPaymentMethods, paymentMethod, checked);
    }

    /** The two amount inputs; `None` is an empty input. */
    method SetAmountRange(min: Option<real>, max: Option<real>)
      modifies this
      ensures minAmount == min && maxAmount == max
      ensures activeTab == old(activeTab) && searchTerm == old(searchTerm) && selectedInvoices == old(selectedInvoices)
      ensures sortField == old(sortField) && sortDirection == old(sortDirection)
      ensures currentPage == old(currentPage) && itemsPerPage == old(itemsPerPage)
      ensures selectedCategories == old(selectedCategories) && selectedPaymentMethods == old(selectedPaymentMethods)
      ensures dateFilter == old(dateFilter) && customDateRange == old(customDateRange)
    {
      minAmount := min;
      maxAmount := max;
    }

    /** The due-date select and the two calendar pickers of the custom range. */
    method SetDateFilter(f: DateFilter, custom: DateRange)
      modifies this
      ensures dateFilter == f && customDateRange == custom
      ensures activeTab == old(activeTab) && searchTerm == old(searchTerm) && selectedInvoices == old(selectedInvoices)
      ensures sortField == old(sortField) && sortDirection == old(sortDirection)
      ensures currentPage == old(currentPage) && itemsPerPage == old(itemsPerPage)
      ensures selectedCategories == old(selectedCategories) && selectedPaymentMethods == old(selectedPaymentMethods)
      ensures minAmount == old(minAmount) && maxAmount == old(maxAmount)
    {
      dateFilter := f;
      customDateRange := custom;
    }

    /** The rows-per-page select also returns to page 1. */
    method SetItemsPerPage(n: int)
      requires Valid()
      requires n in {5, 10, 50, 100, Paging.ShowAll}
      modifies this
      ensures Valid()
      ensures itemsPerPage == n && currentPage == 1
      ensures activeTab == old(activeTab) && searchTerm == old(searchTerm) && selectedInvoices == old(selectedInvoices)
      ensures sortField == old(sortField) && sortDirection == old(sortDirection)
      ensures selectedCategories == old(selectedCategories) && selectedPaymentMethods == old(selectedPaymentMethods)
      ensures minAmount == old(minAmount) && maxAmount == old(maxAmount)
      ensures dateFilter == old(dateFilter) && customDateRange == old(customDateRange)
    {
      itemsPerPage := n;
      currentPage := 1;
    }

    /** "Previous": disabled on page 1. */
    method PreviousPage(cal: Calendar)
      requires Valid()
      modifies this
      ensures Valid()
      ensures currentPage == if old(PagerShown(cal)) && old(currentPage) != 1 then old(currentPage) - 1 else old(currentPage)
      ensures activeTab == old(activeTab) && searchTerm == old(searchTerm) && selectedInvoices == old(selectedInvoices)
      ensures sortField == old(sortField) && sortDirection == old(sortDirection) && itemsPerPage == old(itemsPerPage)
      ensures selectedCategories == old(selectedCategories) && selectedPaymentMethods == old(selectedPaymentMethods)
      ensures minAmount == old(minAmount) && maxAmount == old(maxAmount)
      ensures dateFilter == old(dateFilter) && customDateRange == old(customDateRange)
    {
      if PagerShown(cal) && currentPage != 1 {
        currentPage := currentPage - 1;
      }
    }

    /** "Next": disabled only when the current page number equals the page count. */
    method NextPage(cal: Calendar)
      requires Valid()
      modifies this
      ensures Valid()
      ensures currentPage == if old(PagerShown(cal)) && old(TotalPages(cal)) != Some(old(currentPage)) then old(currentPage) + 1 else old(currentPage)
      ensures activeTab == old(activeTab) && searchTerm == old(searchTerm) && selectedInvoices == old(selectedInvoices)
      ensures sortField == old(sortField) && sortDirection == old(sortDirection) && itemsPerPage == old(itemsPerPage)
      ensures selectedCategories == old(selectedCategories) && selectedPaymentMethods == old(selectedPaymentMethods)
      ensures minAmount == old(minAmount) && maxAmount == old(maxAmount)
      ensures dateFilter == old(dateFilter) && customDateRange == old(customDateRange)
    {
      if PagerShown(cal) && TotalPages(cal) != Some(currentPage) {
        currentPage := currentPage + 1;
      }
    }

    /** `handleSort` */
    method HandleSort(field: SortField)
      modifies this
      ensures (sortField, sortDirection) == Sorting.NextSort(old(sortField), old(sortDirection), field)
      ensures activeTab == old(activeTab) && searchTerm == old(searchTerm) && selectedInvoices == old(selectedInvoices)
      ensures currentPage == old(currentPage) && itemsPerPage == old(itemsPerPage)
      ensures selectedCategories == old(selectedCategories) && selectedPaymentMethods == old(selectedPaymentMethods)
      ensures minAmount == old(minAmount) && maxAmount == old(maxAmount)
      ensures dateFilter == old(dateFilter) && customDateRange == old(customDateRange)
    {
      if sortField == field {
        sortDirection := if sortDirection == Sorting.Asc then Sorting.Desc else Sorting.Asc;
      } else {
        sortField := field;
        sortDirection := Sorting.Asc;
      }
    }

    /**
     * The header check box: checking selects the ids of the rows on the
     * current page only, unchecking clears the selection.
     */
    method HandleSelectAll(checked: bool, cal: Calendar)
      requires Valid()
      modifies this
      ensures Valid()
      ensures checked ==> selectedInvoices == Lists.Map(old(Page(cal)), IdOf)
      ensures !checked ==> selectedInvoices == []
      ensures activeTab == old(activeTab) && searchTerm == old(searchTerm)
      ensures sortField == old(sortField) && sortDirection == old(sortDirection)
      ensures currentPage == old(currentPage) && itemsPerPage == old(itemsPerPage)
      ensures selectedCategories == old(selectedCategories) && selectedPaymentMethods == old(selectedPaymentMethods)
      ensures minAmount == old(minAmount) && maxAmount == old(maxAmount)
      ensures dateFilter == old(dateFilter) && customDateRange == old(customDateRange)
      ensures HeaderChecked(cal) <==> checked && |Page(cal)| > 0
    {
      if checked {
        selectedInvoices := Lists.Map(Page(cal), IdOf);
      } else {
        selectedInvoices := [];
      }
    }

    /** A row's check box: checking appends the id, unchecking removes every occurrence. */
    method HandleSelectInvoice(id: string, checked: bool)
      modifies this
      ensures selectedInvoices == Lists.Toggle(old(selectedInvoices), id, checked)
      ensures activeTab == old(activeTab) && searchTerm == old(searchTerm)
      ensures sortField == old(sortField) && sortDirection == old(sortDirection)
      ensures currentPage == old(currentPage) && itemsPerPage == old(itemsPerPage)
      ensures selectedCategories == old(selectedCategories) && selectedPaymentMethods == old(selectedPaymentMethods)
      ensures minAmount == old(minAmount) && maxAmount == old(maxAmount)
      ensures dateFilter == old(dateFilter) && customDateRange == old(customDateRange)
    {
      selectedInvoices := Lists.Toggle(selectedInvoices, id, checked);
    }

    /** `clearFilters`: the six filter inputs go back to their defaults; tab, sort, page and selection stay. */
    method ClearFilters()
      modifies this
      ensures selectedCategories == [] && selectedPaymentMethods == []
      ensures minAmount == None && maxAmount == None && searchTerm == ""
      ensures dateFilter == AllDates && customDateRange == DateRange(None, None)
      ensures activeTab == old(activeTab) && selectedInvoices == old(selectedInvoices)
      ensures sortField == old(sortField) && sortDirection == old(sortDirection)
      ensures currentPage == old(currentPage) && itemsPerPage == old(itemsPerPage)
      ensures !HasActiveFilters()
      ensures forall cal: Calendar, inv: Invoice :: Passes(inv, CurrentQuery(cal)) <==> TabMatches(inv, activeTab) && inv.amount >= 0.0
    {
      selectedCategories := [];
      selectedPaymentMethods := [];
      minAmount := None;
      maxAmount := None;
      searchTerm := "";
      dateFilter := AllDates;
      customDateRange := DateRange(None, None);
      forall cal: Calendar, inv: Invoice
        ensures Passes(inv, CurrentQuery(cal)) <==> TabMatches(inv, activeTab) && inv.amount >= 0.0
      {
        ClearedQueryPasses(inv, activeTab);
      }
    }
  }
}
