/**
 * The order list page (app/sales/orders/page.tsx): an effect keeps the
 * searched list in a state variable; selection and statistics.
 * Dates are written as integers yyyymmdd.
 */
module Orders {

  import Text
  import Lists

  datatype Order = Order(
    id: string,
    customer: string,
    email: string,
    total: real,
    status: string,
    paymentStatus: string,
    items: int,
    date: int,
    deliveryDate: string)

  /** The page's six orders; a cancelled order has no delivery date ("-"). */
  const SampleOrders: seq<Order> := [
    Order("#ORD-001", "João Silva", "joao@email.com", 1999.0, "completed", "paid", 3, 20240115, "2024-01-18"),
    Order("#ORD-002", "Maria Oliveira", "maria@email.com", 799.0, "processing", "paid", 2, 20240114, "2024-01-17"),
    Order("#ORD-003", "Pedro Santos", "pedro@email.com", 3499.0, "pending", "pending", 5, 20240113, "2024-01-16"),
    Order("#ORD-004", "Ana Sousa", "ana@email.com", 599.0, "completed", "paid", 1, 20240112, "2024-01-15"),
    Order("#ORD-005", "Carlos Ferreira", "carlos@email.com", 249.0, "cancelled", "refunded", 1, 20240111, "-"),
    Order("#ORD-006", "Lucia Costa", "lucia@email.com", 1299.0, "shipped", "paid", 2, 20240110, "2024-01-13")
  ]

  predicate SearchMatches(o: Order, term: string)
  {
    Text.ContainsIgnoringCase(o.id, term)
    || Text.ContainsIgnoringCase(o.customer, term)
    || Text.ContainsIgnoringCase(o.email, term)
  }

  function MatchesTerm(term: string): Order -> bool
  {
    o => SearchMatches(o, term)
  }

  /**
   * The effect's result: the orders matching the search, in their order;
   * the empty term keeps every order.
   */
  function FilteredOrders(all: seq<Order>, term: string): (r: seq<Order>)
    ensures forall o :: o in r <==> o in all && SearchMatches(o, term)
    ensures forall o :: multiset(r)[o] == if SearchMatches(o, term) then multiset(all)[o] else 0
    ensures Lists.IsSubsequence(r, all)
    ensures term == "" ==> r == all
  {
    Lists.FilterIsSubsequence(all, MatchesTerm(term));
    forall o ensures multiset(Lists.Filter(all, MatchesTerm(term)))[o] == if SearchMatches(o, term) then multiset(all)[o] else 0 {
      Lists.FilterCount(all, MatchesTerm(term), o);
    }
    if term == "" then
      EmptyTermMatchesAll(all);
      Lists.Filter(all, MatchesTerm(term))
    else
      Lists.Filter(all, MatchesTerm(term))
  }

  lemma EmptyTermMatchesAll(all: seq<Order>)
    ensures Lists.Filter(all, MatchesTerm("")) == all
  {
    forall o | o in all ensures SearchMatches(o, "") {
      Text.ContainsIgnoringCaseEmpty(o.id);
    }
    Lists.FilterAll(all, MatchesTerm(""));
  }

  predicate IsCompleted(o: Order) { o.status == "completed" }

  predicate IsPending(o: Order) { o.status == "pending" }

  function TotalOf(o: Order): real { o.total }

  /** The statistics cards, over every order. */
  datatype Stats = Stats(totalOrders: nat, completedOrders: nat, pendingOrders: nat, totalRevenue: real)

  function OrderStats(all: seq<Order>): (r: Stats)
    ensures r.completedOrders + r.pendingOrders <= r.totalOrders
    ensures r.totalRevenue == Lists.Sum(Lists.Filter(all, IsCompleted), TotalOf)
  {
    Lists.CountDisjoint(all, IsCompleted, IsPending);
    Stats(|all|, Lists.Count(all, IsCompleted), Lists.Count(all, IsPending),
          Lists.Sum(Lists.Filter(all, IsCompleted), TotalOf))
  }

  /** Revenue counts completed orders only: it never exceeds the sum of all totals when totals are not negative. */
  lemma RevenueAtMostAllTotals(all: seq<Order>)
    requires forall o :: o in all ==> o.total >= 0.0
    ensures OrderStats(all).totalRevenue <= Lists.Sum(all, TotalOf)
  {
    var notCompleted := (o: Order) => !IsCompleted(o);
    Lists.SumPartition(all, TotalOf, IsCompleted, notCompleted);
    Lists.SumNonNegative(Lists.Filter(all, notCompleted), TotalOf);
  }

  lemma SampleCompleted()
    ensures Lists.Filter(SampleOrders, IsCompleted) == [SampleOrders[0], SampleOrders[3]]
  {
    var s := SampleOrders;
    assert Lists.Filter(s[5..], IsCompleted) == [];
    assert Lists.Filter(s[4..], IsCompleted) == [];
    assert Lists.Filter(s[3..], IsCompleted) == [s[3]];
    assert Lists.Filter(s[2..], IsCompleted) == [s[3]];
    assert Lists.Filter(s[1..], IsCompleted) == [s[3]];
  }

  lemma SamplePending()
    ensures Lists.Filter(SampleOrders, IsPending) == [SampleOrders[2]]
  {
    var s := SampleOrders;
    assert Lists.Filter(s[5..], IsPending) == [];
    assert Lists.Filter(s[4..], IsPending) == [];
    assert Lists.Filter(s[3..], IsPending) == [];
    assert Lists.Filter(s[2..], IsPending) == [s[2]];
  }

  lemma SampleStatistics()
    ensures OrderStats(SampleOrders) == Stats(6, 2, 1, 2598.0)
  {
    SampleCompleted();
    SamplePending();
    var c := [SampleOrders[0], SampleOrders[3]];
    assert Lists.Sum(c, TotalOf) == 1999.0 + Lists.Sum(c[1..], TotalOf);
  }

  function IdOf(o: Order): string { o.id }

  /** The page's state; `filteredOrders` is the effect's output. */
  class OrderList {
    const orders: seq<Order>
    var searchTerm: string
    var filteredOrders: seq<Order>
    var selectedOrders: seq<string>

    /** The effect has run. */
    predicate Valid()
      reads this
    {
      filteredOrders == FilteredOrders(orders, searchTerm)
    }

    function Header(): Lists.HeaderBox
      reads this
    {
      Lists.HeaderState(|selectedOrders|, |filteredOrders|)
    }

    constructor(orders: seq<Order>)
      ensures Valid()
      ensures this.orders == orders && searchTerm == "" && selectedOrders == []
      ensures filteredOrders == orders
    {
      this.orders := orders;
      searchTerm := "";
      filteredOrders := orders;
      selectedOrders := [];
    }

    /** Typing in the search box; the effect then recomputes the list. */
    method SetSearchTerm(term: string)
      modifies this
      ensures Valid()
      ensures searchTerm == term && selectedOrders == old(selectedOrders)
    {
      searchTerm := term;
      filteredOrders := Lists.Filter(orders, MatchesTerm(term));
    }

    method HandleSelectAll(checked: bool)
      requires Valid()
      modifies this
      ensures Valid()
      ensures checked ==> selectedOrders == Lists.Map(filteredOrders, IdOf)
      ensures !checked ==> selectedOrders == []
      ensures Header() == if checked && |filteredOrders| > 0 then Lists.Checked else Lists.Unchecked
      ensures searchTerm == old(searchTerm) && filteredOrders == old(filteredOrders)
    {
      if checked {
        selectedOrders := Lists.Map(filteredOrders, IdOf);
      } else {
        selectedOrders := [];
      }
    }

    method HandleSelectOrder(id: string, checked: bool)
      requires Valid()
      modifies this
      ensures Valid()
      ensures selectedOrders == Lists.Toggle(old(selectedOrders), id, checked)
      ensures searchTerm == old(searchTerm) && filteredOrders == old(filteredOrders)
    {
      selectedOrders := Lists.Toggle(selectedOrders, id, checked);
    }
  }
}
