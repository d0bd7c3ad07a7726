/**
 * The new-order form (app/sales/orders/new/page.tsx): a product picker, the
 * cart of order items keyed by product id, a list of payments, and the
 * subtotal, discount, total and remaining balance computed from them.
 */
module NewOrder {

  import Text
  import Lists

  /** A product of the picker's catalogue. */
  datatype CatalogueProduct = CatalogueProduct(id: string, name: string, code: string, price: real, stock: int, category: string)

  const AvailableProducts: seq<CatalogueProduct> := [
    CatalogueProduct("1", "Wireless Headphones", "WH-001", 199.99, 45, "Electronics"),
    CatalogueProduct("2", "Smart Watch", "SW-002", 299.99, 12, "Electronics"),
    CatalogueProduct("3", "Coffee Maker", "CM-003", 89.99, 23, "Home & Kitchen"),
    CatalogueProduct("4", "Yoga Mat", "YM-004", 29.99, 78, "Sports & Fitness"),
    CatalogueProduct("5", "Bluetooth Speaker", "BS-005", 79.99, 34, "Electronics"),
    CatalogueProduct("6", "Desk Lamp", "DL-006", 45.99, 56, "Home & Office")
  ]

  datatype OrderItem = OrderItem(id: string, name: string, code: string, price: real, quantity: int)

  datatype Payment = Payment(id: string, paymentMethod: string, amount: real)

  datatype DiscountType = Percentage | Fixed

  predicate SearchMatches(p: CatalogueProduct, term: string)
  {
    Text.ContainsIgnoringCase(p.name, term) || Text.ContainsIgnoringCase(p.code, term)
  }

  function MatchesTerm(term: string): CatalogueProduct -> bool
  {
    p => SearchMatches(p, term)
  }

  /** The picker's list: the products whose name or code contains the search, in catalogue order. */
  function FilteredProducts(term: string): (r: seq<CatalogueProduct>)
    ensures forall p :: p in r <==> p in AvailableProducts && SearchMatches(p, term)
    ensures Lists.IsSubsequence(r, AvailableProducts)
  {
    Lists.FilterIsSubsequence(AvailableProducts, MatchesTerm(term));
    Lists.Filter(AvailableProducts, MatchesTerm(term))
  }

  function IdOf(item: OrderItem): string { item.id }

  /** No two cart lines share a product id. */
  predicate DistinctIds(items: seq<OrderItem>)
  {
    Lists.DistinctBy(items, IdOf)
  }

  predicate HasId(items: seq<OrderItem>, id: string)
  {
    exists i :: 0 <= i < |items| && items[i].id == id
  }

  /** One more unit on the line with identifier `id`; every other line is kept as it is. */
  function Increment(items: seq<OrderItem>, id: string): (r: seq<OrderItem>)
    ensures |r| == |items|
    ensures forall i :: 0 <= i < |r| ==>
      && r[i].id == items[i].id && r[i].name == items[i].name
      && r[i].code == items[i].code && r[i].price == items[i].price
      && r[i].quantity == items[i].quantity + (if items[i].id == id then 1 else 0)
  {
    if items == [] then []
    else [if items[0].id == id then items[0].(quantity := items[0].quantity + 1) else items[0]] + Increment(items[1..], id)
  }

  /**
   * `addProductToOrder`: a product already in the cart gets one more unit,
   * any other product is appended with quantity 1.
   */
  function AddProduct(items: seq<OrderItem>, p: CatalogueProduct): (r: seq<OrderItem>)
    ensures HasId(items, p.id) ==> r == Increment(items, p.id)
    ensures !HasId(items, p.id) ==> r == items + [OrderItem(p.id, p.name, p.code, p.price, 1)]
    ensures DistinctIds(items) ==> DistinctIds(r)
    ensures HasId(r, p.id)
  {
    if HasId(items, p.id) then
      var r := Increment(items, p.id);
      var k :| 0 <= k < |items| && items[k].id == p.id;
      assert r[k].id == p.id;
      r
    else
      var r := items + [OrderItem(p.id, p.name, p.code, p.price, 1)];
      assert r[|items|].id == p.id;
      r
  }

  /** The value of a cart line. */
  function LineTotal(item: OrderItem): real { item.price * item.quantity as real }

  /** `subtotal`: the sum of price times quantity over the cart. */
  function Subtotal(items: seq<OrderItem>): real
  {
    Lists.Sum(items, LineTotal)
  }

  lemma {:induction false} IncrementAbsent(items: seq<OrderItem>, id: string)
    requires !HasId(items, id)
    ensures Increment(items, id) == items
  {
    if items != [] {
      IncrementAbsent(items[1..], id);
    }
  }

  /** One more unit of a cart line raises the subtotal by that line's price. */
  lemma {:induction false} IncrementSubtotal(items: seq<OrderItem>, k: int)
    requires DistinctIds(items) && 0 <= k < |items|
    ensures Subtotal(Increment(items, items[k].id)) == Subtotal(items) + items[k].price
  {
    var id := items[k].id;
    var r := Increment(items, id);
    assert r[1..] == Increment(items[1..], id);
    if k == 0 {
      IncrementAbsent(items[1..], id);
    } else {
      assert items[1..][k - 1] == items[k];
      IncrementSubtotal(items[1..], k - 1);
    }
  }

  /** Adding a product at its catalogue price raises the subtotal by that price. */
  lemma AddProductSubtotal(items: seq<OrderItem>, p: CatalogueProduct)
    requires DistinctIds(items)
    requires forall i :: 0 <= i < |items| && items[i].id == p.id ==> items[i].price == p.price
    ensures Subtotal(AddProduct(items, p)) == Subtotal(items) + p.price
  {
    if HasId(items, p.id) {
      var k :| 0 <= k < |items| && items[k].id == p.id;
      IncrementSubtotal(items, k);
    } else {
      Lists.SumAppend(items, [OrderItem(p.id, p.name, p.code, p.price, 1)], LineTotal);
    }
  }

  function OtherThan(id: string): OrderItem -> bool
  {
    (item: OrderItem) => item.id != id
  }

  /** `removeItem`: drops the line with that id and keeps the others in order. */
  function RemoveItem(items: seq<OrderItem>, id: string): (r: seq<OrderItem>)
    ensures !HasId(r, id)
    ensures forall item :: item in r <==> item in items && item.id != id
    ensures forall item :: multiset(r)[item] == if item.id != id then multiset(items)[item] else 0
    ensures Lists.IsSubsequence(r, items)
  {
    var r := Lists.Filter(items, OtherThan(id));
    Lists.FilterIsSubsequence(items, OtherThan(id));
    forall item ensures multiset(r)[item] == if item.id != id then multiset(items)[item] else 0 {
      Lists.FilterCount(items, OtherThan(id), item);
    }
    assert forall k :: 0 <= k < |r| ==> r[k] in r;
    r
  }

  /** The line with identifier `id` takes the new quantity; every other line is kept as it is. */
  function SetQuantity(items: seq<OrderItem>, id: string, quantity: int): (r: seq<OrderItem>)
    ensures |r| == |items|
    ensures forall i :: 0 <= i < |r| ==>
      && r[i].id == items[i].id && r[i].name == items[i].name
      && r[i].code == items[i].code && r[i].price == items[i].price
      && r[i].quantity == (if items[i].id == id then quantity else items[i].quantity)
  {
    seq(|items|, i requires 0 <= i < |items| => if items[i].id == id then items[i].(quantity := quantity) else items[i])
  }

  /** `updateQuantity`: a quantity of 0 or less removes the line, any other sets it. */
  function UpdateQuantity(items: seq<OrderItem>, id: string, quantity: int): (r: seq<OrderItem>)
    ensures quantity <= 0 ==> r == RemoveItem(items, id)
    ensures quantity > 0 ==> r == SetQuantity(items, id, quantity)
  {
    if quantity <= 0 then RemoveItem(items, id) else SetQuantity(items, id, quantity)
  }

  /** The cart's invariant: one line per product and at least one unit per line. */
  predicate ValidCart(items: seq<OrderItem>)
  {
    DistinctIds(items) && forall i :: 0 <= i < |items| ==> items[i].quantity >= 1
  }

  /** Every cart operation keeps the cart's invariant. */
  lemma CartOperationsKeepValid(items: seq<OrderItem>, p: CatalogueProduct, id: string, quantity: int)
    requires ValidCart(items)
    ensures ValidCart(AddProduct(items, p))
    ensures ValidCart(UpdateQuantity(items, id, quantity))
    ensures ValidCart(RemoveItem(items, id))
  {
    AddProductValid(items, p);
    RemoveItemValid(items, id);
    if quantity > 0 {
      SetQuantityValid(items, id, quantity);
    }
  }

  lemma AddProductValid(items: seq<OrderItem>, p: CatalogueProduct)
    requires ValidCart(items)
    ensures ValidCart(AddProduct(items, p))
  {
    var r := AddProduct(items, p);
    forall i | 0 <= i < |r| ensures r[i].quantity >= 1 {
      if i < |items| {
        assert r[i].quantity >= items[i].quantity;
      }
    }
  }

  lemma SetQuantityValid(items: seq<OrderItem>, id: string, quantity: int)
    requires ValidCart(items) && quantity > 0
    ensures ValidCart(SetQuantity(items, id, quantity))
  {
    var r := SetQuantity(items, id, quantity);
    assert forall i :: 0 <= i < |r| ==> IdOf(r[i]) == IdOf(items[i]);
  }

  lemma RemoveItemValid(items: seq<OrderItem>, id: string)
    requires ValidCart(items)
    ensures ValidCart(RemoveItem(items, id))
  {
    var r := RemoveItem(items, id);
    forall i | 0 <= i < |r| ensures r[i].quantity >= 1 {
      assert r[i] in items;
    }
    Lists.SubsequenceDistinctBy(r, items, IdOf);
  }

  /** `discountAmount`: a percentage of the subtotal, or the fixed value itself. */
  function DiscountAmount(discountType: DiscountType, value: real, subtotal: real): (r: real)
    ensures discountType == Fixed ==> r == value
    ensures discountType == Percentage && 0.0 <= value <= 100.0 && subtotal >= 0.0 ==> 0.0 <= r <= subtotal
  {
    if discountType == Percentage then
      PercentBounds(subtotal, value);
      subtotal * value / 100.0
    else value
  }

  /** A percentage between 0 and 100 of an amount not below 0 lies between 0 and the amount. */
  lemma PercentBounds(a: real, p: real)
    ensures a >= 0.0 && 0.0 <= p <= 100.0 ==> 0.0 <= a * p / 100.0 <= a
  {
    if a >= 0.0 && 0.0 <= p <= 100.0 {
      var x := a * p;
      assert 0.0 <= x <= a * 100.0 by {
        assert a * 100.0 - x == a * (100.0 - p);
      }
    }
  }

  /** The order total: the subtotal less the discount. */
  function Total(items: seq<OrderItem>, discountType: DiscountType, value: real): real
  {
    Subtotal(items) - DiscountAmount(discountType, value, Subtotal(items))
  }

  /** With prices not negative and a percentage between 0 and 100 the total lies between 0 and the subtotal. */
  lemma PercentageTotalBounds(items: seq<OrderItem>, value: real)
    requires ValidCart(items) && forall i :: 0 <= i < |items| ==> items[i].price >= 0.0
    requires 0.0 <= value <= 100.0
    ensures 0.0 <= Total(items, Percentage, value) <= Subtotal(items)
  {
    forall item | item in items ensures LineTotal(item) >= 0.0 {
      var i :| 0 <= i < |items| && items[i] == item;
    }
    Lists.SumNonNegative(items, LineTotal);
  }

  /** A fixed discount is not clamped: one larger than the subtotal makes the total negative. */
  lemma FixedDiscountCanMakeTotalNegative(items: seq<OrderItem>, value: real)
    requires value > Subtotal(items)
    ensures Total(items, Fixed, value) < 0.0
  {
  }

  /** The discount input: in percentage mode values above 100 are stored as 100. */
  function DiscountInput(discountType: DiscountType, value: real): (r: real)
    ensures discountType == Percentage ==> r <= 100.0
    ensures r == value || (discountType == Percentage && value > 100.0 && r == 100.0)
  {
    if discountType == Percentage && value > 100.0 then 100.0 else value
  }

  function AmountOf(p: Payment): real { p.amount }

  function TotalPaid(payments: seq<Payment>): real
  {
    Lists.Sum(payments, AmountOf)
  }

  /** The amount still to be paid: the total less what the payments cover. */
  function Remaining(items: seq<OrderItem>, discountType: DiscountType, value: real, payments: seq<Payment>): real
  {
    Total(items, discountType, value) - TotalPaid(payments)
  }

  /** Each new payment lowers the remaining balance by its amount. */
  lemma AddPaymentLowersRemaining(items: seq<OrderItem>, discountType: DiscountType, value: real,
                                  payments: seq<Payment>, p: Payment)
    ensures Remaining(items, discountType, value, payments + [p])
         == Remaining(items, discountType, value, payments) - p.amount
  {
    Lists.SumAppend(payments, [p], AmountOf);
  }

  /** The label beside the remaining balance. */
  datatype BalanceLabel = PendingBalance | Overpaid | FullyPaid

  function LabelOf(remaining: real): (r: BalanceLabel)
    ensures r == PendingBalance <==> remaining > 0.0
    ensures r == Overpaid <==> remaining < 0.0
    ensures r == FullyPaid <==> remaining == 0.0
  {
    if remaining > 0.0 then PendingBalance else if remaining < 0.0 then Overpaid else FullyPaid
  }

  function PaymentOtherThan(id: string): Payment -> bool
  {
    (p: Payment) => p.id != id
  }

  /** `removePaymentMethod`: drops every payment with that id, keeping the rest in order. */
  function RemovePayment(payments: seq<Payment>, id: string): (r: seq<Payment>)
    ensures forall p :: p in r <==> p in payments && p.id != id
    ensures forall p :: multiset(r)[p] == if p.id != id then multiset(payments)[p] else 0
    ensures Lists.IsSubsequence(r, payments)
  {
    Lists.FilterIsSubsequence(payments, PaymentOtherThan(id));
    forall p ensures multiset(Lists.Filter(payments, PaymentOtherThan(id)))[p] == if p.id != id then multiset(payments)[p] else 0 {
      Lists.FilterCount(payments, PaymentOtherThan(id), p);
    }
    Lists.Filter(payments, PaymentOtherThan(id))
  }

  /** `updatePaymentAmount`: sets the amount of the payments with that id and nothing else. */
  function UpdatePaymentAmount(payments: seq<Payment>, id: string, amount: real): (r: seq<Payment>)
    ensures |r| == |payments|
    ensures forall i :: 0 <= i < |r| ==>
      r[i].id == payments[i].id && r[i].paymentMethod == payments[i].paymentMethod
      && r[i].amount == (if payments[i].id == id then amount else payments[i].amount)
  {
    seq(|payments|, i requires 0 <= i < |payments| => if payments[i].id == id then payments[i].(amount := amount) else payments[i])
  }

  /** The form's state. */
  class OrderForm {
    var selectedCustomer: string
    var orderItems: seq<OrderItem>
    var productSearch: string
    var discountType: DiscountType
    var discountValue: real
    var paymentMethods: seq<Payment>
    var newPaymentMethod: string
    var newPaymentAmount: real

    predicate Valid()
      reads this
    {
      ValidCart(orderItems)
    }

    constructor()
      ensures Valid()
      ensures selectedCustomer == "" && orderItems == [] && productSearch == ""
      ensures discountType == Percentage && discountValue == 0.0
      ensures paymentMethods == [] && newPaymentMethod == "" && newPaymentAmount == 0.0
    {
      selectedCustomer := "";
      orderItems := [];
      productSearch := "";
      discountType := Percentage;
      discountValue := 0.0;
      paymentMethods := [];
      newPaymentMethod := "";
      newPaymentAmount := 0.0;
    }

    method AddProductToOrder(p: CatalogueProduct)
      requires Valid()
      modifies this
      ensures Valid()
      ensures orderItems == AddProduct(old(orderItems), p)
      ensures paymentMethods == old(paymentMethods) && discountType == old(discountType) && discountValue == old(discountValue)
      ensures newPaymentMethod == old(newPaymentMethod) && newPaymentAmount == old(newPaymentAmount)
      ensures selectedCustomer == old(selectedCustomer) && productSearch == old(productSearch)
    {
      CartOperationsKeepValid(orderItems, p, p.id, 1);
      orderItems := AddProduct(orderItems, p);
    }

    method HandleUpdateQuantity(id: string, quantity: int)
      requires Valid()
      modifies this
      ensures Valid()
      ensures orderItems == UpdateQuantity(old(orderItems), id, quantity)
      ensures paymentMethods == old(paymentMethods) && discountType == old(discountType) && discountValue == old(discountValue)
      ensures newPaymentMethod == old(newPaymentMethod) && newPaymentAmount == old(newPaymentAmount)
      ensures selectedCustomer == old(selectedCustomer) && productSearch == old(productSearch)
    {
      CartOperationsKeepValid(orderItems, AvailableProducts[0], id, quantity);
      orderItems := UpdateQuantity(orderItems, id, quantity);
    }

    method HandleRemoveItem(id: string)
      requires Valid()
      modifies this
      ensures Valid()
      ensures orderItems == RemoveItem(old(orderItems), id)
      ensures paymentMethods == old(paymentMethods) && discountType == old(discountType) && discountValue == old(discountValue)
      ensures newPaymentMethod == old(newPaymentMethod) && newPaymentAmount == old(newPaymentAmount)
      ensures selectedCustomer == old(selectedCustomer) && productSearch == old(productSearch)
    {
      RemoveItemValid(orderItems, id);
      orderItems := RemoveItem(orderItems, id);
    }

    /** The two inputs of a new payment. */
    method SetNewPayment(m: string, amount: real)
      modifies this
      ensures newPaymentMethod == m && newPaymentAmount == amount
      ensures orderItems == old(orderItems) && paymentMethods == old(paymentMethods)
      ensures discountType == old(discountType) && discountValue == old(discountValue)
      ensures selectedCustomer == old(selectedCustomer) && productSearch == old(productSearch)
    {
      newPaymentMethod := m;
      newPaymentAmount := amount;
    }

    /**
     * `addPaymentMethod`: with a method chosen and a positive amount the
     * payment is appended under the fresh id and both inputs are reset;
     * otherwise nothing changes.
     */
    method AddPaymentMethod(freshId: string)
      modifies this
      ensures old(newPaymentMethod) != "" && old(newPaymentAmount) > 0.0 ==>
        paymentMethods == old(paymentMethods) + [Payment(freshId, old(newPaymentMethod), old(newPaymentAmount))]
        && newPaymentMethod == "" && newPaymentAmount == 0.0
      ensures !(old(newPaymentMethod) != "" && old(newPaymentAmount) > 0.0) ==>
        paymentMethods == old(paymentMethods)
        && newPaymentMethod == old(newPaymentMethod) && newPaymentAmount == old(newPaymentAmount)
      ensures orderItems == old(orderItems) && discountType == old(discountType) && discountValue == old(discountValue)
      ensures selectedCustomer == old(selectedCustomer) && productSearch == old(productSearch)
    {
      if newPaymentMethod != "" && newPaymentAmount > 0.0 {
        paymentMethods := paymentMethods + [Payment(freshId, newPaymentMethod, newPaymentAmount)];
        newPaymentMethod := "";
        newPaymentAmount := 0.0;
      }
    }

    method HandleRemovePayment(id: string)
      modifies this
      ensures paymentMethods == RemovePayment(old(paymentMethods), id)
      ensures orderItems == old(orderItems) && discountType == old(discountType) && discountValue == old(discountValue)
      ensures newPaymentMethod == old(newPaymentMethod) && newPaymentAmount == old(newPaymentAmount)
      ensures selectedCustomer == old(selectedCustomer) && productSearch == old(productSearch)
    {
      paymentMethods := RemovePayment(paymentMethods, id);
    }

    method HandleUpdatePaymentAmount(id: string, amount: real)
      modifies this
      ensures paymentMethods == UpdatePaymentAmount(old(paymentMethods), id, amount)
      ensures orderItems == old(orderItems) && discountType == old(discountType) && discountValue == old(discountValue)
      ensures newPaymentMethod == old(newPaymentMethod) && newPaymentAmount == old(newPaymentAmount)
      ensures selectedCustomer == old(selectedCustomer) && productSearch == old(productSearch)
    {
      paymentMethods := UpdatePaymentAmount(paymentMethods, id, amount);
    }

    /** The discount type select; the stored value is kept as it is, even above 100. */
    method SetDiscountType(t: DiscountType)
      modifies this
      ensures discountType == t && discountValue == old(discountValue)
      ensures orderItems == old(orderItems) && paymentMethods == old(paymentMethods)
      ensures newPaymentMethod == old(newPaymentMethod) && newPaymentAmount == old(newPaymentAmount)
      ensures selectedCustomer == old(selectedCustomer) && productSearch == old(productSearch)
    {
      discountType := t;
    }

    /** The discount input, clamped to 100 in percentage mode. */
    method SetDiscountValue(value: real)
      modifies this
      ensures discountValue == DiscountInput(discountType, value) && discountType == old(discountType)
      ensures orderItems == old(orderItems) && paymentMethods == old(paymentMethods)
      ensures newPaymentMethod == old(newPaymentMethod) && newPaymentAmount == old(newPaymentAmount)
      ensures selectedCustomer == old(selectedCustomer) && productSearch == old(productSearch)
    {
      discountValue := DiscountInput(discountType, value);
    }
  }

  /**
   * The clamp acts only while typing: a fixed discount of 150 entered first
   * stays 150 after switching to percentage, and the total becomes negative.
   */
  lemma ClampSkippedBySwitchingType(items: seq<OrderItem>)
    requires Subtotal(items) > 0.0
    ensures var stored := DiscountInput(Fixed, 150.0);
      stored == 150.0 && Total(items, Percentage, stored) < 0.0
  {
  }
}
