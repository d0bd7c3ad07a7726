/**
 * The new-invoice form (app/sales/invoices/new/page.tsx): a list of line
 * items, each with a stored total, and the subtotal, discount, tax and total
 * derived from them.
 */
module NewInvoice {

  import opened Wrappers
  import Lists

  datatype InvoiceItem = InvoiceItem(id: string, description: string, quantity: int, unitPrice: real, total: real)

  datatype DiscountType = Percentage | Fixed

  /** An edit made through one of a line's inputs. */
  datatype ItemEdit = EditDescription(description: string) | EditQuantity(quantity: int) | EditUnitPrice(unitPrice: real)

  /** A new, empty line. */
  function BlankItem(id: string): InvoiceItem
  {
    InvoiceItem(id, "", 1, 0.0, 0.0)
  }

  /** The line's stored total agrees with its quantity and unit price. */
  predicate TotalConsistent(item: InvoiceItem)
  {
    item.total == item.quantity as real * item.unitPrice
  }

  function IdOf(item: InvoiceItem): string { item.id }

  /** No two lines share an id. */
  predicate DistinctIds(items: seq<InvoiceItem>)
  {
    Lists.DistinctBy(items, IdOf)
  }

  predicate HasId(items: seq<InvoiceItem>, id: string)
  {
    exists i :: 0 <= i < |items| && items[i].id == id
  }

  /** The form's invariant on its lines: never empty, one line per id, every stored total consistent. */
  predicate ValidItems(items: seq<InvoiceItem>)
  {
    |items| >= 1 && DistinctIds(items) && forall i :: 0 <= i < |items| ==> TotalConsistent(items[i])
  }

  /**
   * One edit applied to one line: only the edited field changes, and an edit
   * of the quantity or unit price recomputes the total.
   */
  function ApplyEdit(item: InvoiceItem, edit: ItemEdit): (r: InvoiceItem)
    ensures r.id == item.id
    ensures edit.EditDescription? ==> r == item.(description := edit.description)
    ensures edit.EditQuantity? ==> r.quantity == edit.quantity && r.description == item.description && r.unitPrice == item.unitPrice && TotalConsistent(r)
    ensures edit.EditUnitPrice? ==> r.unitPrice == edit.unitPrice && r.description == item.description && r.quantity == item.quantity && TotalConsistent(r)
    ensures TotalConsistent(item) ==> TotalConsistent(r)
  {
    match edit
    case EditDescription(d) => item.(description := d)
    case EditQuantity(q) => item.(quantity := q, total := q as real * item.unitPrice)
    case EditUnitPrice(p) => item.(unitPrice := p, total := item.quantity as real * p)
  }

  /** `updateItem`: the edit is applied to the lines with that id, every other line is kept. */
  function UpdateItem(items: seq<InvoiceItem>, id: string, edit: ItemEdit): (r: seq<InvoiceItem>)
    ensures |r| == |items|
    ensures forall i :: 0 <= i < |r| ==> r[i] == if items[i].id == id then ApplyEdit(items[i], edit) else items[i]
  {
    seq(|items|, i requires 0 <= i < |items| => if items[i].id == id then ApplyEdit(items[i], edit) else items[i])
  }

  function OtherThan(id: string): InvoiceItem -> bool
  {
    (item: InvoiceItem) => item.id != id
  }

  /** `removeItem`: with more than one line the line with that id goes; the last line is never removed. */
  function RemoveItem(items: seq<InvoiceItem>, id: string): (r: seq<InvoiceItem>)
    ensures |items| <= 1 ==> r == items
    ensures |items| > 1 ==> forall item :: item in r <==> item in items && item.id != id
    ensures |items| > 1 ==> forall item :: multiset(r)[item] == if item.id != id then multiset(items)[item] else 0
    ensures Lists.IsSubsequence(r, items)
  {
    if |items| > 1 then
      Lists.FilterIsSubsequence(items, OtherThan(id));
      forall item ensures multiset(Lists.Filter(items, OtherThan(id)))[item] == if item.id != id then multiset(items)[item] else 0 {
        Lists.FilterCount(items, OtherThan(id), item);
      }
      Lists.Filter(items, OtherThan(id))
    else
      Lists.FilterIsSubsequence(items, _ => true);
      Lists.FilterAll(items, _ => true);
      items
  }

  /** Every line operation keeps the invariant: the list stays non-empty, ids distinct, totals consistent. */
  lemma UpdateItemKeepsValid(items: seq<InvoiceItem>, id: string, edit: ItemEdit)
    requires ValidItems(items)
    ensures ValidItems(UpdateItem(items, id, edit))
  {
  }

  lemma AddItemKeepsValid(items: seq<InvoiceItem>, freshId: string)
    requires ValidItems(items) && !HasId(items, freshId)
    ensures ValidItems(items + [BlankItem(freshId)])
  {
  }

  lemma RemoveItemKeepsValid(items: seq<InvoiceItem>, id: string)
    requires ValidItems(items)
    ensures ValidItems(RemoveItem(items, id))
  {
    var r := RemoveItem(items, id);
    if |items| > 1 {
      // Two lines have different ids, so at least one of them survives.
      var keep := if items[0].id != id then items[0] else items[1];
      assert keep in r;
      forall i | 0 <= i < |r| ensures TotalConsistent(r[i]) {
        assert r[i] in items;
      }
      Lists.SubsequenceDistinctBy(r, items, IdOf);
    }
  }

  function TotalOf(item: InvoiceItem): real { item.total }

  function PriceTimesQuantity(item: InvoiceItem): real { item.quantity as real * item.unitPrice }

  /** `subtotal`: the sum of the stored line totals. */
  function Subtotal(items: seq<InvoiceItem>): real
  {
    Lists.Sum(items, TotalOf)
  }

  /** On valid lines the subtotal is the sum of quantity times unit price. */
  lemma SubtotalFromPrices(items: seq<InvoiceItem>)
    requires ValidItems(items)
    ensures Subtotal(items) == Lists.Sum(items, PriceTimesQuantity)
  {
    forall item | item in items ensures TotalOf(item) == PriceTimesQuantity(item) {
      var i :| 0 <= i < |items| && items[i] == item;
    }
    Lists.SumPointwise(items, TotalOf, PriceTimesQuantity);
  }

  function Min(a: real, b: real): real { if a <= b then a else b }

  /** `discountAmount`: a percentage capped at 100 of the subtotal, or the fixed value itself. */
  function DiscountAmount(discountType: DiscountType, value: real, subtotal: real): (r: real)
    ensures discountType == Fixed ==> r == value
    ensures discountType == Percentage && value >= 0.0 && subtotal >= 0.0 ==> 0.0 <= r <= subtotal
    ensures discountType == Percentage && value >= 100.0 ==> r == subtotal
  {
    if discountType == Percentage then
      var v := Min(value, 100.0);
      ScaleBounds(subtotal, v, 100.0);
      subtotal * v / 100.0
    else value
  }

  lemma ScaleBounds(a: real, b: real, c: real)
    ensures a >= 0.0 && 0.0 <= b <= c ==> 0.0 <= a * b <= a * c
  {
    assert a * c - a * b == a * (c - b);
  }

  /** `taxAmount`: the rate applied to the discounted subtotal. */
  function TaxAmount(discountType: DiscountType, value: real, taxRate: real, subtotal: real): real
  {
    (subtotal - DiscountAmount(discountType, value, subtotal)) * taxRate / 100.0
  }

  /** The invoice total: the subtotal less the discount plus the tax. */
  function Total(items: seq<InvoiceItem>, discountType: DiscountType, value: real, taxRate: real): real
  {
    var s := Subtotal(items);
    s - DiscountAmount(discountType, value, s) + TaxAmount(discountType, value, taxRate, s)
  }

  /** The total is the discounted subtotal scaled by one plus the tax rate. */
  lemma TotalIsTaxedNet(items: seq<InvoiceItem>, discountType: DiscountType, value: real, taxRate: real)
    ensures var net := Subtotal(items) - DiscountAmount(discountType, value, Subtotal(items));
      Total(items, discountType, value, taxRate) == net * (1.0 + taxRate / 100.0)
  {
  }

  /**
   * With a percentage discount the cap sits in the computation itself, so no
   * stored value, however it got there, discounts more than the subtotal; with
   * non-negative prices and rate the total is never negative.
   */
  lemma PercentageTotalNonNegative(items: seq<InvoiceItem>, value: real, taxRate: real)
    requires ValidItems(items)
    requires forall i :: 0 <= i < |items| ==> items[i].quantity >= 0 && items[i].unitPrice >= 0.0
    requires value >= 0.0 && taxRate >= 0.0
    ensures Total(items, Percentage, value, taxRate) >= 0.0
  {
    forall item | item in items ensures TotalOf(item) >= 0.0 {
      var i :| 0 <= i < |items| && items[i] == item;
    }
    Lists.SumNonNegative(items, TotalOf);
    TotalIsTaxedNet(items, Percentage, value, taxRate);
    var net := Subtotal(items) - DiscountAmount(Percentage, value, Subtotal(items));
    assert net >= 0.0;
    assert net * (1.0 + taxRate / 100.0) >= 0.0;
  }

  /** The quantity input: a parse that fails (NaN) or yields 0 becomes 1; any other number is kept. */
  function QuantityInput(parsed: Option<int>): (r: int)
    ensures r != 0
    ensures parsed.Some? && parsed.value != 0 ==> r == parsed.value
    ensures parsed.None? || parsed.value == 0 ==> r == 1
  {
    if parsed.Some? && parsed.value != 0 then parsed.value else 1
  }

  /** A real-valued input: a failed parse becomes 0. */
  function RealInput(parsed: Option<real>): (r: real)
    ensures parsed.Some? ==> r == parsed.value
    ensures parsed.None? ==> r == 0.0
  {
    if parsed.Some? then parsed.value else 0.0
  }

  /** The discount input: in percentage mode a value above 100 is stored as 100. */
  function DiscountInput(discountType: DiscountType, parsed: Option<real>): (r: real)
    ensures discountType == Percentage ==> r <= 100.0
    ensures r == RealInput(parsed) || (discountType == Percentage && RealInput(parsed) > 100.0 && r == 100.0)
  {
    var v := RealInput(parsed);
    if discountType == Percentage && v > 100.0 then 100.0 else v
  }

  /** The form's line items and pricing inputs. */
  class InvoiceForm {
    var items: seq<InvoiceItem>
    var discountType: DiscountType
    var discountValue: real
    var taxRate: real

    predicate Valid()
      reads this
    {
      ValidItems(items)
    }

    /** The form opens with one blank line with id "1", a 0% discount and no tax. */
    constructor()
      ensures Valid()
      ensures items == [BlankItem("1")]
      ensures discountType == Percentage && discountValue == 0.0 && taxRate == 0.0
    {
      items := [BlankItem("1")];
      discountType := Percentage;
      discountValue := 0.0;
      taxRate := 0.0;
    }

    /** `addItem`: appends one blank line under a fresh id. */
    method AddItem(freshId: string)
      requires Valid() && !HasId(items, freshId)
      modifies this
      ensures Valid()
      ensures items == old(items) + [BlankItem(freshId)]
      ensures discountType == old(discountType) && discountValue == old(discountValue) && taxRate == old(taxRate)
    {
      AddItemKeepsValid(items, freshId);
      items := items + [BlankItem(freshId)];
    }

    method HandleRemoveItem(id: string)
      requires Valid()
      modifies this
      ensures Valid()
      ensures items == RemoveItem(old(items), id)
      ensures discountType == old(discountType) && discountValue == old(discountValue) && taxRate == old(taxRate)
    {
      RemoveItemKeepsValid(items, id);
      items := RemoveItem(items, id);
    }

    method HandleUpdateItem(id: string, edit: ItemEdit)
      requires Valid()
      modifies this
      ensures Valid()
      ensures items == UpdateItem(old(items), id, edit)
      ensures discountType == old(discountType) && discountValue == old(discountValue) && taxRate == old(taxRate)
    {
      UpdateItemKeepsValid(items, id, edit);
      items := UpdateItem(items, id, edit);
    }

    /** The discount type select; the stored value is kept. */
    method SetDiscountType(t: DiscountType)
      modifies this
      ensures discountType == t && discountValue == old(discountValue)
      ensures items == old(items) && taxRate == old(taxRate)
    {
      discountType := t;
    }

    method SetDiscountValue(parsed: Option<real>)
      modifies this
      ensures discountValue == DiscountInput(discountType, parsed)
      ensures discountType == old(discountType) && items == old(items) && taxRate == old(taxRate)
    {
      discountValue := DiscountInput(discountType, parsed);
    }

    method SetTaxRate(parsed: Option<real>)
      modifies this
      ensures taxRate == RealInput(parsed)
      ensures discountType == old(discountType) && discountValue == old(discountValue) && items == old(items)
    {
      taxRate := RealInput(parsed);
    }
  }
}
