/** Purchase and sales order lines. Prices and discount percentages are exact decimals
    in the application, so they are `real` here; quantities are PositiveIntegerFields. */
module OrderModels {

  datatype PurchaseOrderItem = PurchaseOrderItem(quantityOrdered: nat, quantityReceived: nat, unitPrice: real)

  datatype SalesOrderItem = SalesOrderItem(quantity: nat, unitPrice: real, discountPercentage: real)

  /** PurchaseOrderItem.line_total: ordered quantity times unit price. Nothing is owed for
      a line of no units or at no price, and a line at a non-negative price costs nothing
      negative. The quantity received does not enter. */
  function PurchaseLineTotal(item: PurchaseOrderItem): (r: real)
    ensures r == 0.0 <==> item.quantityOrdered == 0 || item.unitPrice == 0.0
    ensures item.unitPrice >= 0.0 ==> r >= 0.0
  {
    item.quantityOrdered as real * item.unitPrice
  }

  /** SalesOrderItem.line_total: quantity times unit price, less the discount percentage.
      It is zero exactly for no units, no price or a 100% discount. */
  function SalesLineTotal(item: SalesOrderItem): (r: real)
    ensures r == 0.0 <==> item.quantity == 0 || item.unitPrice == 0.0 || item.discountPercentage == 100.0
  {
    item.quantity as real * item.unitPrice * (1.0 - item.discountPercentage / 100.0)
  }

  /** A line with a discount between 0% and 100% and a non-negative price. */
  predicate OrdinaryLine(item: SalesOrderItem) {
    0.0 <= item.discountPercentage <= 100.0 && item.unitPrice >= 0.0
  }

  /** The sum of the line totals of a sequence of sales order lines: nothing for no lines,
      and for ordinary lines between zero and the undiscounted amount. */
  function ItemsTotal(items: seq<SalesOrderItem>): (r: real)
    ensures items == [] ==> r == 0.0
    ensures (forall k :: 0 <= k < |items| ==> OrdinaryLine(items[k])) ==> 0.0 <= r <= GrossTotal(items)
  {
    if items == [] then 0.0
    else
      var last := items[|items| - 1];
      SalesLineTotalBounds(last);
      ItemsTotal(items[..|items| - 1]) + SalesLineTotal(last)
  }

  /** The sum of quantity times price, before discounts. */
  function GrossTotal(items: seq<SalesOrderItem>): real {
    if items == [] then 0.0
    else GrossTotal(items[..|items| - 1]) + items[|items| - 1].quantity as real * items[|items| - 1].unitPrice
  }

  /** No discount gives quantity times price; a 100% discount gives nothing. */
  lemma SalesLineTotalDiscountEnds(item: SalesOrderItem)
    ensures item.discountPercentage == 0.0 ==> SalesLineTotal(item) == item.quantity as real * item.unitPrice
    ensures item.discountPercentage == 100.0 ==> SalesLineTotal(item) == 0.0
  {
  }

  /** For a discount between 0% and 100% and a non-negative price the line total lies
      between zero and the undiscounted amount. */
  lemma SalesLineTotalBounds(item: SalesOrderItem)
    ensures OrdinaryLine(item) ==> 0.0 <= SalesLineTotal(item) <= item.quantity as real * item.unitPrice
  {
    if !OrdinaryLine(item) {
      return;
    }
    var gross := item.quantity as real * item.unitPrice;
    var factor := 1.0 - item.discountPercentage / 100.0;
    assert 0.0 <= factor <= 1.0;
    assert gross >= 0.0;
    assert SalesLineTotal(item) == gross * factor;
    assert gross * factor <= gross * 1.0;
  }

  /** The total of lines written in the form (100 - d) / 100 used by the sales order
      form equals the model's line total. */
  lemma FormTermIsLineTotal(item: SalesOrderItem)
    ensures item.quantity as real * item.unitPrice * (100.0 - item.discountPercentage) / 100.0
         == SalesLineTotal(item)
  {
    var gross := item.quantity as real * item.unitPrice;
    assert (100.0 - item.discountPercentage) / 100.0 == 1.0 - item.discountPercentage / 100.0;
    assert gross * (100.0 - item.discountPercentage) / 100.0 == gross * ((100.0 - item.discountPercentage) / 100.0);
  }

  /** The total of two lists of lines is the sum of their totals. */
  lemma {:induction false} ItemsTotalConcat(a: seq<SalesOrderItem>, b: seq<SalesOrderItem>)
    ensures ItemsTotal(a + b) == ItemsTotal(a) + ItemsTotal(b)
  {
    if b == [] {
      assert a + b == a;
    } else {
      assert (a + b)[..|a + b| - 1] == a + b[..|b| - 1];
      ItemsTotalConcat(a, b[..|b| - 1]);
    }
  }
}
