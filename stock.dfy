/**
  Low-stock monitoring: the filter behind the main window's badge and the
  low-stock dialog, and the quantities and total of a purchase order drafted
  from the low-stock rows.
 */
module Stock {
  import opened Tables

  /** A product is low on stock when its quantity is below its minimum. */
  predicate IsLowStock(p: Product)
  {
    p.quantity < p.minStock
  }

  /** The low-stock rows of the inventory, in inventory order. */
  function LowStock(inv: seq<Product>): (r: seq<Product>)
    ensures |r| <= |inv|
    ensures forall p :: p in r <==> p in inv && p.quantity < p.minStock
    ensures forall p :: multiset(r)[p] == if p.quantity < p.minStock then multiset(inv)[p] else 0
  {
    Filter(inv, IsLowStock)
  }

  /** The low-stock rows keep inventory order: the filter of two tables joined is the two filters joined. */
  lemma LowStockConcat(a: seq<Product>, b: seq<Product>)
    ensures LowStock(a + b) == LowStock(a) + LowStock(b)
  {
    FilterConcat(a, b, IsLowStock);
  }

  /** Filtering the low-stock rows again finds them all again. */
  lemma LowStockIdempotent(inv: seq<Product>)
    ensures LowStock(LowStock(inv)) == LowStock(inv)
  {
    FilterIdempotent(inv, IsLowStock);
  }

  /** The state of the main window's low-stock button. */
  datatype Badge = Healthy | Warning(count: nat)

  /** The badge: a warning carrying the number of low-stock rows, or healthy when there are none. */
  function LowStockBadge(inv: seq<Product>): (b: Badge)
    ensures b.Healthy? <==> forall k :: 0 <= k < |inv| ==> inv[k].minStock <= inv[k].quantity
    ensures b.Warning? ==> b.count == |LowStock(inv)| && 0 < b.count <= |inv|
  {
    var low := LowStock(inv);
    if |low| == 0 then
      assert forall k :: 0 <= k < |inv| ==> inv[k] !in low;
      Healthy
    else
      assert low[0] in low;
      Warning(|low|)
  }

  /** The quantity to order for a product: what is missing to reach its minimum. */
  function Needed(p: Product): int
  {
    p.minStock - p.quantity
  }

  /** Every low-stock row needs a positive quantity. */
  lemma LowStockNeedsPositive(inv: seq<Product>)
    ensures forall p :: p in LowStock(inv) ==> 0 < Needed(p)
  {
  }

  /** The cost of one purchase-order line. */
  function LineCost(p: Product): real
  {
    Needed(p) as real * p.price
  }

  /** The purchase-order total: the sum of `needed * price` over the rows, in order. */
  function OrderTotal(rows: seq<Product>): real
  {
    if rows == [] then 0.0 else OrderTotal(rows[..|rows| - 1]) + LineCost(rows[|rows| - 1])
  }

  /** An order for products that each need a positive quantity at a non-negative price costs nothing negative. */
  lemma {:induction false} OrderTotalNonNegative(rows: seq<Product>)
    requires forall k :: 0 <= k < |rows| ==> 0 < Needed(rows[k]) && 0.0 <= rows[k].price
    ensures 0.0 <= OrderTotal(rows)
  {
    if rows != [] {
      var last := rows[|rows| - 1];
      OrderTotalNonNegative(rows[..|rows| - 1]);
      assert 0.0 <= Needed(last) as real;
      assert 0.0 <= LineCost(last);
    }
  }

  /** The order drafted from the low-stock rows is never negative when no price is. */
  lemma LowStockOrderNonNegative(inv: seq<Product>)
    requires forall k :: 0 <= k < |inv| ==> 0.0 <= inv[k].price
    ensures 0.0 <= OrderTotal(LowStock(inv))
  {
    var low := LowStock(inv);
    forall k | 0 <= k < |low| ensures 0 < Needed(low[k]) && 0.0 <= low[k].price {
      assert low[k] in low;
    }
    OrderTotalNonNegative(low);
  }

  /** One line of a purchase order. */
  datatype OrderLine = OrderLine(productId: int, name: string, needed: int, price: real)

  /** A drafted purchase order; the delivery date is supplied by the caller (seven days after the order date). */
  datatype PurchaseOrder = PurchaseOrder(supplier: string, date: string, deliverBy: string,
                                         lines: seq<OrderLine>, total: real)

  /**
    Drafts a purchase order for the given rows, accumulating the total one row
    at a time. Without a supplier name nothing is drafted.
   */
  method GeneratePurchaseOrder(lowStock: seq<Product>, supplier: string, date: string, deliverBy: string)
    returns (po: Option<PurchaseOrder>)
    ensures po.None? <==> supplier == ""
    ensures po.Some? ==> po.value.supplier == supplier && po.value.date == date
                         && po.value.deliverBy == deliverBy
    ensures po.Some? ==> |po.value.lines| == |lowStock|
    ensures po.Some? ==> forall k :: 0 <= k < |lowStock| ==>
              po.value.lines[k] == OrderLine(lowStock[k].id, lowStock[k].name, Needed(lowStock[k]), lowStock[k].price)
    ensures po.Some? ==> po.value.total == OrderTotal(lowStock)
  {
    if supplier == "" {
      return None;
    }
    var lines: seq<OrderLine> := [];
    var total := 0.0;
    var i := 0;
    while i < |lowStock|
      invariant 0 <= i <= |lowStock|
      invariant |lines| == i
      invariant forall k :: 0 <= k < i ==>
                  lines[k] == OrderLine(lowStock[k].id, lowStock[k].name, Needed(lowStock[k]), lowStock[k].price)
      invariant total == OrderTotal(lowStock[..i])
    {
      var row := lowStock[i];
      var needed := row.minStock - row.quantity;
      lines := lines + [OrderLine(row.id, row.name, needed, row.price)];
      total := total + needed as real * row.price;
      assert lowStock[..i + 1][..i] == lowStock[..i];
      i := i + 1;
    }
    assert lowStock[..i] == lowStock;
    po := Some(PurchaseOrder(supplier, date, deliverBy, lines, total));
  }
}
