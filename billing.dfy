/**
  The bookkeeping rules of the billing window as pure functions: the checks
  made when an item is added to the cart, the cart's totals, the ledger rows a
  committed bill appends, and the stock deduction it applies.
 */
module Billing {
  import opened Tables

  /** The fixed tax rate, 5%. */
  const TaxRate: real := 0.05

  /** The customer recorded when the customer field is left empty. */
  const WalkInCustomer: string := "Walk-in Customer"

  /** What adding an item to the cart does: an error message or a new cart line. */
  datatype AddOutcome = ProductNotFound | InsufficientStock(available: int) | Added(line: CartLine)

  /** The cart's summary figures shown under the item table and on the receipt. */
  datatype Totals = Totals(subtotal: real, tax: real, total: real)

  /** `line` is a snapshot of product `p` sold in quantity `qty`. */
  ghost predicate Snapshot(line: CartLine, p: Product, qty: int)
  {
    && line.productId == p.id
    && line.name == p.name
    && line.price == p.price
    && line.quantity == qty
    && line.subtotal == qty as real * p.price
  }

  /**
    The checks add_item makes, against the inventory as it is stored now. The
    cart is not an argument: stock is not reserved by earlier lines of the cart.
    Neither the sign of `qty` nor that of the price is checked.
   */
  function CheckAdd(inv: seq<Product>, pid: int, qty: int): (r: AddOutcome)
    ensures r.ProductNotFound? <==> forall j :: 0 <= j < |inv| ==> inv[j].id != pid
    ensures r.InsufficientStock? <==>
              exists k :: FirstWithId(inv, k, pid) && inv[k].quantity < qty
    ensures r.InsufficientStock? ==>
              exists k :: FirstWithId(inv, k, pid) && r.available == inv[k].quantity
    ensures r.Added? <==> exists k :: FirstWithId(inv, k, pid) && qty <= inv[k].quantity
    ensures r.Added? ==> exists k :: FirstWithId(inv, k, pid) && Snapshot(r.line, inv[k], qty)
  {
    match FindProduct(inv, pid)
    case None => ProductNotFound
    case Some(k) =>
      assert forall j :: FirstWithId(inv, j, pid) ==> j == k;
      var p := inv[k];
      if p.quantity < qty then InsufficientStock(p.quantity)
      else Added(CartLine(pid, p.name, qty, p.price, qty as real * p.price))
  }

  /** The sum of the line subtotals of a cart. */
  function CartSubtotal(cart: seq<CartLine>): real
  {
    if cart == [] then 0.0 else CartSubtotal(cart[..|cart| - 1]) + cart[|cart| - 1].subtotal
  }

  /** The subtotal of two carts joined is the sum of their subtotals. */
  lemma {:induction false} CartSubtotalConcat(a: seq<CartLine>, b: seq<CartLine>)
    ensures CartSubtotal(a + b) == CartSubtotal(a) + CartSubtotal(b)
  {
    if b == [] {
      assert a + b == a;
    } else {
      var b0 := b[..|b| - 1];
      assert (a + b)[..|a + b| - 1] == a + b0;
      CartSubtotalConcat(a, b0);
    }
  }

  /** The totals calculate_totals shows for a cart. */
  function CalculateTotals(cart: seq<CartLine>): (t: Totals)
    ensures t.total == t.subtotal + t.tax
    ensures t.subtotal == CartSubtotal(cart)
    ensures t.tax == t.subtotal * TaxRate
    ensures cart == [] ==> t == Totals(0.0, 0.0, 0.0)
  {
    var subtotal := CartSubtotal(cart);
    var tax := subtotal * TaxRate;
    Totals(subtotal, tax, subtotal + tax)
  }

  /**
    Adding a line raises the cart's subtotal by exactly that line's subtotal,
    and tax and total follow.
   */
  lemma AddLineTotals(cart: seq<CartLine>, line: CartLine)
    ensures CalculateTotals(cart + [line]).subtotal == CalculateTotals(cart).subtotal + line.subtotal
  {
    CartSubtotalConcat(cart, [line]);
    assert CartSubtotal([line]) == CartSubtotal([]) + line.subtotal;
  }

  /** The customer written on the bill: the entry's text, or the walk-in placeholder when empty. */
  function CustomerName(entry: string): (r: string)
    ensures r != ""
    ensures entry != "" ==> r == entry
    ensures entry == "" ==> r == WalkInCustomer
  {
    if entry == "" then WalkInCustomer else entry
  }

  /** The ledger row written for one cart line; tax and total are taken from the line's subtotal. */
  function MakeBillLine(line: CartLine, billId: string, date: string, customer: string): (b: BillLine)
    ensures b.billId == billId && b.date == date && b.customer == customer
    ensures b.product == line.name && b.quantity == line.quantity && b.price == line.price
    ensures b.subtotal == line.subtotal
    ensures b.tax == b.subtotal * TaxRate && b.total == b.subtotal + b.tax
  {
    BillLine(billId, date, line.name, line.quantity, line.price,
             line.subtotal, line.subtotal * 0.05, line.subtotal * 1.05, customer)
  }

  /** The ledger rows a committed cart appends: one per line, in cart order. */
  function BillLines(cart: seq<CartLine>, billId: string, date: string, customer: string): (r: seq<BillLine>)
    ensures |r| == |cart|
    ensures forall k :: 0 <= k < |r| ==> r[k].billId == billId && r[k].date == date && r[k].customer == customer
    ensures forall k :: 0 <= k < |r| ==>
              && r[k].product == cart[k].name && r[k].quantity == cart[k].quantity
              && r[k].price == cart[k].price && r[k].subtotal == cart[k].subtotal
              && r[k].tax == cart[k].subtotal * TaxRate && r[k].total == r[k].subtotal + r[k].tax
  {
    seq(|cart|, k requires 0 <= k < |cart| => MakeBillLine(cart[k], billId, date, customer))
  }

  /** Sum of the `total` column of ledger rows. */
  function LedgerTotal(rows: seq<BillLine>): real
  {
    if rows == [] then 0.0 else LedgerTotal(rows[..|rows| - 1]) + rows[|rows| - 1].total
  }

  /** Sum of the `tax` column of ledger rows. */
  function LedgerTax(rows: seq<BillLine>): real
  {
    if rows == [] then 0.0 else LedgerTax(rows[..|rows| - 1]) + rows[|rows| - 1].tax
  }

  /**
    The rows of one bill add up to the receipt: their taxes sum to the cart's
    tax and their totals to the cart's total.
   */
  lemma {:induction false} BillLinesAddUp(cart: seq<CartLine>, billId: string, date: string, customer: string)
    ensures LedgerTax(BillLines(cart, billId, date, customer)) == CalculateTotals(cart).tax
    ensures LedgerTotal(BillLines(cart, billId, date, customer)) == CalculateTotals(cart).total
  {
    if cart != [] {
      var c0 := cart[..|cart| - 1];
      var rows := BillLines(cart, billId, date, customer);
      assert rows[..|rows| - 1] == BillLines(c0, billId, date, customer);
      BillLinesAddUp(c0, billId, date, customer);
    }
  }

  /** The total quantity of product `pid` over the lines of a cart. */
  function CartQty(cart: seq<CartLine>, pid: int): int
  {
    if cart == [] then 0
    else CartQty(cart[..|cart| - 1], pid) + (if cart[|cart| - 1].productId == pid then cart[|cart| - 1].quantity else 0)
  }

  /** The inventory after a committed cart: each line's quantity is taken off its product, in cart order. */
  function ApplySale(inv: seq<Product>, cart: seq<CartLine>): (r: seq<Product>)
    ensures |r| == |inv|
  {
    if cart == [] then inv
    else
      var last := cart[|cart| - 1];
      AdjustQuantity(ApplySale(inv, cart[..|cart| - 1]), last.productId, -last.quantity)
  }

  /**
    The stock effect of a committed cart: row k loses the cart's total quantity
    for its id, and nothing else about any row changes. Rows whose id is not in
    the cart are unchanged.
   */
  lemma {:induction false} ApplySaleEffect(inv: seq<Product>, cart: seq<CartLine>)
    ensures |ApplySale(inv, cart)| == |inv|
    ensures forall k :: 0 <= k < |inv| ==>
              ApplySale(inv, cart)[k] == inv[k].(quantity := inv[k].quantity - CartQty(cart, inv[k].id))
  {
    if cart != [] {
      var c0 := cart[..|cart| - 1];
      ApplySaleEffect(inv, c0);
      var mid := ApplySale(inv, c0);
      var last := cart[|cart| - 1];
      var r := ApplySale(inv, cart);
      assert r == AdjustQuantity(mid, last.productId, -last.quantity);
      forall k | 0 <= k < |inv|
        ensures r[k] == inv[k].(quantity := inv[k].quantity - CartQty(cart, inv[k].id))
      {
        assert mid[k].id == inv[k].id;
        assert r[k].(quantity := mid[k].quantity) == mid[k];
      }
    }
  }

  /** A product none of whose id appears in the cart is sold in quantity zero. */
  lemma {:induction false} CartQtyAbsent(cart: seq<CartLine>, pid: int)
    requires forall i :: 0 <= i < |cart| ==> cart[i].productId != pid
    ensures CartQty(cart, pid) == 0
  {
    if cart != [] {
      CartQtyAbsent(cart[..|cart| - 1], pid);
    }
  }

  /** A committed cart leaves every row whose product is not in the cart exactly as it was. */
  lemma ApplySaleLeavesOthers(inv: seq<Product>, cart: seq<CartLine>, k: int)
    requires 0 <= k < |inv|
    requires forall i :: 0 <= i < |cart| ==> cart[i].productId != inv[k].id
    ensures ApplySale(inv, cart)[k] == inv[k]
  {
    ApplySaleEffect(inv, cart);
    CartQtyAbsent(cart, inv[k].id);
  }

  /**
    When the cart asks for no more of any product than it has in stock, no
    quantity goes negative. Nothing at commit time enforces this.
   */
  lemma NoOversellKeepsStockNonNegative(inv: seq<Product>, cart: seq<CartLine>)
    requires forall k :: 0 <= k < |inv| ==> CartQty(cart, inv[k].id) <= inv[k].quantity
    ensures forall k :: 0 <= k < |inv| ==> 0 <= ApplySale(inv, cart)[k].quantity
  {
    ApplySaleEffect(inv, cart);
  }

  /** A committed cart keeps every product's id, so it keeps ids unique. */
  lemma ApplySaleKeepsUniqueIds(inv: seq<Product>, cart: seq<CartLine>)
    requires UniqueIds(inv)
    ensures UniqueIds(ApplySale(inv, cart))
  {
    ApplySaleEffect(inv, cart);
    var r := ApplySale(inv, cart);
    forall i, j | 0 <= i < j < |r| ensures r[i].id != r[j].id {
      assert r[i].id == inv[i].id && r[j].id == inv[j].id;
    }
  }

  /**
    Because add_item checks stock against the store only, adding the same
    product twice passes both checks and the commit drives its stock negative:
    10 pens, two lines of 6, and 10 - 12 = -2 remain.
   */
  lemma RepeatedAddOversells()
    ensures var inv := [Product(1, "Pen", 10, 5.0, 3)];
            var first := CheckAdd(inv, 1, 6);
            && first.Added?
            && CheckAdd(inv, 1, 6) == first
            && ApplySale(inv, [first.line, first.line])[0].quantity == -2
  {
    var inv := [Product(1, "Pen", 10, 5.0, 3)];
    assert FindProduct(inv, 1) == Some(0);
    var line := CartLine(1, "Pen", 6, 5.0, 30.0);
    assert CheckAdd(inv, 1, 6) == Added(line);
    ApplySaleEffect(inv, [line, line]);
    assert CartQty([line, line], 1) == 12 by {
      assert [line][..0] == [];
      assert CartQty([line], 1) == 6;
      assert [line, line][..1] == [line];
    }
  }

  /**
    A pen in stock 10 at 5.00: adding 4 and committing for Alice leaves 6 in
    stock and one row with subtotal 20, tax 1 and total 21.
   */
  lemma PenSaleScenario()
    ensures var inv := [Product(1, "Pen", 10, 5.0, 3)];
            var added := CheckAdd(inv, 1, 4);
            && added.Added?
            && ApplySale(inv, [added.line])[0].quantity == 6
            && BillLines([added.line], "B1", "D", CustomerName("Alice"))
               == [BillLine("B1", "D", "Pen", 4, 5.0, 20.0, 1.0, 21.0, "Alice")]
            && CheckAdd(inv, 1, 99) == InsufficientStock(10)
  {
    var inv := [Product(1, "Pen", 10, 5.0, 3)];
    assert FindProduct(inv, 1) == Some(0);
    var line := CartLine(1, "Pen", 4, 5.0, 20.0);
    assert CheckAdd(inv, 1, 4) == Added(line);
    ApplySaleEffect(inv, [line]);
    assert CartQty([line], 1) == 4 by {
      assert [line][..0] == [];
    }
  }
}
