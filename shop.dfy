/**
  The state the inventory system changes in place: the store holding the
  inventory and the bill ledger, and a billing window holding its cart.
  Loading the tables from and saving them to files is not modelled: the store
  is the current content of those files.
 */
module Shop {
  import opened Tables
  import opened Billing

  /** The inventory table and the bill ledger. */
  class Store {
    var inventory: seq<Product>
    var bills: seq<BillLine>

    constructor (inventory: seq<Product>, bills: seq<BillLine>)
      ensures this.inventory == inventory && this.bills == bills
    {
      this.inventory := inventory;
      this.bills := bills;
    }

    /**
      Adds `qty` units to every row with id `pid`; an unknown id changes
      nothing. The sign of `qty` is not checked.
     */
    method AddStock(pid: int, qty: int) returns (found: bool)
      modifies this`inventory
      ensures found <==> exists k :: 0 <= k < |old(inventory)| && old(inventory)[k].id == pid
      ensures inventory == if found then AdjustQuantity(old(inventory), pid, qty) else old(inventory)
      ensures UniqueIds(old(inventory)) ==> UniqueIds(inventory)
    {
      found := FindProduct(inventory, pid).Some?;
      if found {
        if UniqueIds(inventory) {
          AdjustKeepsUniqueIds(inventory, pid, qty);
        }
        inventory := AdjustQuantity(inventory, pid, qty);
      }
    }

    /**
      Appends a product under the next free id. A cancelled or empty name adds
      nothing; quantity, price and minimum are not checked.
     */
    method AddNewProduct(name: string, qty: int, price: real, minStock: int) returns (pid: Option<int>)
      modifies this`inventory
      ensures name == "" ==> pid == None && inventory == old(inventory)
      ensures name != "" ==> && pid == Some(NextId(old(inventory)))
                             && inventory == old(inventory) + [Product(pid.value, name, qty, price, minStock)]
      ensures name != "" ==> forall k :: 0 <= k < |old(inventory)| ==> old(inventory)[k].id < pid.value
      ensures UniqueIds(old(inventory)) ==> UniqueIds(inventory)
    {
      if name == "" {
        return None;
      }
      var id := NextId(inventory);
      if UniqueIds(inventory) {
        NewProductKeepsUniqueIds(inventory, name, qty, price, minStock);
      }
      inventory := inventory + [Product(id, name, qty, price, minStock)];
      pid := Some(id);
    }
  }

  /** What the receipt window shows for a committed bill. */
  datatype Receipt = Receipt(billId: string, date: string, customer: string,
                             items: seq<CartLine>, totals: Totals)

  /** What pressing "Generate Bill" leads to. */
  datatype CommitOutcome = EmptyCart | Declined | Committed(receipt: Receipt)

  /**
    A billing window: a cart built against the store, committed as one bill.
    The bill id and date, drawn from a random UUID and the clock by the
    program, and the customer entry's text are parameters.
   */
  class BillingWindow {
    const store: Store
    var currentItems: seq<CartLine>

    constructor (store: Store)
      ensures this.store == store && currentItems == []
    {
      this.store := store;
      currentItems := [];
    }

    /**
      Looks the product up in the store and, if it exists with at least `qty`
      in stock, appends a snapshot line to the cart; otherwise the cart is
      unchanged. The running subtotal grows by the new line's subtotal.
     */
    method AddItem(pid: int, qty: int) returns (r: AddOutcome)
      modifies this`currentItems
      ensures r == CheckAdd(store.inventory, pid, qty)
      ensures currentItems == if r.Added? then old(currentItems) + [r.line] else old(currentItems)
      ensures CalculateTotals(currentItems).subtotal
              == CalculateTotals(old(currentItems)).subtotal + (if r.Added? then r.line.subtotal else 0.0)
    {
      r := CheckAdd(store.inventory, pid, qty);
      if r.Added? {
        AddLineTotals(currentItems, r.line);
        currentItems := currentItems + [r.line];
      }
    }

    /** Empties the cart. */
    method ClearAll()
      modifies this`currentItems
      ensures currentItems == []
    {
      currentItems := [];
    }

    /**
      Commits the cart: one ledger row per line under one bill id and date,
      then each line's quantity taken off its product, then the cart emptied.
      Stock is not checked again, so the commit may leave a quantity negative.
     */
    method GenerateBill(billId: string, date: string, customerEntry: string) returns (receipt: Receipt)
      modifies this`currentItems, store`bills, store`inventory
      ensures receipt == Receipt(billId, date, CustomerName(customerEntry), old(currentItems),
                                 CalculateTotals(old(currentItems)))
      ensures store.bills == old(store.bills) + BillLines(old(currentItems), billId, date, CustomerName(customerEntry))
      ensures store.inventory == ApplySale(old(store.inventory), old(currentItems))
      ensures currentItems == []
    {
      var customer := CustomerName(customerEntry);
      var totals := CalculateTotals(currentItems);

      var bills := store.bills;
      var i := 0;
      while i < |currentItems|
        invariant 0 <= i <= |currentItems|
        invariant bills == old(store.bills) + BillLines(currentItems[..i], billId, date, customer)
      {
        assert BillLines(currentItems[..i + 1], billId, date, customer)
               == BillLines(currentItems[..i], billId, date, customer)
                  + [MakeBillLine(currentItems[i], billId, date, customer)];
        bills := bills + [MakeBillLine(currentItems[i], billId, date, customer)];
        i := i + 1;
      }
      assert currentItems[..i] == currentItems;
      store.bills := bills;

      var inv := store.inventory;
      i := 0;
      while i < |currentItems|
        invariant 0 <= i <= |currentItems|
        invariant inv == ApplySale(old(store.inventory), currentItems[..i])
      {
        var item := currentItems[i];
        assert currentItems[..i + 1][..i] == currentItems[..i];
        inv := AdjustQuantity(inv, item.productId, -item.quantity);
        i := i + 1;
      }
      assert currentItems[..i] == currentItems;
      store.inventory := inv;

      receipt := Receipt(billId, date, customer, currentItems, totals);
      ClearAll();
    }

    /**
      The "Generate Bill" button: an empty cart is refused, and nothing is
      committed unless the user confirms; otherwise the cart is committed.
     */
    method ConfirmGenerateBill(billId: string, date: string, customerEntry: string, confirmed: bool)
      returns (outcome: CommitOutcome)
      modifies this`currentItems, store`bills, store`inventory
      ensures old(currentItems) == [] ==> outcome == EmptyCart
      ensures old(currentItems) != [] && !confirmed ==> outcome == Declined
      ensures outcome.Committed? <==> old(currentItems) != [] && confirmed
      ensures !outcome.Committed? ==> && currentItems == old(currentItems)
                                      && store.bills == old(store.bills)
                                      && store.inventory == old(store.inventory)
      ensures outcome.Committed? ==>
                && outcome.receipt == Receipt(billId, date, CustomerName(customerEntry), old(currentItems),
                                              CalculateTotals(old(currentItems)))
                && store.bills == old(store.bills) + BillLines(old(currentItems), billId, date, CustomerName(customerEntry))
                && store.inventory == ApplySale(old(store.inventory), old(currentItems))
                && currentItems == []
    {
      if currentItems == [] {
        return EmptyCart;
      }
      if !confirmed {
        return Declined;
      }
      var receipt := GenerateBill(billId, date, customerEntry);
      outcome := Committed(receipt);
    }
  }

  /**
    The same product added twice to one cart passes both stock checks, and the
    commit takes the store's 10 pens down to -2.
   */
  method RepeatedAddScenario() returns (remaining: int, rows: nat)
    ensures remaining == -2 && rows == 2
  {
    var store := new Store([Product(1, "Pen", 10, 5.0, 3)], []);
    var window := new BillingWindow(store);
    var first := window.AddItem(1, 6);
    RepeatedAddOversells();
    assert first.Added?;
    var second := window.AddItem(1, 6);
    assert second == first;
    var outcome := window.ConfirmGenerateBill("B1", "2024-01-01 10:00", "", true);
    assert outcome.Committed?;
    assert store.bills[0].customer == WalkInCustomer;
    remaining := store.inventory[0].quantity;
    rows := |store.bills|;
  }
}
