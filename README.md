# Inventory and billing bookkeeping, modelled in Dafny

This project models the data rules of a desktop point-of-sale and inventory
manager (`main.py`). The program keeps three tables: the inventory
(`product_id, name, quantity, price, min_stock`), the bill ledger (one row per
product sold, all rows of one bill sharing a bill id and a date), and the cart
of an open billing window. Its button handlers change these tables; taken apart
from the widgets they form a small state machine:

- adding an item to the cart, after checking that the product exists and has enough stock;
- the cart's subtotal, 5% tax and total;
- committing the cart as a bill;
- adding stock to a product;
- creating a product under the next free id;
- the low-stock filter, its badge and the purchase order drafted from it;
- the bill-history search and the inventory name filter.

Layout:

- `tables.dfy` (`Tables`): the record types, a generic order-preserving `Filter`, product lookup, the masked quantity update, and id assignment.
- `billing.dfy` (`Billing`): the cart and commit rules as pure functions, with lemmas about totals, ledger rows and stock deduction.
- `stock.dfy` (`Stock`): the low-stock filter and badge, and the purchase-order method with its loop.
- `search.dfy` (`Search`): case-insensitive substring search over bills and product names.
- `shop.dfy` (`Shop`): the state that is changed in place. A `Store` class holds the inventory and the ledger. A `BillingWindow` class holds the cart. Their methods update fields and are proved against the functions of `Billing` and `Tables`.

Money is a `real`, because the program keeps amounts as floats. Tax is
`subtotal * 0.05`. A ledger row's total is `subtotal * 1.05`, as the code
writes it. `MakeBillLine` proves that this equals `subtotal + tax`.

The bill id, the date and the customer entry's text are parameters. So is the
answer to the confirmation dialog.

The model follows what the code does, including behaviour a careful design would avoid:

- Committing a bill does not check stock again. A cart that holds the same product twice can drive its quantity negative. `RepeatedAddOversells` and `RepeatedAddScenario` show this.
- Committing a bill writes no transaction records; only the ledger and the inventory change.
- Creating a product does not reject a negative quantity, price or minimum. Adding stock does not reject a negative amount.
- Commit cannot fail halfway in the code; only its I/O could. So the model has no partial-failure path.

## Model

| member | source | states |
|---|---|---|
| Tables.Filter | main.py:50 | the selection keeps exactly the elements satisfying the mask, each as many times as the input holds it, and drops all others |
| Tables.FilterConcat | main.py:50 | selection keeps the input's order: selecting from two tables joined is the two selections joined |
| Tables.FilterAll | main.py:50 | a mask true on every row selects the whole table unchanged |
| Tables.FilterIdempotent | main.py:56 | filtering the filtered rows again with the same mask changes nothing |
| Tables.FindProduct | main.py:204-208 | returns the index of the first row with the id (the `iloc[0]` row), or none exactly when no row has that id |
| Tables.AdjustQuantity | main.py:343 | every row with the id gains delta in quantity; the other rows, and all other fields, are unchanged |
| Tables.MaxId | main.py:364 | the result is one of the ids and no id exceeds it |
| Tables.NextId | main.py:364 | the new id exceeds every existing id, is one more than an existing id, and is 1 for an empty inventory |
| Tables.NewProductKeepsUniqueIds | main.py:364-371 | appending a product under the next id keeps ids unique and keeps every existing row |
| Tables.AdjustKeepsUniqueIds | main.py:343 | a quantity update keeps ids unique |
| Billing.CheckAdd | main.py:204-222 | not found exactly when no row has the id; insufficient exactly when the first such row has less stock than requested, reporting that stock; otherwise a line snapshotting that row's name and price with subtotal qty*price |
| Billing.CartSubtotalConcat | main.py:239 | the subtotal of two carts joined is the sum of their subtotals |
| Billing.CalculateTotals | main.py:238-241 | subtotal is the sum of the line subtotals; total is subtotal plus tax; tax is 5% of subtotal; an empty cart gives 0, 0, 0 |
| Billing.AddLineTotals | main.py:214-231 | adding a line raises the running subtotal by exactly that line's subtotal |
| Billing.CustomerName | main.py:267 | the entry's text when non-empty, otherwise "Walk-in Customer"; never empty |
| Billing.MakeBillLine | main.py:272-282 | the ledger row carries bill id, date, customer, the line's name, quantity, price and subtotal; its tax is 5% of the subtotal and its total is subtotal plus tax |
| Billing.BillLines | main.py:271-283 | one ledger row per cart line, all with the same bill id, date and customer; row k carries cart line k's name, quantity, price and subtotal, with tax 5% of that subtotal and total subtotal plus tax |
| Billing.BillLinesAddUp | main.py:264-280 | with exact amounts, the taxes and totals of one bill's rows sum to the receipt's tax and total (the program rounds each row, so its sums can differ by rounding) |
| Billing.ApplySale | main.py:289-290 | the commit's stock update keeps the number of inventory rows |
| Billing.ApplySaleEffect | main.py:288-290 | after commit each row's quantity is its old quantity minus the cart's total quantity for its id, and no other field changes |
| Billing.CartQtyAbsent | main.py:290 | a product that no cart line names is sold in quantity zero |
| Billing.ApplySaleLeavesOthers | main.py:290 | a row whose product is not in the cart is left exactly as it was |
| Billing.NoOversellKeepsStockNonNegative | main.py:288-290 | if the cart asks for no more of each product than in stock, no quantity becomes negative |
| Billing.ApplySaleKeepsUniqueIds | main.py:290 | committing a cart keeps ids unique |
| Billing.RepeatedAddOversells | main.py:210 | two adds of 6 from a stock of 10 both pass the check, and the commit leaves -2 |
| Billing.PenSaleScenario | main.py:198-290 | 10 pens at 5.00, add 4, commit for Alice: 6 left, one row with subtotal 20, tax 1, total 21; adding 99 is refused with 10 available |
| Stock.LowStock | main.py:56 | exactly the rows whose quantity is below their minimum, each as many times as the inventory holds it |
| Stock.LowStockConcat | main.py:56 | the low-stock rows keep inventory order |
| Stock.LowStockIdempotent | main.py:72 | the low-stock filter applied to its own result returns it unchanged |
| Stock.LowStockBadge | main.py:57-60 | healthy exactly when no row is below its minimum; a warning carries the number of low-stock rows, at least 1 |
| Stock.LowStockNeedsPositive | main.py:96-97 | every low-stock row needs a positive quantity |
| Stock.OrderTotalNonNegative | main.py:532-536 | with positive needs and non-negative prices the order total is non-negative |
| Stock.LowStockOrderNonNegative | main.py:113 | the order drafted from the low-stock rows costs nothing negative when no price is negative |
| Stock.GeneratePurchaseOrder | main.py:508-536 | no order without a supplier; otherwise one line per row with needed = min_stock - quantity, and the accumulated total equals the sum of needed*price |
| Search.LowerStr | main.py:470 | same length; no upper-case ASCII letter remains, and every other character is kept as it was |
| Search.LowerStrIdempotent | main.py:470 | lower-casing the query before a case-insensitive match changes nothing |
| Search.Contains | main.py:475-477 | true exactly when the query occurs at some position of the text |
| Search.ContainsEmpty | main.py:471-472 | every text contains the empty query |
| Search.SearchBills | main.py:469-478 | exactly the rows whose bill id, customer or product contains the query ignoring case, each as often as the ledger holds it; every row for an empty query |
| Search.SearchBillsConcat | main.py:474-479 | the search keeps ledger order: searching two ledgers joined is the two searches joined |
| Search.EmptyQueryMatchesAll | main.py:471-478 | the empty-query branch agrees with the filter: the empty query matches every row |
| Search.FilterInventory | main.py:49-50 | every row for an empty filter, otherwise exactly the rows whose name contains it ignoring case, each as often as the inventory holds it |
| Shop.Store.AddStock | main.py:342-349 | reports whether the id exists; if it does, adds qty to the rows with that id, otherwise changes nothing; ids stay unique |
| Shop.Store.AddNewProduct | main.py:355-372 | an empty name adds nothing; otherwise appends the product under the next id, above every existing id, keeping existing rows and unique ids |
| Shop.BillingWindow.AddItem | main.py:198-231 | the outcome is the check against the store; the cart gains exactly the new line on success and is unchanged otherwise; the running subtotal follows |
| Shop.BillingWindow.ClearAll | main.py:247-248 | the cart is empty |
| Shop.BillingWindow.GenerateBill | main.py:261-291 | the ledger gains the cart's rows after the old ones, the inventory is the old one minus the cart, the cart is emptied, and the receipt carries the totals |
| Shop.BillingWindow.ConfirmGenerateBill | main.py:253-259 | an empty cart or no confirmation changes nothing; otherwise the commit happens |
| Shop.RepeatedAddScenario | main.py:210-291 | through the classes: adding 6 pens twice from a stock of 10 and committing leaves -2 in stock and two ledger rows |
| Shop.Store.constructor | main.py:15-40 | the store starts with the given inventory and ledger |
| Shop.BillingWindow.constructor | main.py:131 | a new billing window starts with an empty cart |

## Left out

- Reading and writing the CSV files, including falling back to empty tables when a file cannot be read (main.py:15-40): file I/O. The store holds the tables in memory.
- Windows, dialogs, message boxes, the inventory and bill tree views, and the summary label (main.py:65-196, 294-327, 420-483, 561-661): user interface. Each error message becomes an outcome value. The confirmation dialog becomes a parameter.
- `uuid.uuid4()`, `datetime.now()`, `strftime` and the seven-day delivery date (main.py:263, 274, 509, 514): foreign calls. Bill id, dates and delivery date are parameters.
- Floating-point arithmetic and `round(..., 2)` (main.py:278-280): amounts are exact reals.
- Tables.AdjustQuantity, Tables.NextId, Billing.ApplySale: quantities and ids are unbounded integers. The program reads them from the CSV files as 64-bit integers (main.py:17), so its updates at main.py:290 and 343 and its `max() + 1` at main.py:364 wrap around past 2^63-1, which the model does not.
- Billing.BillLinesAddUp: holds for exact amounts only. The program rounds each ledger row's subtotal, tax and total to two places but not the receipt (main.py:264-266), so its row sums can differ from the receipt by rounding.
- `int()` and `float()` parsing of entry text and the exception handlers around it (main.py:200-201, 235-236, 338-339, 350-351, 359-361, 376-377): numbers are parameters. An unparsable entry changes nothing, which is the same as not calling the operation.
- The regular-expression meaning of `str.contains` (main.py:475-477, 50): the query is a plain substring.
- Search.Lower: lower-cases only ASCII letters, where Python folds all of Unicode.
- The charts (main.py:383-412): pandas date parsing, grouping and plotting.
- The text layout of the receipt and the purchase order, `print_receipt` and `export_report` (main.py:301-321, 523-543, 485-556): presentation text and file or browser I/O.
- Refreshing the inventory table and the badge after each change (main.py:330-331, 346-347, 374-375): user interface.
- Shop.BillingWindow.ClearAll: does not model clearing the customer entry and the summary label (main.py:249-251). Those are widgets, and the customer text is a parameter here.
- The transaction log (main.py:24-31) is read only by the charts and by `export_report` (main.py:493). No modelled operation writes it.
