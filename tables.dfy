/**
  The three in-memory tables of the inventory system: the inventory, the bill
  ledger and the rows of a cart. The tables are read from and written to CSV
  files by the program; here they are plain sequences of records.

  Money is a `real`: the program keeps prices and amounts as floating-point
  numbers, and its two-decimal rounding is not modelled.
 */
module Tables {

  datatype Option<+T> = None | Some(value: T)

  /** One row of the inventory table (product_id, name, quantity, price, min_stock). */
  datatype Product = Product(id: int, name: string, quantity: int, price: real, minStock: int)

  /** One row of a cart: a snapshot of the product's name and price at the time it was added. */
  datatype CartLine = CartLine(productId: int, name: string, quantity: int, price: real, subtotal: real)

  /** One row of the bill ledger; a bill with several products is several rows sharing billId and date. */
  datatype BillLine = BillLine(billId: string, date: string, product: string, quantity: int,
                               price: real, subtotal: real, tax: real, total: real, customer: string)

  /** The elements of `s` that satisfy `keep`, in their original order (a boolean-mask selection). */
  function Filter<T(==,!new)>(s: seq<T>, keep: T -> bool): (r: seq<T>)
    ensures |r| <= |s|
    ensures forall i :: 0 <= i < |r| ==> keep(r[i])
    ensures forall x :: x in r <==> x in s && keep(x)
    ensures forall x :: multiset(r)[x] == if keep(x) then multiset(s)[x] else 0
  {
    if s == [] then []
    else
      assert s == [s[0]] + s[1..];
      if keep(s[0]) then [s[0]] + Filter(s[1..], keep)
      else Filter(s[1..], keep)
  }

  /** A mask that selects every element selects the sequence itself. */
  lemma {:induction false} FilterAll<T(!new)>(s: seq<T>, keep: T -> bool)
    requires forall i :: 0 <= i < |s| ==> keep(s[i])
    ensures Filter(s, keep) == s
  {
    if s != [] {
      assert keep(s[0]);
      FilterAll(s[1..], keep);
    }
  }

  /** Selecting from a sequence that starts with `x`: `x` is kept exactly when the mask holds for it. */
  lemma FilterCons<T(!new)>(x: T, s: seq<T>, keep: T -> bool)
    ensures Filter([x] + s, keep) == if keep(x) then [x] + Filter(s, keep) else Filter(s, keep)
  {
    assert ([x] + s)[0] == x && ([x] + s)[1..] == s;
  }

  /** Joining sequences is associative. */
  lemma AppendAssoc<T>(p: seq<T>, q: seq<T>, u: seq<T>)
    ensures p + (q + u) == (p + q) + u
  {
  }

  /** One induction step of `FilterConcat`: putting `x` in front of the first table. */
  lemma FilterConcatStep<T(!new)>(x: T, rest: seq<T>, b: seq<T>, keep: T -> bool)
    requires Filter(rest + b, keep) == Filter(rest, keep) + Filter(b, keep)
    ensures Filter([x] + rest + b, keep) == Filter([x] + rest, keep) + Filter(b, keep)
  {
    AppendAssoc([x], rest, b);
    FilterCons(x, rest + b, keep);
    FilterCons(x, rest, keep);
    if keep(x) {
      AppendAssoc([x], Filter(rest, keep), Filter(b, keep));
    }
  }

  /**
    Selection keeps the input's order: selecting from two tables joined is
    the selection from the first followed by the selection from the second.
   */
  lemma {:induction false} FilterConcat<T(!new)>(a: seq<T>, b: seq<T>, keep: T -> bool)
    ensures Filter(a + b, keep) == Filter(a, keep) + Filter(b, keep)
  {
    if a == [] {
      assert a + b == b;
    } else {
      var x, rest := a[0], a[1..];
      assert a == [x] + rest;
      FilterConcat(rest, b, keep);
      FilterConcatStep(x, rest, b, keep);
    }
  }

  /** Selecting twice with the same mask is selecting once. */
  lemma FilterIdempotent<T(!new)>(s: seq<T>, keep: T -> bool)
    ensures Filter(Filter(s, keep), keep) == Filter(s, keep)
  {
    FilterAll(Filter(s, keep), keep);
  }

  /** A row with index k is the first whose id is pid. */
  ghost predicate FirstWithId(inv: seq<Product>, k: int, pid: int)
  {
    0 <= k < |inv| && inv[k].id == pid && forall j :: 0 <= j < k ==> inv[j].id != pid
  }

  /** Looks a product id up in the inventory: the index of the first matching row, if any. */
  function FindProduct(inv: seq<Product>, pid: int): (r: Option<nat>)
    ensures r.Some? ==> FirstWithId(inv, r.value, pid)
    ensures r.None? <==> forall j :: 0 <= j < |inv| ==> inv[j].id != pid
  {
    if inv == [] then None
    else if inv[0].id == pid then Some(0)
    else match FindProduct(inv[1..], pid)
      case None => None
      case Some(k) => Some(k + 1)
  }

  /**
    Adds `delta` to the quantity of every row whose id is `pid` (a masked column
    update): nothing but those quantities changes.
   */
  function AdjustQuantity(inv: seq<Product>, pid: int, delta: int): (r: seq<Product>)
    ensures |r| == |inv|
    ensures forall k :: 0 <= k < |inv| ==> r[k].(quantity := inv[k].quantity) == inv[k]
    ensures forall k :: 0 <= k < |inv| ==>
              r[k].quantity == inv[k].quantity + (if inv[k].id == pid then delta else 0)
  {
    seq(|inv|, k requires 0 <= k < |inv| =>
      if inv[k].id == pid then inv[k].(quantity := inv[k].quantity + delta) else inv[k])
  }

  /** No two rows share a product id. */
  ghost predicate UniqueIds(inv: seq<Product>)
  {
    forall i, j :: 0 <= i < j < |inv| ==> inv[i].id != inv[j].id
  }

  /** The largest product id of a non-empty inventory. */
  function MaxId(inv: seq<Product>): (m: int)
    requires |inv| > 0
    ensures exists k :: 0 <= k < |inv| && inv[k].id == m
    ensures forall k :: 0 <= k < |inv| ==> inv[k].id <= m
  {
    if |inv| == 1 then inv[0].id
    else
      var rest := MaxId(inv[1..]);
      if inv[0].id >= rest then inv[0].id else rest
  }

  /** The id a new product receives: one more than the largest id, or 1 for an empty inventory. */
  function NextId(inv: seq<Product>): (r: int)
    ensures forall k :: 0 <= k < |inv| ==> inv[k].id < r
    ensures |inv| == 0 ==> r == 1
    ensures |inv| > 0 ==> exists k :: 0 <= k < |inv| && inv[k].id == r - 1
  {
    if |inv| == 0 then 1 else MaxId(inv) + 1
  }

  /** Appending a row with the next id keeps ids unique and keeps every existing row. */
  lemma NewProductKeepsUniqueIds(inv: seq<Product>, name: string, qty: int, price: real, minStock: int)
    requires UniqueIds(inv)
    ensures var inv' := inv + [Product(NextId(inv), name, qty, price, minStock)];
            UniqueIds(inv') && inv'[..|inv|] == inv
  {
    var inv' := inv + [Product(NextId(inv), name, qty, price, minStock)];
    forall i, j | 0 <= i < j < |inv'| ensures inv'[i].id != inv'[j].id {
      if j == |inv| {
        assert inv'[i] == inv[i];
      } else {
        assert inv'[i] == inv[i] && inv'[j] == inv[j];
      }
    }
  }

  /** A quantity update never touches ids, so it keeps ids unique. */
  lemma AdjustKeepsUniqueIds(inv: seq<Product>, pid: int, delta: int)
    requires UniqueIds(inv)
    ensures UniqueIds(AdjustQuantity(inv, pid, delta))
  {
    var r := AdjustQuantity(inv, pid, delta);
    forall i, j | 0 <= i < j < |r| ensures r[i].id != r[j].id {
      assert r[i].(quantity := inv[i].quantity) == inv[i];
      assert r[j].(quantity := inv[j].quantity) == inv[j];
    }
  }
}
