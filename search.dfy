/**
  The two text searches: the bill-history search over bill id, customer and
  product, and the inventory table's name filter. Both are case-insensitive
  substring tests; letters are folded to lower case over ASCII only.
 */
module Search {
  import opened Tables

  /** ASCII lower-casing of one character. */
  function Lower(c: char): char
  {
    if 'A' <= c <= 'Z' then (c as int - 'A' as int + 'a' as int) as char else c
  }

  /** Lower-casing of a string, character by character. */
  function LowerStr(s: string): (r: string)
    ensures |r| == |s|
    ensures forall i :: 0 <= i < |s| ==> r[i] == Lower(s[i])
    ensures forall i :: 0 <= i < |r| ==> !('A' <= r[i] <= 'Z')
    ensures forall i :: 0 <= i < |s| && !('A' <= s[i] <= 'Z') ==> r[i] == s[i]
  {
    seq(|s|, i requires 0 <= i < |s| => Lower(s[i]))
  }

  /** Lower-casing twice is lower-casing once. */
  lemma LowerStrIdempotent(s: string)
    ensures LowerStr(LowerStr(s)) == LowerStr(s)
  {
  }

  /** `q` occurs in `t` at position i. */
  ghost predicate OccursAt(t: string, q: string, i: int)
  {
    0 <= i && i + |q| <= |t| && t[i..i + |q|] == q
  }

  /** An occurrence in the tail of `t` is an occurrence in `t` one position further right. */
  lemma OccursInTail(t: string, q: string)
    requires |t| > 0
    ensures (exists i :: OccursAt(t[1..], q, i)) <==> (exists i :: 0 < i && OccursAt(t, q, i))
  {
    forall i | OccursAt(t[1..], q, i) ensures OccursAt(t, q, i + 1) {
      assert t[1..][i..i + |q|] == t[i + 1..i + 1 + |q|];
    }
    forall i | 0 < i && OccursAt(t, q, i) ensures OccursAt(t[1..], q, i - 1) {
      assert t[1..][i - 1..i - 1 + |q|] == t[i..i + |q|];
    }
  }

  /** Whether `q` occurs in `t`, trying each start position from the left. */
  function Contains(t: string, q: string): (r: bool)
    ensures r <==> exists i :: OccursAt(t, q, i)
    decreases |t|
  {
    if |t| < |q| then false
    else if t[..|q|] == q then
      assert OccursAt(t, q, 0);
      true
    else
      OccursInTail(t, q);
      Contains(t[1..], q)
  }

  /** Every string contains the empty string. */
  lemma ContainsEmpty(t: string)
    ensures Contains(t, "")
  {
    assert OccursAt(t, "", 0);
  }

  /** A case-insensitive substring test. */
  function ContainsIgnoreCase(t: string, q: string): bool
  {
    Contains(LowerStr(t), LowerStr(q))
  }

  /** A bill row matches a query when its bill id, customer or product contains it. */
  predicate BillMatches(b: BillLine, q: string)
  {
    ContainsIgnoreCase(b.billId, q) || ContainsIgnoreCase(b.customer, q) || ContainsIgnoreCase(b.product, q)
  }

  /**
    The bill-history search: the typed text is lower-cased; an empty query lists
    every row, any other the rows that match it, in ledger order.
   */
  function SearchBills(bills: seq<BillLine>, text: string): (r: seq<BillLine>)
    ensures |r| <= |bills|
    ensures forall b :: b in r <==> b in bills && BillMatches(b, text)
    ensures forall b :: multiset(r)[b] == if BillMatches(b, text) then multiset(bills)[b] else 0
    ensures text == "" ==> r == bills
  {
    var query := LowerStr(text);
    LowerStrIdempotent(text);
    if query == "" then
      assert forall b :: BillMatches(b, text) by {
        forall b ensures BillMatches(b, text) {
          ContainsEmpty(LowerStr(b.billId));
        }
      }
      bills
    else Filter(bills, (b: BillLine) => BillMatches(b, query))
  }

  /**
    The search keeps ledger order and every matching row, duplicates included:
    searching two ledgers joined is searching each and joining the results.
   */
  lemma SearchBillsConcat(a: seq<BillLine>, b: seq<BillLine>, text: string)
    ensures SearchBills(a + b, text) == SearchBills(a, text) + SearchBills(b, text)
  {
    if LowerStr(text) != "" {
      FilterConcat(a, b, (x: BillLine) => BillMatches(x, LowerStr(text)));
    }
  }

  /**
    The empty-query branch of the bill search is redundant: selecting the rows
    that contain the empty query selects them all.
   */
  lemma EmptyQueryMatchesAll(bills: seq<BillLine>)
    ensures Filter(bills, (b: BillLine) => BillMatches(b, "")) == bills
  {
    forall i | 0 <= i < |bills| ensures BillMatches(bills[i], "") {
      ContainsEmpty(LowerStr(bills[i].billId));
    }
    FilterAll(bills, (b: BillLine) => BillMatches(b, ""));
  }

  /**
    The inventory table's filter: an empty filter text shows every row, any
    other the rows whose name contains it, ignoring case, in inventory order.
   */
  function FilterInventory(inv: seq<Product>, text: string): (r: seq<Product>)
    ensures |r| <= |inv|
    ensures text != "" ==> forall p :: p in r <==> p in inv && ContainsIgnoreCase(p.name, text)
    ensures text != "" ==> forall p :: multiset(r)[p] == if ContainsIgnoreCase(p.name, text) then multiset(inv)[p] else 0
    ensures text == "" ==> r == inv
  {
    if text == "" then inv else Filter(inv, (p: Product) => ContainsIgnoreCase(p.name, text))
  }
}
