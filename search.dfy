/** The list filters of store/views.py: the `q` search of the item and
    delivery search lists, and the low-stock list. */
module Search {
  import opened Models
  import opened Text

  /** Every token occurs, ignoring case, in `name`: the conjunction of one
      `icontains` lookup per token. */
  predicate MatchesAll(name: string, tokens: seq<string>) {
    forall t <- tokens :: ContainsIgnoringCase(name, t)
  }

  /** `rows.filter(...)`: the rows whose `key` matches every token, in the
      order of `rows`. */
  function KeepMatching<T>(rows: seq<T>, key: T -> string, tokens: seq<string>): seq<T> {
    if rows == [] then []
    else (if MatchesAll(key(rows[0]), tokens) then [rows[0]] else []) + KeepMatching(rows[1..], key, tokens)
  }

  /** What the view answers: the listed rows, or a server error. */
  datatype Listing<T> = Listed(rows: seq<T>) | ServerError

  /** `get_queryset` as written: with a non-empty `q` it folds `and` over
      one lookup per token with no initial value, which raises `TypeError`
      when `q` holds only whitespace. */
  function SearchAsWritten<T>(rows: seq<T>, key: T -> string, q: Option<string>): Listing<T> {
    if q.None? || q.value == "" then Listed(rows)
    else
      var tokens := Tokens(q.value);
      if tokens == [] then ServerError else Listed(KeepMatching(rows, key, tokens))
  }

  /** The evidently intended search: keep the rows whose key contains every
      token of `q`; a query without tokens filters nothing. */
  function Search<T>(rows: seq<T>, key: T -> string, q: Option<string>): seq<T> {
    if q.None? then rows else KeepMatching(rows, key, Tokens(q.value))
  }

  lemma {:induction false} KeepMatchingMembers<T>(rows: seq<T>, key: T -> string, tokens: seq<string>)
    ensures forall x <- KeepMatching(rows, key, tokens) :: x in rows && MatchesAll(key(x), tokens)
    ensures forall x <- rows :: MatchesAll(key(x), tokens) ==> x in KeepMatching(rows, key, tokens)
  {
    if rows != [] {
      KeepMatchingMembers(rows[1..], key, tokens);
    }
  }

  lemma {:induction false} KeepAllMatching<T>(rows: seq<T>, key: T -> string)
    ensures KeepMatching(rows, key, []) == rows
  {
    if rows != [] {
      KeepAllMatching(rows[1..], key);
    }
  }

  /** The search keeps a row exactly when the row is listed and its key
      contains every token of the query, ignoring case. */
  lemma SearchMembers<T>(rows: seq<T>, key: T -> string, q: Option<string>, x: T)
    ensures x in Search(rows, key, q) <==> x in rows && (q.Some? ==> MatchesAll(key(x), Tokens(q.value)))
  {
    if q.Some? {
      KeepMatchingMembers(rows, key, Tokens(q.value));
    }
  }

  /** Without a query, or with one that has no tokens, nothing is filtered. */
  lemma NoTokensNoFilter<T>(rows: seq<T>, key: T -> string, q: Option<string>)
    requires q.None? || Tokens(q.value) == []
    ensures Search(rows, key, q) == rows
  {
    if q.Some? {
      KeepAllMatching(rows, key);
    }
  }

  /** The tokens are combined with `and`: one more token can only narrow
      the result, to the rows of the narrower result that also match it. */
  lemma {:induction false} ExtraTokenNarrows<T>(rows: seq<T>, key: T -> string, tokens: seq<string>, t: string)
    ensures KeepMatching(rows, key, tokens + [t]) == KeepMatching(KeepMatching(rows, key, tokens), key, [t])
  {
    if rows != [] {
      ExtraTokenNarrows(rows[1..], key, tokens, t);
      var x := rows[0];
      assert MatchesAll(key(x), tokens + [t]) <==> MatchesAll(key(x), tokens) && MatchesAll(key(x), [t]) by {
        assert forall u <- tokens + [t] :: u in tokens || u == t;
      }
      var kept := KeepMatching(rows, key, tokens);
      var rest := KeepMatching(rows[1..], key, tokens);
      if MatchesAll(key(x), tokens) {
        assert kept == [x] + rest;
        assert kept[1..] == rest;
        assert KeepMatching(kept, key, [t])
            == (if MatchesAll(key(x), [t]) then [x] else []) + KeepMatching(rest, key, [t]);
      } else {
        assert kept == rest;
      }
    }
  }

  /** The defect: a query of whitespace only makes the view fail, where the
      intended search lists every row. */
  lemma WhitespaceQueryFails<T>(rows: seq<T>, key: T -> string)
    ensures SearchAsWritten(rows, key, Some(" ")) == ServerError
    ensures Search(rows, key, Some(" ")) == rows
  {
    assert Tokens(" ") == Tokens("");
    NoTokensNoFilter(rows, key, Some(" "));
  }

  /** Apart from that defect the view as written lists what the intended
      search lists: the two differ exactly on non-empty queries without tokens. */
  lemma AsWrittenDiffersOnlyOnBlankQueries<T>(rows: seq<T>, key: T -> string, q: Option<string>)
    ensures SearchAsWritten(rows, key, q) == ServerError <==> q.Some? && q.value != "" && Tokens(q.value) == []
    ensures SearchAsWritten(rows, key, q).Listed? ==> SearchAsWritten(rows, key, q).rows == Search(rows, key, q)
  {
    if q.Some? && q.value == "" {
      NoTokensNoFilter(rows, key, q);
    }
  }

  /** `ItemSearchListView`: the item list searched by name, as the view
      answers it. It fails exactly on a non-empty query without tokens;
      otherwise it lists exactly the items whose name contains every token. */
  function ItemSearch(items: seq<Item>, q: Option<string>): (r: Listing<Item>)
    ensures r == ServerError <==> q.Some? && q.value != "" && Tokens(q.value) == []
    ensures r.Listed? ==> forall it :: it in r.rows <==> it in items && (q.Some? ==> MatchesAll(it.name, Tokens(q.value)))
  {
    AsWrittenListsMatching(items, (it: Item) => it.name, q);
    SearchAsWritten(items, (it: Item) => it.name, q)
  }

  /** `DeliverySearchListView`: the delivery list searched by customer name,
      as the view answers it, with the same failure and the same membership. */
  function DeliverySearch(ds: seq<Delivery>, q: Option<string>): (r: Listing<Delivery>)
    ensures r == ServerError <==> q.Some? && q.value != "" && Tokens(q.value) == []
    ensures r.Listed? ==> forall d :: d in r.rows <==> d in ds && (q.Some? ==> MatchesAll(d.customerName, Tokens(q.value)))
  {
    AsWrittenListsMatching(ds, (d: Delivery) => d.customerName, q);
    SearchAsWritten(ds, (d: Delivery) => d.customerName, q)
  }

  lemma AsWrittenListsMatching<T>(rows: seq<T>, key: T -> string, q: Option<string>)
    ensures SearchAsWritten(rows, key, q) == ServerError <==> q.Some? && q.value != "" && Tokens(q.value) == []
    ensures SearchAsWritten(rows, key, q).Listed? ==>
              forall x :: x in SearchAsWritten(rows, key, q).rows <==> x in rows && (q.Some? ==> MatchesAll(key(x), Tokens(q.value)))
  {
    AsWrittenDiffersOnlyOnBlankQueries(rows, key, q);
    forall x {
      SearchMembers(rows, key, q, x);
    }
  }

  // ---------------------------------------------------------------------
  // Low stock

  /** The `quantity__lte` bound of the low-stock list. */
  const LowStockThreshold: int := 5

  function LowRows(items: seq<Item>): seq<Item> {
    if items == [] then []
    else (if items[0].quantity <= LowStockThreshold then [items[0]] else []) + LowRows(items[1..])
  }

  predicate SortedByQuantity(s: seq<Item>) {
    forall i, j :: 0 <= i < j < |s| ==> s[i].quantity <= s[j].quantity
  }

  function Insert(x: Item, s: seq<Item>): seq<Item> {
    if s == [] || x.quantity <= s[0].quantity then [x] + s else [s[0]] + Insert(x, s[1..])
  }

  function SortByQuantity(s: seq<Item>): seq<Item> {
    if s == [] then [] else Insert(s[0], SortByQuantity(s[1..]))
  }

  /** `ProductListAlertView.get_queryset`: the items with at most five in
      stock, by ascending quantity. */
  function LowStock(items: seq<Item>): seq<Item> {
    SortByQuantity(LowRows(items))
  }

  lemma {:induction false} InsertMembers(x: Item, s: seq<Item>)
    ensures forall y <- Insert(x, s) :: y == x || y in s
    ensures multiset(Insert(x, s)) == multiset(s) + multiset{x}
  {
    if s != [] && x.quantity > s[0].quantity {
      InsertMembers(x, s[1..]);
      assert s == [s[0]] + s[1..];
    }
  }

  lemma {:induction false} InsertSorted(x: Item, s: seq<Item>)
    requires SortedByQuantity(s)
    ensures SortedByQuantity(Insert(x, s))
  {
    if s != [] && x.quantity > s[0].quantity {
      InsertSorted(x, s[1..]);
      InsertMembers(x, s[1..]);
      var t := Insert(x, s[1..]);
      var r := Insert(x, s);
      assert r == [s[0]] + t;
      forall j | 0 < j < |r| ensures s[0].quantity <= r[j].quantity {
        assert r[j] == t[j - 1];
        assert t[j - 1] in t;
      }
    }
  }

  lemma {:induction false} SortKeeps(s: seq<Item>)
    ensures SortedByQuantity(SortByQuantity(s))
    ensures multiset(SortByQuantity(s)) == multiset(s)
  {
    if s != [] {
      SortKeeps(s[1..]);
      InsertSorted(s[0], SortByQuantity(s[1..]));
      InsertMembers(s[0], SortByQuantity(s[1..]));
      assert s == [s[0]] + s[1..];
    }
  }

  lemma {:induction false} LowRowsMembers(items: seq<Item>)
    ensures forall it <- LowRows(items) :: it in items && it.quantity <= LowStockThreshold
    ensures forall it <- items :: it.quantity <= LowStockThreshold ==> it in LowRows(items)
    ensures multiset(LowRows(items)) <= multiset(items)
  {
    if items != [] {
      LowRowsMembers(items[1..]);
      assert items == [items[0]] + items[1..];
    }
  }

  /** The low-stock list is ordered by quantity, holds exactly the items
      with at most five in stock, each as often as it is listed. */
  lemma LowStockSpec(items: seq<Item>)
    ensures SortedByQuantity(LowStock(items))
    ensures multiset(LowStock(items)) == multiset(LowRows(items))
    ensures forall it :: it in LowStock(items) <==> it in items && it.quantity <= LowStockThreshold
  {
    SortKeeps(LowRows(items));
    LowRowsMembers(items);
    forall it ensures it in LowStock(items) <==> it in LowRows(items) {
      assert it in LowStock(items) <==> it in multiset(LowStock(items));
      assert it in LowRows(items) <==> it in multiset(LowRows(items));
    }
  }
}
