/** The item order book shared by market_engine/modules/MarketData.py and modules/MarketData.py:
    a raw order from the market API, the parsed order kept in `MarketItem.orders`, and the
    stable sort by (price, last_update) that `parse_orders` applies to each side. */
module Orders {
  import opened Prelude
  import opened Text

  /** An order of the item-orders endpoint. */
  datatype RawOrder = RawOrder(orderType: string, userId: string, userName: string, userStatus: string,
                               lastUpdate: string, quantity: int, platinum: int,
                               subtype: Option<string>, modRank: Option<int>)

  /** An entry of `MarketItem.orders['buy']` or `['sell']`. */
  datatype BookOrder = BookOrder(lastUpdate: string, quantity: int, price: int, user: string,
                                 state: string, subtype: Option<string>)

  /** The subtype of a parsed order: a mod rank `n` becomes "Rn" and overrides the order's subtype. */
  function ParsedSubtype(o: RawOrder): (r: Option<string>)
    ensures o.modRank.None? ==> r == o.subtype
    ensures o.modRank.Some? ==> r.Some? && |r.value| >= 2 && r.value[0] == 'R'
    ensures o.modRank.Some? && o.modRank.value >= 0 ==> r.value[1..] == NatToString(o.modRank.value)
  {
    if o.modRank.Some? then Some("R" + IntToString(o.modRank.value)) else o.subtype
  }

  /** The parsed order: price from `platinum`, user name and state from the user record. */
  function ParseOrder(o: RawOrder): BookOrder {
    BookOrder(o.lastUpdate, o.quantity, o.platinum, o.userName, o.userStatus, ParsedSubtype(o))
  }

  // ---------------------------------------------------------------------------
  // Python's ordering of strings and of (price, last_update) keys

  /** `a < b` on strings: lexicographic by code point. */
  predicate StrLess(a: string, b: string) {
    if a == [] then b != []
    else if b == [] then false
    else a[0] < b[0] || (a[0] == b[0] && StrLess(a[1..], b[1..]))
  }

  lemma {:induction false} StrLessIrreflexive(a: string)
    ensures !StrLess(a, a)
  {
    if a != [] {
      StrLessIrreflexive(a[1..]);
    }
  }

  lemma {:induction false} StrLessTransitive(a: string, b: string, c: string)
    requires StrLess(a, b) && StrLess(b, c)
    ensures StrLess(a, c)
  {
    if a != [] && a[0] == b[0] && b[0] == c[0] {
      StrLessTransitive(a[1..], b[1..], c[1..]);
    }
  }

  lemma {:induction false} StrLessTotal(a: string, b: string)
    ensures a == b || StrLess(a, b) || StrLess(b, a)
  {
    if a != [] && b != [] && a[0] == b[0] {
      StrLessTotal(a[1..], b[1..]);
      if a[1..] == b[1..] {
        assert a == [a[0]] + a[1..] && b == [b[0]] + b[1..];
      }
    }
  }

  /** The sort key `(x['price'], x['last_update'])`. */
  function Key(o: BookOrder): (int, string) {
    (o.price, o.lastUpdate)
  }

  /** Tuple comparison of two keys. */
  predicate KeyLess(a: (int, string), b: (int, string)) {
    a.0 < b.0 || (a.0 == b.0 && StrLess(a.1, b.1))
  }

  /** `o` sorts strictly before `p`: ascending keys, or descending ones for `reverse=True`. */
  predicate Before(o: BookOrder, p: BookOrder, reverse: bool) {
    if reverse then KeyLess(Key(p), Key(o)) else KeyLess(Key(o), Key(p))
  }

  lemma BeforeIrreflexive(o: BookOrder, reverse: bool)
    ensures !Before(o, o, reverse)
  {
    StrLessIrreflexive(o.lastUpdate);
  }

  lemma BeforeTransitive(o: BookOrder, p: BookOrder, q: BookOrder, reverse: bool)
    requires Before(o, p, reverse) && Before(p, q, reverse)
    ensures Before(o, q, reverse)
  {
    if reverse {
      if q.price == p.price && p.price == o.price {
        StrLessTransitive(q.lastUpdate, p.lastUpdate, o.lastUpdate);
      }
    } else {
      if o.price == p.price && p.price == q.price {
        StrLessTransitive(o.lastUpdate, p.lastUpdate, q.lastUpdate);
      }
    }
  }

  lemma BeforeAsymmetric(o: BookOrder, p: BookOrder, reverse: bool)
    ensures !(Before(o, p, reverse) && Before(p, o, reverse))
  {
    if Before(o, p, reverse) && Before(p, o, reverse) {
      BeforeTransitive(o, p, o, reverse);
      BeforeIrreflexive(o, reverse);
    }
  }

  lemma SameKeyNotBefore(o: BookOrder, p: BookOrder, reverse: bool)
    ensures Key(o) == Key(p) ==> !Before(o, p, reverse)
  {
    StrLessIrreflexive(o.lastUpdate);
  }

  /** Two orders neither of which sorts before the other have the same key. */
  lemma BeforeTotal(o: BookOrder, p: BookOrder, reverse: bool)
    ensures Before(o, p, reverse) || Before(p, o, reverse) || Key(o) == Key(p)
  {
    StrLessTotal(o.lastUpdate, p.lastUpdate);
  }

  // ---------------------------------------------------------------------------
  // The stable sort

  /** Insert `x` after every element that does not sort strictly after it. */
  function Insert(s: seq<BookOrder>, x: BookOrder, reverse: bool): seq<BookOrder> {
    if s == [] || !Before(x, s[|s| - 1], reverse) then s + [x]
    else Insert(s[..|s| - 1], x, reverse) + [s[|s| - 1]]
  }

  /** `list.sort(key=lambda x: (x['price'], x['last_update']), reverse=reverse)`. */
  function Sort(s: seq<BookOrder>, reverse: bool): seq<BookOrder> {
    if s == [] then [] else Insert(Sort(s[..|s| - 1], reverse), s[|s| - 1], reverse)
  }

  predicate Sorted(s: seq<BookOrder>, reverse: bool) {
    forall i, j :: 0 <= i < j < |s| ==> !Before(s[j], s[i], reverse)
  }

  /** The orders of `s` with key `k`, in order. */
  function WithKey(s: seq<BookOrder>, k: (int, string)): seq<BookOrder> {
    if s == [] then []
    else WithKey(s[..|s| - 1], k) + (if Key(s[|s| - 1]) == k then [s[|s| - 1]] else [])
  }

  lemma {:induction false} InsertPerm(s: seq<BookOrder>, x: BookOrder, reverse: bool)
    ensures multiset(Insert(s, x, reverse)) == multiset(s) + multiset{x}
  {
    if s != [] && Before(x, s[|s| - 1], reverse) {
      InsertPerm(s[..|s| - 1], x, reverse);
      assert s == s[..|s| - 1] + [s[|s| - 1]];
    }
  }

  lemma {:induction false} InsertSorted(s: seq<BookOrder>, x: BookOrder, reverse: bool)
    requires Sorted(s, reverse)
    ensures Sorted(Insert(s, x, reverse), reverse)
  {
    var r := Insert(s, x, reverse);
    if s == [] {
    } else if !Before(x, s[|s| - 1], reverse) {
      forall i | 0 <= i < |s| ensures !Before(x, s[i], reverse) {
        if Before(x, s[i], reverse) {
          BeforeTotal(s[i], s[|s| - 1], reverse);
          if Before(s[i], s[|s| - 1], reverse) {
            BeforeTransitive(x, s[i], s[|s| - 1], reverse);
          }
        }
      }
    } else {
      var init, last := s[..|s| - 1], s[|s| - 1];
      InsertSorted(init, x, reverse);
      var t := Insert(init, x, reverse);
      InsertPerm(init, x, reverse);
      forall i | 0 <= i < |t| ensures !Before(last, t[i], reverse) {
        assert t[i] in multiset(t);
        if t[i] == x {
          BeforeAsymmetric(x, last, reverse);
        } else {
          assert t[i] in multiset(init);
          var j :| 0 <= j < |init| && init[j] == t[i];
          assert s[j] == t[i];
        }
      }
    }
  }

  /** Inserting leaves the orders of every other key where they were, and puts `x` after every
      order of its own key. */
  lemma {:induction false} InsertStable(s: seq<BookOrder>, x: BookOrder, reverse: bool, k: (int, string))
    ensures WithKey(Insert(s, x, reverse), k) == WithKey(s, k) + (if Key(x) == k then [x] else [])
  {
    if s == [] || !Before(x, s[|s| - 1], reverse) {
      assert Insert(s, x, reverse) == s + [x];
      WithKeySnoc(s, x, k);
    } else {
      var init, last := s[..|s| - 1], s[|s| - 1];
      assert s == init + [last];
      InsertStable(init, x, reverse, k);
      SameKeyNotBefore(x, last, reverse);
      StableStep(Insert(init, x, reverse), init, last, x, k);
    }
  }

  /** When `x` moves in front of an order of another key, the orders of each key keep their
      relative order. */
  lemma StableStep(t: seq<BookOrder>, init: seq<BookOrder>, last: BookOrder, x: BookOrder, k: (int, string))
    requires !(Key(x) == k && Key(last) == k)
    requires WithKey(t, k) == WithKey(init, k) + (if Key(x) == k then [x] else [])
    ensures WithKey(t + [last], k) == WithKey(init + [last], k) + (if Key(x) == k then [x] else [])
  {
    var own := if Key(x) == k then [x] else [];
    var other := if Key(last) == k then [last] else [];
    WithKeySnoc(t, last, k);
    WithKeySnoc(init, last, k);
    assert (WithKey(init, k) + own) + other == (WithKey(init, k) + other) + own;
  }

  lemma WithKeySnoc(s: seq<BookOrder>, y: BookOrder, k: (int, string))
    ensures WithKey(s + [y], k) == WithKey(s, k) + (if Key(y) == k then [y] else [])
  {
    assert (s + [y])[..|s|] == s;
  }

  /** The sort is a permutation of its input. */
  lemma {:induction false} SortPerm(s: seq<BookOrder>, reverse: bool)
    ensures multiset(Sort(s, reverse)) == multiset(s)
  {
    if s != [] {
      var init, last := s[..|s| - 1], s[|s| - 1];
      SortPerm(init, reverse);
      InsertPerm(Sort(init, reverse), last, reverse);
      assert s == init + [last];
    }
  }

  /** The sort's output is ordered by key, ascending or, for `reverse`, descending. */
  lemma {:induction false} SortSorted(s: seq<BookOrder>, reverse: bool)
    ensures Sorted(Sort(s, reverse), reverse)
  {
    if s != [] {
      SortSorted(s[..|s| - 1], reverse);
      InsertSorted(Sort(s[..|s| - 1], reverse), s[|s| - 1], reverse);
    }
  }

  /** The sort is stable: the orders of each key keep their input order. */
  lemma {:induction false} SortStable(s: seq<BookOrder>, reverse: bool, k: (int, string))
    ensures WithKey(Sort(s, reverse), k) == WithKey(s, k)
  {
    if s != [] {
      SortStable(s[..|s| - 1], reverse, k);
      InsertStable(Sort(s[..|s| - 1], reverse), s[|s| - 1], reverse, k);
    }
  }

  // ---------------------------------------------------------------------------
  // Routing orders to the two sides

  /** The order types `MarketItem.orders` has a bucket for. */
  predicate IsSide(orderType: string) {
    orderType == "buy" || orderType == "sell"
  }

  /** Every order names an existing bucket. */
  predicate AllRouted(orders: seq<RawOrder>) {
    forall i :: 0 <= i < |orders| ==> IsSide(orders[i].orderType)
  }

  /** The parsed orders whose type is `side`, in input order. */
  function Route(orders: seq<RawOrder>, side: string): seq<BookOrder> {
    if orders == [] then []
    else
      var last := orders[|orders| - 1];
      Route(orders[..|orders| - 1], side) + (if last.orderType == side then [ParseOrder(last)] else [])
  }

  /** All orders parsed, in input order. */
  function ParseAllOrders(orders: seq<RawOrder>): seq<BookOrder> {
    seq(|orders|, i requires 0 <= i < |orders| => ParseOrder(orders[i]))
  }

  /** When every order names a bucket, the two buckets together hold every parsed order once:
      routing is a partition. */
  lemma {:induction false} RoutePartition(orders: seq<RawOrder>)
    requires AllRouted(orders)
    ensures multiset(Route(orders, "buy")) + multiset(Route(orders, "sell")) == multiset(ParseAllOrders(orders))
    ensures |Route(orders, "buy")| + |Route(orders, "sell")| == |orders|
  {
    if orders != [] {
      var init, last := orders[..|orders| - 1], orders[|orders| - 1];
      assert AllRouted(init) by {
        forall i | 0 <= i < |init| ensures IsSide(init[i].orderType) {
          assert init[i] == orders[i];
        }
      }
      RoutePartition(init);
      assert IsSide(last.orderType);
      assert ParseAllOrders(orders) == ParseAllOrders(init) + [ParseOrder(last)];
    }
  }

  /** An order is in the bucket of its own type. */
  lemma {:induction false} RouteMembers(orders: seq<RawOrder>, side: string, i: int)
    requires 0 <= i < |orders| && orders[i].orderType == side
    ensures ParseOrder(orders[i]) in Route(orders, side)
  {
    if i < |orders| - 1 {
      RouteMembers(orders[..|orders| - 1], side, i);
    }
  }

  /** One step of the routing loop: the order goes to the bucket of its type, if it has one. */
  lemma RouteStep(orders: seq<RawOrder>, i: int)
    requires 0 <= i < |orders|
    ensures Route(orders[..i + 1], "buy") == Route(orders[..i], "buy") + (if orders[i].orderType == "buy" then [ParseOrder(orders[i])] else [])
    ensures Route(orders[..i + 1], "sell") == Route(orders[..i], "sell") + (if orders[i].orderType == "sell" then [ParseOrder(orders[i])] else [])
    ensures AllRouted(orders[..i + 1]) <==> AllRouted(orders[..i]) && IsSide(orders[i].orderType)
  {
    assert orders[..i + 1][..i] == orders[..i];
  }
}
