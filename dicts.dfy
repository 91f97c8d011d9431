/** Python dicts as association lists: insertion order is kept, and assigning
    to a present key replaces its value where it stands. */
module Dicts {
  import opened Prelude

  type Dict<K, V> = seq<(K, V)>

  function KeySet<K(==), V>(d: Dict<K, V>): set<K> {
    set i | 0 <= i < |d| :: d[i].0
  }

  lemma KeySetCons<K, V>(p: (K, V), d: Dict<K, V>)
    ensures KeySet([p] + d) == {p.0} + KeySet(d)
  {
    var e := [p] + d;
    forall x | x in KeySet(e) ensures x in {p.0} + KeySet(d) {
      var i :| 0 <= i < |e| && e[i].0 == x;
      if i > 0 { assert d[i - 1].0 == x; }
    }
    forall x | x in KeySet(d) ensures x in KeySet(e) {
      var i :| 0 <= i < |d| && d[i].0 == x;
      assert e[i + 1].0 == x;
    }
    assert e[0].0 == p.0;
  }

  predicate DistinctKeys<K(==), V>(d: Dict<K, V>) {
    forall i, j :: 0 <= i < j < |d| ==> d[i].0 != d[j].0
  }

  /** `d.get(k)`. */
  function Lookup<K(==), V>(d: Dict<K, V>, k: K): (r: Option<V>)
    ensures r.Some? <==> k in KeySet(d)
  {
    if d == [] then None
    else if d[0].0 == k then Some(d[0].1)
    else
      KeySetCons(d[0], d[1..]);
      assert [d[0]] + d[1..] == d;
      Lookup(d[1..], k)
  }

  /** `d[k] = v`. */
  function Put<K(==,!new), V>(d: Dict<K, V>, k: K, v: V): (r: Dict<K, V>)
    ensures KeySet(r) == KeySet(d) + {k}
    ensures Lookup(r, k) == Some(v)
    ensures forall k' :: k' != k ==> Lookup(r, k') == Lookup(d, k')
  {
    if d == [] then
      KeySetCons((k, v), []);
      [(k, v)]
    else
      KeySetCons(d[0], d[1..]);
      assert [d[0]] + d[1..] == d;
      if d[0].0 == k then
        var r := [(k, v)] + d[1..];
        KeySetCons((k, v), d[1..]);
        r
      else
        var t := Put(d[1..], k, v);
        var r := [d[0]] + t;
        assert r[1..] == t;
        KeySetCons(d[0], t);
        r
  }

  /** `d[k] = v` keeps the keys distinct. */
  lemma {:induction false} PutDistinct<K(!new), V>(d: Dict<K, V>, k: K, v: V)
    requires DistinctKeys(d)
    ensures DistinctKeys(Put(d, k, v))
  {
    if d != [] && d[0].0 != k {
      PutDistinct(d[1..], k, v);
      var t := Put(d[1..], k, v);
      assert Put(d, k, v) == [d[0]] + t;
      KeySetCons(d[0], d[1..]);
      assert d[0].0 !in KeySet(d[1..]);
      forall j | 0 < j < |Put(d, k, v)| ensures Put(d, k, v)[j].0 != d[0].0 {
        assert t[j - 1].0 in KeySet(t);
      }
    }
  }

  /** The value of the last pair with key `k`, if any. */
  function LastValue<K(==), V>(rows: seq<(K, V)>, k: K): Option<V> {
    if rows == [] then None
    else if rows[|rows| - 1].0 == k then Some(rows[|rows| - 1].1)
    else LastValue(rows[..|rows| - 1], k)
  }

  /** `dict(rows)`: pairs are assigned in order, so a later pair overwrites an earlier one. */
  function FromPairs<K(==,!new), V>(rows: seq<(K, V)>): Dict<K, V> {
    if rows == [] then []
    else Put(FromPairs(rows[..|rows| - 1]), rows[|rows| - 1].0, rows[|rows| - 1].1)
  }

  /** `dict(rows)` has one entry per key, holding the value of the key's last row. */
  lemma {:induction false} FromPairsLookup<K(!new), V>(rows: seq<(K, V)>, k: K)
    ensures DistinctKeys(FromPairs(rows))
    ensures Lookup(FromPairs(rows), k) == LastValue(rows, k)
  {
    if rows != [] {
      FromPairsLookup(rows[..|rows| - 1], k);
      PutDistinct(FromPairs(rows[..|rows| - 1]), rows[|rows| - 1].0, rows[|rows| - 1].1);
    }
  }

  /** Looking up in a dict extended at the end: an earlier entry shadows the new pair. */
  lemma {:induction false} LookupSnoc<K, V>(d: Dict<K, V>, p: (K, V), k: K)
    ensures Lookup(d + [p], k) == if Lookup(d, k).Some? then Lookup(d, k) else if p.0 == k then Some(p.1) else None
  {
    if d != [] {
      assert (d + [p])[1..] == d[1..] + [p];
      LookupSnoc(d[1..], p, k);
    }
  }

  /** With distinct keys, the first entry for a key is also its last. */
  lemma {:induction false} LookupLast<K, V>(d: Dict<K, V>, k: K)
    requires DistinctKeys(d)
    ensures Lookup(d, k) == LastValue(d, k)
  {
    if d != [] {
      var init, last := d[..|d| - 1], d[|d| - 1];
      assert d == init + [last];
      LookupLast(init, k);
      LookupSnoc(init, last, k);
    }
  }

  /** Assigning to an absent key appends the pair at the end. */
  lemma {:induction false} PutNew<K(!new), V>(d: Dict<K, V>, k: K, v: V)
    requires k !in KeySet(d)
    ensures Put(d, k, v) == d + [(k, v)]
  {
    if d != [] {
      KeySetCons(d[0], d[1..]);
      assert [d[0]] + d[1..] == d;
      PutNew(d[1..], k, v);
    }
  }

  /** The last pair for `k` is present exactly when `k` is a key, and no later pair has key `k`. */
  lemma {:induction false} LastValueSpec<K, V>(rows: seq<(K, V)>, k: K)
    ensures LastValue(rows, k).Some? <==> k in KeySet(rows)
    ensures LastValue(rows, k).Some? ==>
      exists i :: 0 <= i < |rows| && rows[i] == (k, LastValue(rows, k).value)
                  && forall j :: i < j < |rows| ==> rows[j].0 != k
  {
    if rows != [] {
      var init := rows[..|rows| - 1];
      LastValueSpec(init, k);
      assert rows == init + [rows[|rows| - 1]];
      assert forall x :: x in KeySet(init) ==> x in KeySet(rows) by {
        forall x | x in KeySet(init) ensures x in KeySet(rows) {
          var i :| 0 <= i < |init| && init[i].0 == x;
          assert rows[i].0 == x;
        }
      }
      if rows[|rows| - 1].0 != k && k in KeySet(rows) {
        var i :| 0 <= i < |rows| && rows[i].0 == k;
        assert init[i].0 == k;
      }
    }
  }

  /** Assigning to a key replaces its first entry where it stands: every position is kept. */
  lemma {:induction false} PutInPlace<K(!new), V>(d: Dict<K, V>, i: int, v: V)
    requires 0 <= i < |d| && forall j :: 0 <= j < i ==> d[j].0 != d[i].0
    ensures Put(d, d[i].0, v) == d[i := (d[i].0, v)]
  {
    if i > 0 {
      assert d[1..][i - 1] == d[i];
      PutInPlace(d[1..], i - 1, v);
      assert [d[0]] + d[1..][i - 1 := (d[i].0, v)] == d[i := (d[i].0, v)];
    }
  }

  /** The keys of a dict, in its order. */
  function KeysInOrder<K, V>(d: Dict<K, V>): (r: seq<K>)
    ensures |r| == |d| && forall i :: 0 <= i < |d| ==> r[i] == d[i].0
  {
    seq(|d|, i requires 0 <= i < |d| => d[i].0)
  }

  /** The keys of `rows` in the order they first appear, each once. */
  function FirstKeys<K(==), V>(rows: seq<(K, V)>): seq<K> {
    if rows == [] then []
    else
      var ks := FirstKeys(rows[..|rows| - 1]);
      if rows[|rows| - 1].0 in ks then ks else ks + [rows[|rows| - 1].0]
  }

  /** A key is among the dict's keys in order exactly when it is a key. */
  lemma KeysInOrderMembers<K, V>(d: Dict<K, V>, k: K)
    ensures k in KeysInOrder(d) <==> k in KeySet(d)
  {
    if k in KeysInOrder(d) {
      var i :| 0 <= i < |d| && KeysInOrder(d)[i] == k;
      assert d[i].0 == k;
    }
    if k in KeySet(d) {
      var i :| 0 <= i < |d| && d[i].0 == k;
      assert KeysInOrder(d)[i] == k;
    }
  }

  /** `d[k] = v` keeps the order of the keys, appending `k` when it is new. */
  lemma KeysOfPut<K(!new), V>(d: Dict<K, V>, k: K, v: V)
    requires DistinctKeys(d)
    ensures KeysInOrder(Put(d, k, v)) == if k in KeySet(d) then KeysInOrder(d) else KeysInOrder(d) + [k]
  {
    if k in KeySet(d) {
      var i :| 0 <= i < |d| && d[i].0 == k;
      PutInPlace(d, i, v);
      var e := d[i := (k, v)];
      assert forall m :: 0 <= m < |e| ==> KeysInOrder(e)[m] == KeysInOrder(d)[m];
    } else {
      PutNew(d, k, v);
      var e := d + [(k, v)];
      assert forall m :: 0 <= m < |e| ==> KeysInOrder(e)[m] == (KeysInOrder(d) + [k])[m];
    }
  }

  /** `dict(rows)` keeps its keys in the order they first appear in `rows`: a later row for a key
      changes its value, never its place. */
  lemma {:induction false} FromPairsKeys<K(!new), V>(rows: seq<(K, V)>)
    ensures KeysInOrder(FromPairs(rows)) == FirstKeys(rows)
  {
    if rows != [] {
      var init, last := rows[..|rows| - 1], rows[|rows| - 1];
      FromPairsKeys(init);
      FromPairsLookup(init, last.0);
      KeysInOrderMembers(FromPairs(init), last.0);
      KeysOfPut(FromPairs(init), last.0, last.1);
    }
  }
}
