/** Grouping query rows by id into a `defaultdict`, keeping the first row of every id, in order of
    first appearance: the shape of `_get_all_items` in market_engine/modules/MarketData.py and
    of `get_all_items` in modules/MarketData.py. */
module Grouping {
  import opened Dicts

  function KeysOf<T, K>(rows: seq<T>, key: T -> K): seq<K> {
    seq(|rows|, i requires 0 <= i < |rows| => key(rows[i]))
  }

  /** The first row of every key, in order of first appearance. */
  function FirstBy<T, K(==)>(rows: seq<T>, key: T -> K): seq<T> {
    if rows == [] then []
    else
      var f := FirstBy(rows[..|rows| - 1], key);
      if key(rows[|rows| - 1]) in KeysOf(f, key) then f else f + [rows[|rows| - 1]]
  }

  /** The dict after the rows `f` were kept, as (key, value) pairs. */
  function EntriesBy<T, K, V>(f: seq<T>, key: T -> K, value: T -> V): Dict<K, V> {
    seq(|f|, i requires 0 <= i < |f| => (key(f[i]), value(f[i])))
  }

  lemma EntriesKeys<T, K, V>(f: seq<T>, key: T -> K, value: T -> V)
    ensures forall k :: k in KeySet(EntriesBy(f, key, value)) <==> k in KeysOf(f, key)
  {
    forall k ensures k in KeySet(EntriesBy(f, key, value)) <==> k in KeysOf(f, key) {
      if k in KeysOf(f, key) {
        var i :| 0 <= i < |f| && KeysOf(f, key)[i] == k;
        assert EntriesBy(f, key, value)[i].0 == k;
      }
      if k in KeySet(EntriesBy(f, key, value)) {
        var i :| 0 <= i < |f| && EntriesBy(f, key, value)[i].0 == k;
        assert KeysOf(f, key)[i] == k;
      }
    }
  }

  /** One loop step: a row with a new key adds its entry at the end; a row with a known key
      changes nothing. */
  lemma GroupStep<T, K(!new), V>(rows: seq<T>, i: int, key: T -> K, value: T -> V)
    requires 0 <= i < |rows|
    ensures var d := EntriesBy(FirstBy(rows[..i], key), key, value);
      EntriesBy(FirstBy(rows[..i + 1], key), key, value) ==
        if Lookup(d, key(rows[i])).None? then Put(d, key(rows[i]), value(rows[i])) else d
  {
    assert rows[..i + 1][..i] == rows[..i];
    var f := FirstBy(rows[..i], key);
    var d := EntriesBy(f, key, value);
    EntriesKeys(f, key, value);
    if Lookup(d, key(rows[i])).None? {
      PutNew(d, key(rows[i]), value(rows[i]));
      assert EntriesBy(f + [rows[i]], key, value) == d + [(key(rows[i]), value(rows[i]))];
    }
  }

  /** The kept rows have distinct keys, every row's key is kept, and each kept row is the first
      row of its key. */
  lemma {:induction false} FirstBySpec<T, K>(rows: seq<T>, key: T -> K)
    ensures var f := FirstBy(rows, key);
      (forall i, j :: 0 <= i < j < |f| ==> key(f[i]) != key(f[j]))
      && (forall i :: 0 <= i < |rows| ==> key(rows[i]) in KeysOf(f, key))
      && (forall k :: 0 <= k < |f| ==> exists i :: 0 <= i < |rows| && f[k] == rows[i]
                                                 && forall j :: 0 <= j < i ==> key(rows[j]) != key(rows[i]))
  {
    if rows != [] {
      var init, last := rows[..|rows| - 1], rows[|rows| - 1];
      FirstBySpec(init, key);
      var g := FirstBy(init, key);
      var f := FirstBy(rows, key);
      assert forall i :: 0 <= i < |init| ==> rows[i] == init[i];
      if key(last) !in KeysOf(g, key) {
        assert f == g + [last];
        forall i | 0 <= i < |g| ensures key(g[i]) != key(last) {
          assert KeysOf(g, key)[i] == key(g[i]);
        }
        forall i | 0 <= i < |rows| ensures key(rows[i]) in KeysOf(f, key) {
          if i < |init| {
            var k :| 0 <= k < |g| && KeysOf(g, key)[k] == key(init[i]);
            assert KeysOf(f, key)[k] == key(rows[i]);
          } else {
            assert KeysOf(f, key)[|g|] == key(rows[i]);
          }
        }
        forall j | 0 <= j < |init| ensures key(rows[j]) != key(last) {
          assert key(init[j]) in KeysOf(g, key);
        }
      }
    }
  }

  /** The kept rows come in order of first appearance: before any row with a later entry's key,
      a row with an earlier entry's key has already appeared. */
  lemma {:induction false} FirstByOrder<T, K>(rows: seq<T>, key: T -> K)
    ensures var f := FirstBy(rows, key);
      forall k, l, j :: 0 <= k < l < |f| && 0 <= j < |rows| && key(rows[j]) == key(f[l]) ==>
        exists i :: 0 <= i < j && key(rows[i]) == key(f[k])
  {
    if rows != [] {
      var init, last := rows[..|rows| - 1], rows[|rows| - 1];
      FirstByOrder(init, key);
      FirstBySpec(init, key);
      var g := FirstBy(init, key);
      var f := FirstBy(rows, key);
      assert forall i :: 0 <= i < |init| ==> rows[i] == init[i];
      forall k, l, j | 0 <= k < l < |f| && 0 <= j < |rows| && key(rows[j]) == key(f[l])
        ensures exists i :: 0 <= i < j && key(rows[i]) == key(f[k])
      {
        if l < |g| {
          assert f[k] == g[k] && f[l] == g[l];
          if j < |init| {
            var i :| 0 <= i < j && key(init[i]) == key(g[k]);
            assert key(rows[i]) == key(f[k]);
          } else {
            var i' :| 0 <= i' < |init| && g[l] == init[i'] && forall m :: 0 <= m < i' ==> key(init[m]) != key(init[i']);
            var i :| 0 <= i < i' && key(init[i]) == key(g[k]);
            assert key(rows[i]) == key(f[k]);
          }
        } else {
          assert f == g + [last] && f[l] == last && f[k] == g[k];
          var i :| 0 <= i < |init| && g[k] == init[i] && forall m :: 0 <= m < i ==> key(init[m]) != key(init[i]);
          if j < |init| {
            assert false;
          }
          assert key(rows[i]) == key(f[k]);
        }
      }
    }
  }

  /** The values of the grouped entries, in order: `[d['item_data'] for d in item_dict.values()]`. */
  function ValuesOf<K, V>(d: Dict<K, V>): seq<V> {
    seq(|d|, i requires 0 <= i < |d| => d[i].1)
  }
}
