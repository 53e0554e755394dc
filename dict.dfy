/**
 * A dictionary with string keys that remembers insertion order, as Python's
 * built-in dict does: assigning to a key already present replaces its value
 * where it stands, and a new key is appended at the end.
 */
module Dict {
  import opened Wrappers

  type Dict<V> = seq<(string, V)>

  /** The set of keys of `d`. */
  function KeySet<V>(d: Dict<V>): set<string>
  {
    set i | 0 <= i < |d| :: d[i].0
  }

  /** The keys of `d` in iteration order. */
  function Keys<V>(d: Dict<V>): (ks: seq<string>)
    ensures |ks| == |d|
    ensures forall k :: k in ks <==> k in KeySet(d)
  {
    var ks := seq(|d|, i requires 0 <= i < |d| => d[i].0);
    assert forall k :: k in KeySet(d) ==> k in ks by {
      forall k | k in KeySet(d) ensures k in ks {
        var i :| 0 <= i < |d| && d[i].0 == k;
        assert ks[i] == k;
      }
    }
    ks
  }

  lemma KeySetCons<V>(x: (string, V), rest: Dict<V>)
    ensures KeySet([x] + rest) == {x.0} + KeySet(rest)
  {
    var d := [x] + rest;
    forall k | k in KeySet(rest) ensures k in KeySet(d) {
      var i :| 0 <= i < |rest| && rest[i].0 == k;
      assert d[i + 1].0 == k;
    }
    assert d[0].0 == x.0;
  }

  /** No key appears twice. */
  predicate DistinctKeys<V>(d: Dict<V>)
  {
    forall i, j :: 0 <= i < j < |d| ==> d[i].0 != d[j].0
  }

  lemma DistinctKeysCons<V>(x: (string, V), rest: Dict<V>)
    ensures DistinctKeys([x] + rest) <==> x.0 !in KeySet(rest) && DistinctKeys(rest)
  {
    var d := [x] + rest;
    if DistinctKeys(d) {
      forall i, j | 0 <= i < j < |rest| ensures rest[i].0 != rest[j].0 {
        assert d[i + 1] == rest[i] && d[j + 1] == rest[j];
      }
      forall i | 0 <= i < |rest| ensures rest[i].0 != x.0 {
        assert d[0] == x && d[i + 1] == rest[i];
        assert d[0].0 != d[i + 1].0;
      }
    }
    if x.0 !in KeySet(rest) && DistinctKeys(rest) {
      forall i, j | 0 <= i < j < |d| ensures d[i].0 != d[j].0 {
        if i == 0 {
          assert d[j].0 == rest[j - 1].0;
        } else {
          assert d[i] == rest[i - 1] && d[j] == rest[j - 1];
        }
      }
    }
  }

  /** The value stored under `k`, if any. */
  function Get<V>(d: Dict<V>, k: string): (r: Option<V>)
    ensures r.None? <==> k !in KeySet(d)
  {
    if |d| == 0 then None
    else
      assert d == [d[0]] + d[1..];
      KeySetCons(d[0], d[1..]);
      if d[0].0 == k then Some(d[0].1) else Get(d[1..], k)
  }

  /** `d[k] = v`: replace the value of `k` in place, or append `(k, v)`. */
  function Put<V>(d: Dict<V>, k: string, v: V): (r: Dict<V>)
    ensures Get(r, k) == Some(v)
    ensures forall k' :: k' != k ==> Get(r, k') == Get(d, k')
    ensures KeySet(r) == KeySet(d) + {k}
    ensures DistinctKeys(d) ==> DistinctKeys(r)
  {
    if |d| == 0 then
      assert [(k, v)] == [(k, v)] + [];
      KeySetCons((k, v), []);
      [(k, v)]
    else
      assert d == [d[0]] + d[1..];
      KeySetCons(d[0], d[1..]);
      DistinctKeysCons(d[0], d[1..]);
      if d[0].0 == k then
        var r := [(k, v)] + d[1..];
        KeySetCons((k, v), d[1..]);
        DistinctKeysCons((k, v), d[1..]);
        assert r[1..] == d[1..];
        r
      else
        var rest := Put(d[1..], k, v);
        var r := [d[0]] + rest;
        KeySetCons(d[0], rest);
        DistinctKeysCons(d[0], rest);
        assert r[1..] == rest;
        r
  }

  /** A key not yet present is appended at the end. */
  lemma {:induction false} PutAppendsNewKey<V>(d: Dict<V>, k: string, v: V)
    requires k !in KeySet(d)
    ensures Put(d, k, v) == d + [(k, v)]
  {
    if |d| > 0 {
      assert d == [d[0]] + d[1..];
      KeySetCons(d[0], d[1..]);
      PutAppendsNewKey(d[1..], k, v);
      assert [d[0]] + (d[1..] + [(k, v)]) == d + [(k, v)];
    }
  }

  /**
   * Assigning to a key already present keeps every key where it was, so
   * iteration order is the order in which keys were first inserted.
   */
  lemma {:induction false} PutKeepsOrder<V>(d: Dict<V>, k: string, v: V)
    requires k in KeySet(d)
    ensures |Put(d, k, v)| == |d|
    ensures forall i :: 0 <= i < |d| ==> Put(d, k, v)[i].0 == d[i].0
  {
    assert d == [d[0]] + d[1..];
    KeySetCons(d[0], d[1..]);
    if d[0].0 != k {
      PutKeepsOrder(d[1..], k, v);
    }
  }

  /** Assigning to a key already present leaves the key order as it was. */
  lemma PutExistingKeyOrder<V>(d: Dict<V>, k: string, v: V)
    requires k in KeySet(d)
    ensures Keys(Put(d, k, v)) == Keys(d)
  {
    PutKeepsOrder(d, k, v);
    SameKeys(Put(d, k, v), d);
  }

  /** Assigning to a new key lists it after every key already present. */
  lemma PutNewKeyOrder<V>(d: Dict<V>, k: string, v: V)
    requires k !in KeySet(d)
    ensures Keys(Put(d, k, v)) == Keys(d) + [k]
  {
    PutAppendsNewKey(d, k, v);
    KeysSnoc(d, (k, v));
  }

  /** Appending an entry appends its key. */
  lemma KeysSnoc<V>(d: Dict<V>, x: (string, V))
    ensures Keys(d + [x]) == Keys(d) + [x.0]
  {
    assert forall i :: 0 <= i < |d| ==> Keys(d + [x])[i] == Keys(d)[i];
  }

  /** Two dictionaries with the same key at every position list the same keys. */
  lemma SameKeys<V>(r: Dict<V>, d: Dict<V>)
    requires |r| == |d|
    requires forall i :: 0 <= i < |d| ==> r[i].0 == d[i].0
    ensures Keys(r) == Keys(d)
  {
    assert forall i :: 0 <= i < |d| ==> Keys(r)[i] == Keys(d)[i];
  }
}
