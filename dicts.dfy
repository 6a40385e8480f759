/**
 * Python dictionaries as insertion-ordered association lists: iteration follows the order in
 * which keys were first stored, and storing under an existing key replaces its value in place.
 */
module Dicts {
  import opened Util

  type Dict<K, V> = seq<(K, V)>

  /** The keys in iteration order. */
  function Keys<K, V>(d: Dict<K, V>): (r: seq<K>)
    ensures |r| == |d| && forall i :: 0 <= i < |d| ==> r[i] == d[i].0
  {
    seq(|d|, i requires 0 <= i < |d| => d[i].0)
  }

  /** No key is stored twice: the shape every dictionary has. */
  predicate DistinctKeys<K(==), V>(d: Dict<K, V>)
  {
    forall i, j :: 0 <= i < j < |d| ==> d[i].0 != d[j].0
  }

  /** The lookup from position `i` on: the value of the first entry there with key `k`. */
  function GetFrom<K(==), V>(d: Dict<K, V>, k: K, i: nat): Option<V>
    decreases |d| - i
  {
    if i >= |d| then None else if d[i].0 == k then Some(d[i].1) else GetFrom(d, k, i + 1)
  }

  /** `d.get(k)`: the value stored under `k`, if any. */
  function Get<K(==), V>(d: Dict<K, V>, k: K): Option<V>
  {
    GetFrom(d, k, 0)
  }

  /** The lookup from `i` on finds the entry at the first position of `k` among the keys from `i` on. */
  lemma {:induction false} GetFromIndexOf<K, V>(d: Dict<K, V>, k: K, i: nat)
    requires i <= |d|
    ensures var j := IndexOf(Keys(d)[i..], k); GetFrom(d, k, i) == if j.Some? then Some(d[i + j.value].1) else None
    decreases |d| - i
  {
    if i < |d| && d[i].0 != k {
      var s := Keys(d)[i..];
      GetFromIndexOf(d, k, i + 1);
      assert s[0] != k && s[1..] == Keys(d)[i + 1..];
    }
  }

  /** A lookup finds the value of the first entry with the key. */
  lemma GetIndexOf<K, V>(d: Dict<K, V>, k: K)
    ensures Get(d, k) == match IndexOf(Keys(d), k) case Some(i) => Some(d[i].1) case None => None
  {
    GetFromIndexOf(d, k, 0);
    assert Keys(d)[0..] == Keys(d);
  }

  /** A lookup finds nothing exactly when the key is not stored. */
  lemma GetNone<K, V>(d: Dict<K, V>, k: K)
    ensures Get(d, k).None? <==> k !in Keys(d)
  {
    GetIndexOf(d, k);
  }

  /** A value found is one stored under the key. */
  lemma GetFound<K, V>(d: Dict<K, V>, k: K)
    requires Get(d, k).Some?
    ensures exists i :: 0 <= i < |d| && d[i] == (k, Get(d, k).value)
  {
    GetIndexOf(d, k);
    var i := IndexOf(Keys(d), k).value;
    assert d[i] == (k, Get(d, k).value);
  }

  /** In a dictionary, the entry at a position is what looking up its key finds. */
  lemma GetAt<K, V>(d: Dict<K, V>, i: nat)
    requires DistinctKeys(d) && i < |d|
    ensures Get(d, d[i].0) == Some(d[i].1)
  {
    GetIndexOf(d, d[i].0);
    assert Keys(d)[i] == d[i].0;
  }

  /** Storing from position `i` on: rewrites the first entry there with key `k`, or appends. */
  function PutFrom<K(==), V>(d: Dict<K, V>, k: K, v: V, i: nat): Dict<K, V>
    decreases |d| - i
  {
    if i >= |d| then d + [(k, v)] else if d[i].0 == k then d[i := (k, v)] else PutFrom(d, k, v, i + 1)
  }

  /** `d[k] = v`: replaces the value of an existing key in place, or appends the new key. */
  function Put<K(==), V>(d: Dict<K, V>, k: K, v: V): Dict<K, V>
  {
    PutFrom(d, k, v, 0)
  }

  /** Storing from `i` on rewrites the first position of `k` among the keys from `i` on. */
  lemma {:induction false} PutFromIndexOf<K, V>(d: Dict<K, V>, k: K, v: V, i: nat)
    requires i <= |d|
    ensures var j := IndexOf(Keys(d)[i..], k); PutFrom(d, k, v, i) == if j.Some? then d[i + j.value := (k, v)] else d + [(k, v)]
    decreases |d| - i
  {
    if i < |d| && d[i].0 != k {
      var s := Keys(d)[i..];
      PutFromIndexOf(d, k, v, i + 1);
      assert s[0] != k && s[1..] == Keys(d)[i + 1..];
    }
  }

  /** Storing rewrites the entry at the first position of the key, or appends a new entry. */
  lemma PutIndexOf<K, V>(d: Dict<K, V>, k: K, v: V)
    ensures Put(d, k, v) == match IndexOf(Keys(d), k) case Some(i) => d[i := (k, v)] case None => d + [(k, v)]
  {
    PutFromIndexOf(d, k, v, 0);
    assert Keys(d)[0..] == Keys(d);
  }

  /** Storing keeps the keys of an existing key, and appends a new key at the end. */
  lemma PutKeys<K, V>(d: Dict<K, V>, k: K, v: V)
    ensures k in Keys(d) ==> Keys(Put(d, k, v)) == Keys(d)
    ensures k !in Keys(d) ==> Keys(Put(d, k, v)) == Keys(d) + [k]
  {
    PutIndexOf(d, k, v);
  }

  /** Storing keeps the keys distinct. */
  lemma PutKeepsDistinct<K, V>(d: Dict<K, V>, k: K, v: V)
    ensures DistinctKeys(d) ==> DistinctKeys(Put(d, k, v))
  {
    var r := Put(d, k, v);
    PutKeys(d, k, v);
    if DistinctKeys(d) {
      forall i, j | 0 <= i < j < |r| ensures r[i].0 != r[j].0 {
        assert Keys(r)[i] == r[i].0 && Keys(r)[j] == r[j].0;
        if j == |d| {
          assert r[i].0 == d[i].0;
        } else {
          assert r[i].0 == d[i].0 && r[j].0 == d[j].0;
        }
      }
    }
  }

  /** After storing, the key holds the new value and every other key keeps its own. */
  lemma PutGet<K, V>(d: Dict<K, V>, k: K, v: V)
    requires DistinctKeys(d)
    ensures DistinctKeys(Put(d, k, v))
    ensures Get(Put(d, k, v), k) == Some(v)
    ensures forall other :: other != k ==> Get(Put(d, k, v), other) == Get(d, other)
  {
    var r := Put(d, k, v);
    PutKeepsDistinct(d, k, v);
    PutIndexOf(d, k, v);
    PutKeys(d, k, v);
    assert k in Keys(r);
    var at := IndexOf(Keys(r), k).value;
    GetAt(r, at);
    forall other | other != k ensures Get(r, other) == Get(d, other) {
      GetNone(d, other);
      GetNone(r, other);
      if other in Keys(d) {
        GetIndexOf(d, other);
        var i := IndexOf(Keys(d), other).value;
        GetAt(d, i);
        assert r[i] == d[i];
        GetAt(r, i);
      }
    }
  }

  /** Storing under an existing key at a known position rewrites that position only. */
  lemma PutAt<K, V>(d: Dict<K, V>, i: nat, v: V)
    requires DistinctKeys(d) && i < |d|
    ensures Put(d, d[i].0, v) == d[i := (d[i].0, v)]
  {
    PutIndexOf(d, d[i].0, v);
    assert Keys(d)[i] == d[i].0;
  }

  /** Dictionaries with the same keys in the same order have distinct keys together. */
  lemma SameKeysDistinct<K, V, W>(d: Dict<K, V>, e: Dict<K, W>)
    requires Keys(d) == Keys(e) && DistinctKeys(e)
    ensures DistinctKeys(d)
  {
    forall i, j | 0 <= i < j < |d| ensures d[i].0 != d[j].0 {
      assert Keys(d)[i] == e[i].0 && Keys(d)[j] == e[j].0;
    }
  }

  /** Looking up in a dictionary extended by one new entry. */
  lemma GetSnoc<K, V>(d: Dict<K, V>, k: K, v: V, c: K)
    requires DistinctKeys(d + [(k, v)])
    ensures Get(d + [(k, v)], c) == if c in Keys(d) then Get(d, c) else if c == k then Some(v) else None
  {
    var e := d + [(k, v)];
    assert Keys(e) == Keys(d) + [k];
    assert DistinctKeys(d) by {
      forall i, j | 0 <= i < j < |d| ensures d[i].0 != d[j].0 {
        assert e[i] == d[i] && e[j] == d[j];
      }
    }
    GetNone(e, c);
    if c in Keys(d) {
      GetIndexOf(d, c);
      var i := IndexOf(Keys(d), c).value;
      GetAt(d, i);
      assert e[i] == d[i];
      GetAt(e, i);
    } else if c == k {
      GetAt(e, |d|);
    }
  }
}
